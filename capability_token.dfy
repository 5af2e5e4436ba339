/**
 * The client profile and the query parameters that
 * ClientActivity.retrieveCapabilityToken sends to the token service.
 */
module CapabilityToken {
  import opened Wrappers

  /** ClientActivity.ClientProfile: a requested identity (nullable) and its permissions. */
  datatype Profile = Profile(name: Option<string>, allowOutgoing: bool, allowIncoming: bool)

  /** The profile the activity starts with. */
  const DefaultProfile: Profile := Profile(Some("jenny"), true, true)

  /** One query parameter, key and value. */
  type Param = (string, string)

  const OutgoingKey: string := "allowOutgoing"
  const ClientKey: string := "client"

  /**
   * The parameters appended to the token service URL, in order: the outgoing
   * flag when outgoing calls are allowed, then the client name when incoming
   * calls are allowed and a name is set. Only these two keys occur, each at
   * most once, and the outgoing flag is never sent as "false".
   */
  function TokenQuery(p: Profile): (q: seq<Param>)
    ensures |q| <= 2
    ensures forall i :: 0 <= i < |q| ==> q[i].0 == OutgoingKey || q[i].0 == ClientKey
    ensures forall i, j :: 0 <= i < j < |q| ==> q[i].0 != q[j].0
    ensures forall i :: 0 <= i < |q| && q[i].0 == OutgoingKey ==> q[i].1 == "true"
    ensures (OutgoingKey, "true") in q <==> p.allowOutgoing
    ensures forall i :: 0 <= i < |q| && q[i].0 == ClientKey ==> p.allowIncoming && p.name == Some(q[i].1)
    ensures (exists i :: 0 <= i < |q| && q[i].0 == ClientKey) <==> p.allowIncoming && p.name.Some?
  {
    var outgoing := if p.allowOutgoing then [(OutgoingKey, if p.allowOutgoing then "true" else "false")] else [];
    var client := if p.allowIncoming && p.name.Some? then [(ClientKey, p.name.value)] else [];
    assert OutgoingKey != ClientKey;
    var q := outgoing + client;
    assert client != [] ==> q[|outgoing|] == client[0];
    q
  }

  /** What a token request asks for: outgoing permission and the identity to register. */
  datatype Capability = Capability(outgoing: bool, client: Option<string>)

  /** The capability a profile requests. */
  function Requested(p: Profile): Capability {
    Capability(p.allowOutgoing, if p.allowIncoming then p.name else None)
  }

  /** The first value given for `key`, as the token service reads it. */
  function Lookup(q: seq<Param>, key: string): Option<string> {
    if q == [] then None
    else if q[0].0 == key then Some(q[0].1)
    else Lookup(q[1..], key)
  }

  /** The capability a query asks the token service for. */
  function RequestedBy(q: seq<Param>): Capability {
    Capability(Lookup(q, OutgoingKey) == Some("true"), Lookup(q, ClientKey))
  }

  /** Reading the query back recovers exactly the capability the profile requests. */
  lemma TokenQueryRoundTrip(p: Profile)
    ensures RequestedBy(TokenQuery(p)) == Requested(p)
  {
    var c := if p.allowIncoming && p.name.Some? then [(ClientKey, p.name.value)] else [];
    var q := TokenQuery(p);
    assert OutgoingKey != ClientKey;
    assert Lookup(c, OutgoingKey) == None by {
      if c != [] { assert c[1..] == []; }
    }
    assert Lookup(c, ClientKey) == (if p.allowIncoming then p.name else None) by {
      if c != [] { assert c[0] == (ClientKey, p.name.value); }
    }
    if p.allowOutgoing {
      assert q[0] == (OutgoingKey, "true") && q[1..] == c;
    } else {
      assert q == c;
    }
  }

  /**
   * Two profiles produce the same request iff they request the same
   * capability; a name is not sent when incoming calls are not allowed.
   */
  lemma SameQueryIffSameCapability(p1: Profile, p2: Profile)
    ensures TokenQuery(p1) == TokenQuery(p2) <==> Requested(p1) == Requested(p2)
  {
  }
}
