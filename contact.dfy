/**
 * The outgoing-call target built by ClientActivity.connect: a client name is
 * trimmed and addressed with the "client:" marker, a phone number is passed on
 * exactly as typed.
 */
module Contact {
  import opened Wrappers
  import opened JavaString

  /** The marker that addresses another client rather than a phone number. */
  const ClientPrefix: string := "client:"

  /**
   * The value of the "To" parameter handed to Device.connect. A phone number
   * reaches the SDK untrimmed and unprefixed; a client target always
   * addresses a client, and the name it addresses is the contact with its
   * removable padding stripped.
   */
  function CallTarget(contact: string, isPhoneNumber: bool): (to: string)
    ensures isPhoneNumber ==> to == contact
    ensures !isPhoneNumber ==> ClientNameOf(to) == Some(Trim(contact))
  {
    if isPhoneNumber then contact else ClientPrefix + Trim(contact)
  }

  /** Reads a target back: the client name it addresses, if it addresses a client. */
  function ClientNameOf(target: string): Option<string> {
    if |target| >= |ClientPrefix| && target[..|ClientPrefix|] == ClientPrefix
    then Some(target[|ClientPrefix|..])
    else None
  }

  /**
   * Padding typed around a client name never changes the target, and
   * normalising an already trimmed name gives the same target.
   */
  lemma ClientTargetIgnoresPadding(pre: string, contact: string, post: string)
    requires AllTrimmable(pre) && AllTrimmable(post)
    ensures CallTarget(pre + contact + post, false) == CallTarget(contact, false)
    ensures CallTarget(Trim(contact), false) == CallTarget(contact, false)
  {
    TrimIgnoresPadding(pre, contact, post);
    TrimIdempotent(contact);
  }

  /** Example: "bob " typed as a client name and as a phone number. */
  lemma BobExample()
    ensures CallTarget("bob ", false) == "client:bob"
    ensures CallTarget("bob ", true) == "bob "
  {
  }
}
