/**
 * The call-session state machine inside ClientActivity: the Device slot, the
 * active and pending Connection slots, the client profile, the mute and
 * speaker flags and the audio route the activity last set.
 *
 * The calling SDK and the HTTP client are foreign code. Their handles are
 * opaque objects compared by identity; the calls made into them are recorded,
 * in order, in `calls`. Only the SDK calls of createDevice, which the
 * activity wraps in try/catch, take a success parameter; the others are taken
 * to return normally.
 */
module Quickstart {
  import opened Wrappers
  import opened JavaString
  import opened Contact
  import opened CapabilityToken

  /** A registration handle made by the SDK; only its capability token is visible. */
  class Device {
    var token: string

    constructor (token: string)
      ensures this.token == token
    {
      this.token := token;
    }
  }

  /** A call handle made by the SDK; only its identity matters here. */
  class Connection {
    constructor ()
    {
    }
  }

  /** The activity's Intent: the incoming-call extras, null when absent. */
  class Intent {
    var device: Device?
    var connection: Connection?

    constructor (device: Device?, connection: Connection?)
      ensures this.device == device && this.connection == connection
    {
      this.device := device;
      this.connection := connection;
    }
  }

  /** AudioManager's modes, as far as the activity sets them. */
  datatype AudioMode = Normal | InCall | InCommunication

  /** The audio route the activity last asked AudioManager for. */
  datatype AudioRoute = AudioRoute(mode: AudioMode, speakerOn: bool)

  /** A call into the HTTP client or the SDK that took effect. */
  datatype Call =
    | FetchToken(query: seq<Param>)
    | CreateDevice(device: Device, token: string)
    | UpdateToken(device: Device, token: string)
    | Connect(device: Device, params: map<string, string>, connection: Connection)
    | Accept(connection: Connection)
    | Listen(connection: Connection)
    | Reject(connection: Connection)
    | Disconnect(connection: Connection)
    | SetMuted(connection: Connection, muted: bool)

  /** How the token request completed: a token, or the exception Ion reported. */
  datatype TokenResponse = Token(token: string) | FetchFailed(message: string)

  /**
   * The parameter map connect hands to Device.connect: the single key "To",
   * holding the contact as typed for a phone number and the trimmed client
   * name behind the "client:" marker otherwise.
   */
  function ConnectParams(contact: string, isPhoneNumber: bool): (params: map<string, string>)
    ensures params.Keys == {"To"}
    ensures isPhoneNumber ==> params["To"] == contact
    ensures !isPhoneNumber ==> ClientNameOf(params["To"]) == Some(Trim(contact))
  {
    map["To" := CallTarget(contact, isPhoneNumber)]
  }

  class ClientActivity {
    var clientDevice: Device?
    var connection: Connection?
    var pendingConnection: Connection?
    var clientProfile: Profile
    var muteMicrophone: bool
    var speakerPhone: bool
    var audio: AudioRoute
    var intent: Intent?
    var calls: seq<Call>

    /** The speaker route the activity last set always matches its speaker flag. */
    ghost predicate Valid()
      reads this
    {
      audio.speakerOn == speakerPhone
    }

    /** The state onCreate leaves behind, before the SDK has initialised. */
    constructor (intent: Intent?)
      ensures Valid()
      ensures clientDevice == null && connection == null && pendingConnection == null
      ensures clientProfile == DefaultProfile
      ensures !muteMicrophone && !speakerPhone && audio == AudioRoute(Normal, false)
      ensures this.intent == intent && calls == []
    {
      clientDevice, connection, pendingConnection := null, null, null;
      clientProfile := DefaultProfile;
      muteMicrophone, speakerPhone := false, false;
      audio := AudioRoute(Normal, false);
      this.intent := intent;
      calls := [];
    }

    /**
     * createDevice: the first token creates the Device, every later one is
     * handed to the existing Device; a failing SDK call changes nothing.
     */
    method CreateDevice(token: string, sdkSucceeds: bool)
      requires Valid()
      modifies this`clientDevice, this`calls, clientDevice
      ensures Valid()
      ensures old(clientDevice) != null ==> clientDevice == old(clientDevice)
      ensures old(clientDevice) == null && sdkSucceeds ==> clientDevice != null && fresh(clientDevice)
      ensures !sdkSucceeds ==>
        clientDevice == old(clientDevice) && calls == old(calls) && (clientDevice != null ==> unchanged(clientDevice))
      ensures sdkSucceeds ==> clientDevice != null && clientDevice.token == token
      ensures sdkSucceeds ==>
        calls == old(calls) + [if old(clientDevice) == null then Call.CreateDevice(clientDevice, token) else Call.UpdateToken(clientDevice, token)]
    {
      if clientDevice == null {
        if sdkSucceeds {
          clientDevice := new Device(token);
          calls := calls + [Call.CreateDevice(clientDevice, token)];
        }
      } else if sdkSucceeds {
        clientDevice.token := token;
        calls := calls + [UpdateToken(clientDevice, token)];
      }
    }

    /**
     * onResume: incoming-call extras on the Intent are consumed once; the
     * pending slot takes the incoming Connection, which may be null.
     */
    method OnResume()
      requires Valid()
      modifies this`pendingConnection, intent
      ensures Valid()
      ensures old(intent) == null || (old(intent.device) == null && old(intent.connection) == null) ==>
        pendingConnection == old(pendingConnection) && (intent != null ==> unchanged(intent))
      ensures intent != null && (old(intent.device) != null || old(intent.connection) != null) ==>
        pendingConnection == old(intent.connection) && intent.device == null && intent.connection == null
    {
      if intent != null {
        var device, incoming := intent.device, intent.connection;
        if incoming == null && device == null {
          return;
        }
        intent.device, intent.connection := null, null;
        pendingConnection := incoming;
      }
    }

    /** onNewIntent: the Intent that the next onResume reads. */
    method OnNewIntent(newIntent: Intent)
      requires Valid()
      modifies this`intent
      ensures Valid()
      ensures intent == newIntent
    {
      intent := newIntent;
    }

    /**
     * retrieveCapabilityToken: the query is built one parameter at a time and
     * the request is sent; nothing else changes until the response arrives.
     */
    method RetrieveCapabilityToken(newProfile: Profile) returns (query: seq<Param>)
      modifies this`calls
      ensures query == TokenQuery(newProfile)
      ensures calls == old(calls) + [FetchToken(query)]
    {
      // One step per appendQueryParameter call on the Uri.Builder, guards and values as written there.
      query := [];
      if newProfile.allowOutgoing {
        query := query + [(OutgoingKey, if newProfile.allowOutgoing then "true" else "false")];
      }
      if newProfile.allowIncoming && newProfile.name.Some? {
        query := query + [(ClientKey, newProfile.name.value)];
      }
      calls := calls + [FetchToken(query)];
    }

    /**
     * The token request's callback: on success the new profile is adopted and
     * the token applied to the Device; on failure nothing changes.
     */
    method OnTokenCompleted(newProfile: Profile, response: TokenResponse, sdkSucceeds: bool)
      requires Valid()
      modifies this`clientProfile, this`clientDevice, this`calls, clientDevice
      ensures Valid()
      ensures response.FetchFailed? ==> unchanged(this) && (clientDevice != null ==> unchanged(clientDevice))
      ensures response.Token? ==> clientProfile == newProfile
      ensures old(clientDevice) != null ==> clientDevice == old(clientDevice)
      ensures response.Token? && old(clientDevice) == null && sdkSucceeds ==> clientDevice != null && fresh(clientDevice)
      ensures response.Token? && sdkSucceeds ==> clientDevice != null && clientDevice.token == response.token
      ensures response.Token? && sdkSucceeds ==>
        calls == old(calls) + [if old(clientDevice) == null then Call.CreateDevice(clientDevice, response.token)
                               else Call.UpdateToken(clientDevice, response.token)]
      ensures !(response.Token? && sdkSucceeds) ==>
        clientDevice == old(clientDevice) && calls == old(calls) && (clientDevice != null ==> unchanged(clientDevice))
    {
      if response.Token? {
        clientProfile := newProfile;
        CreateDevice(response.token, sdkSucceeds);
      }
    }

    /**
     * connect: the active slot takes a new Connection to the normalised
     * target when a Device exists, overwriting whatever it held; without a
     * Device nothing changes.
     */
    method Connect(contact: string, isPhoneNumber: bool)
      requires Valid()
      modifies this`connection, this`calls
      ensures Valid()
      ensures old(clientDevice) == null ==> connection == old(connection) && calls == old(calls)
      ensures old(clientDevice) != null ==>
        && connection != null && fresh(connection)
        && calls == old(calls) + [Call.Connect(clientDevice, ConnectParams(contact, isPhoneNumber), connection)]
    {
      var params := ConnectParams(contact, isPhoneNumber);
      if clientDevice != null {
        var c := new Connection();
        connection := c;
        calls := calls + [Call.Connect(clientDevice, params, c)];
      }
    }

    /** disconnect: an active Connection is disconnected and the slot cleared; otherwise a no-op. */
    method Disconnect()
      requires Valid()
      modifies this`connection, this`calls
      ensures Valid()
      ensures connection == null
      ensures calls == old(calls) + if old(connection) != null then [Call.Disconnect(old(connection))] else []
    {
      if connection != null {
        calls := calls + [Call.Disconnect(connection)];
        connection := null;
      }
    }

    /** answer: the pending Connection is accepted and moves to the active slot. */
    method Answer()
      requires Valid()
      requires pendingConnection != null
      modifies this`connection, this`pendingConnection, this`calls
      ensures Valid()
      ensures connection == old(pendingConnection) && pendingConnection == null
      ensures calls == old(calls) + [Accept(connection), Listen(connection)]
    {
      calls := calls + [Accept(pendingConnection), Listen(pendingConnection)];
      connection := pendingConnection;
      pendingConnection := null;
    }

    /** resetUI, its state part: both flags off, audio back to in-communication with the speaker off. */
    method ResetUI()
      requires Valid()
      modifies this`muteMicrophone, this`speakerPhone, this`audio
      ensures Valid()
      ensures !muteMicrophone && !speakerPhone
      ensures audio == AudioRoute(InCommunication, false)
    {
      muteMicrophone := false;
      speakerPhone := false;
      audio := AudioRoute(InCommunication, speakerPhone);
    }

    /**
     * The dialogs' cancel listener: a pending Connection is rejected but stays
     * in the pending slot; then the UI is reset.
     */
    method Cancel()
      requires Valid()
      modifies this`calls, this`muteMicrophone, this`speakerPhone, this`audio
      ensures Valid()
      ensures calls == old(calls) + if pendingConnection != null then [Reject(pendingConnection)] else []
      ensures !muteMicrophone && !speakerPhone && audio == AudioRoute(InCommunication, false)
    {
      if pendingConnection != null {
        calls := calls + [Reject(pendingConnection)];
      }
      ResetUI();
    }

    /** The mute button: the flag flips and reaches the active Connection, if any. */
    method ToggleMute()
      requires Valid()
      modifies this`muteMicrophone, this`calls
      ensures Valid()
      ensures muteMicrophone == !old(muteMicrophone)
      ensures calls == old(calls) + if connection != null then [SetMuted(connection, muteMicrophone)] else []
    {
      muteMicrophone := !muteMicrophone;
      if connection != null {
        calls := calls + [SetMuted(connection, muteMicrophone)];
      }
    }

    /** The speaker button: the flag flips and audio goes in-call with the speaker as flagged, call or no call. */
    method ToggleSpeaker()
      requires Valid()
      modifies this`speakerPhone, this`audio
      ensures Valid()
      ensures speakerPhone == !old(speakerPhone)
      ensures audio == AudioRoute(InCall, speakerPhone)
    {
      speakerPhone := !speakerPhone;
      audio := AudioRoute(InCall, speakerPhone);
    }

    /** The hang-up button: resetUI, then disconnect. */
    method Hangup()
      requires Valid()
      modifies this`connection, this`calls, this`muteMicrophone, this`speakerPhone, this`audio
      ensures Valid()
      ensures connection == null
      ensures calls == old(calls) + if old(connection) != null then [Call.Disconnect(old(connection))] else []
      ensures !muteMicrophone && !speakerPhone && audio == AudioRoute(InCommunication, false)
    {
      ResetUI();
      Disconnect();
    }

    /**
     * onDisconnected(Connection): only a report about the very Connection in
     * the active slot clears it (and resets the UI); any other report changes
     * nothing.
     */
    method OnDisconnected(inConnection: Connection?)
      requires Valid()
      modifies this`connection, this`muteMicrophone, this`speakerPhone, this`audio
      ensures Valid()
      ensures old(connection) != null && inConnection == old(connection) ==>
        connection == null && !muteMicrophone && !speakerPhone && audio == AudioRoute(InCommunication, false)
      ensures !(old(connection) != null && inConnection == old(connection)) ==> unchanged(this)
    {
      if connection != null && inConnection != null {
        if connection == inConnection {
          connection := null;
          ResetUI();
        }
      }
    }

    /** onDisconnected(Connection, int, String): the same rule when the call ended with an error. */
    method OnDisconnectedWithError(inConnection: Connection?, errorCode: int, error: string)
      requires Valid()
      modifies this`connection, this`muteMicrophone, this`speakerPhone, this`audio
      ensures Valid()
      ensures old(connection) != null && inConnection == old(connection) ==>
        connection == null && !muteMicrophone && !speakerPhone && audio == AudioRoute(InCommunication, false)
      ensures !(old(connection) != null && inConnection == old(connection)) ==> unchanged(this)
    {
      if connection != null && inConnection != null {
        if connection == inConnection {
          connection := null;
          ResetUI();
        }
      }
    }
  }
}
