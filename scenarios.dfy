/**
 * Event sequences on a ClientActivity, each proved from the method
 * contracts alone: what a caller of the session can rely on.
 */
module Scenarios {
  import opened CapabilityToken
  import opened Quickstart

  /** An incoming call on the Intent is taken into the pending slot once; a second onResume changes nothing. */
  method IncomingCallConsumedOnce(a: ClientActivity)
    requires a.Valid() && a.intent != null && a.intent.connection != null
    modifies a`pendingConnection, a.intent
    ensures a.Valid()
    ensures a.pendingConnection == old(a.intent.connection)
    ensures a.intent == old(a.intent) && a.intent.device == null && a.intent.connection == null
  {
    a.OnResume();
    ghost var pending := a.pendingConnection;
    a.OnResume();
    assert a.pendingConnection == pending;
  }

  /** Answering, then the remote end hanging up, leaves both slots empty and the flags reset. */
  method AnswerThenRemoteHangup(a: ClientActivity)
    requires a.Valid() && a.pendingConnection != null
    modifies a
    ensures a.Valid()
    ensures a.connection == null && a.pendingConnection == null
    ensures !a.muteMicrophone && !a.speakerPhone && a.audio == AudioRoute(InCommunication, false)
  {
    a.Answer();
    var answered := a.connection;
    a.OnDisconnected(answered);
  }

  /** A disconnect report about any other Connection never clears the active call. */
  method StaleReportKeepsActiveCall(a: ClientActivity, stale: Connection?, code: int, message: string)
    requires a.Valid() && a.connection != null && stale != a.connection
    modifies a
    ensures a.Valid()
    ensures a.connection == old(a.connection) && a.pendingConnection == old(a.pendingConnection)
    ensures a.muteMicrophone == old(a.muteMicrophone) && a.speakerPhone == old(a.speakerPhone)
  {
    a.OnDisconnectedWithError(stale, code, message);
    a.OnDisconnected(stale);
  }

  /** Hanging up twice sends exactly one disconnect to the SDK. */
  method DisconnectTwice(a: ClientActivity)
    requires a.Valid() && a.connection != null
    modifies a
    ensures a.Valid()
    ensures a.connection == null
    ensures a.calls == old(a.calls) + [Call.Disconnect(old(a.connection))]
  {
    a.Disconnect();
    a.Disconnect();
  }

  /**
   * Cancelling rejects the pending Connection but keeps it in the pending
   * slot, so a later answer still moves that rejected Connection to the
   * active slot.
   */
  method CancelKeepsRejectedPending(a: ClientActivity)
    requires a.Valid() && a.pendingConnection != null
    modifies a
    ensures a.Valid()
    ensures a.connection == old(a.pendingConnection) && a.pendingConnection == null
    ensures a.calls == old(a.calls) + [Reject(a.connection), Accept(a.connection), Listen(a.connection)]
  {
    a.Cancel();
    assert a.pendingConnection == old(a.pendingConnection);
    a.Answer();
  }

  /**
   * The first token creates the Device and a later one refreshes that same
   * Device; the profile is the one whose token arrived last, whichever
   * request it answers.
   */
  method TokenThenRefresh(a: ClientActivity, p1: Profile, t1: string, p2: Profile, t2: string)
    requires a.Valid() && a.clientDevice == null
    modifies a
    ensures a.Valid()
    ensures a.clientDevice != null && fresh(a.clientDevice)
    ensures a.clientDevice.token == t2 && a.clientProfile == p2
    ensures a.calls == old(a.calls) + [Call.CreateDevice(a.clientDevice, t1), UpdateToken(a.clientDevice, t2)]
  {
    a.OnTokenCompleted(p1, Token(t1), true);
    var first := a.clientDevice;
    a.OnTokenCompleted(p2, Token(t2), true);
    assert a.clientDevice == first;
  }

  /** A failed token request leaves the Device, the profile and any call untouched. */
  method FailedRefreshKeepsSession(a: ClientActivity, p: Profile, message: string)
    requires a.Valid()
    modifies a, a.clientDevice
    ensures a.Valid()
    ensures a.clientDevice == old(a.clientDevice) && a.clientProfile == old(a.clientProfile)
    ensures a.connection == old(a.connection) && a.pendingConnection == old(a.pendingConnection)
    ensures a.clientDevice != null ==> a.clientDevice.token == old(a.clientDevice.token)
  {
    a.OnTokenCompleted(p, FetchFailed(message), true);
  }
}
