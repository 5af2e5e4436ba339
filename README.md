# Call-session state machine of the Twilio Client quickstart for Android

This project models, in Dafny, the session logic inside the quickstart's
`ClientActivity`: the single Device (registration) slot, the active and the
pending Connection slots, the client profile that decides what capability
token is requested, the mute and speaker flags, and the audio route the
activity sets.

- `wrappers.dfy` (`Wrappers`): `Option`, the stand-in for a nullable reference.
- `java_string.dfy` (`JavaString`): Java's `String.trim()`, which `connect` uses.
- `contact.dfy` (`Contact`): the target `connect` dials (`CallTarget`) and its inverse.
- `capability_token.dfy` (`CapabilityToken`): `Profile` (the Java `ClientProfile`),
  the query parameters of the token request, and the capability they ask for.
- `client_activity.dfy` (`Quickstart`): the class `ClientActivity`, with one method
  per operation. `Device`, `Connection` and `Intent` are small classes whose
  identity is what matters. Each call into the calling SDK or the HTTP client
  that takes effect is appended to the `calls` log. Only createDevice's SDK
  calls, which the activity wraps in try/catch, take a success parameter.
  `Valid()` is the invariant
  every method keeps: the speaker route last set matches `speakerPhone`. It is
  a preserved fact only; no other contract depends on it.
- `scenarios.dfy` (`Scenarios`): event sequences proved from the method
  contracts alone.

The model follows the code as written, including these places where a reader
might expect otherwise:
- a token response is applied whenever it arrives, even when a newer profile
  was submitted in the meantime;
- `connect` overwrites the active slot without checking that it is empty;
- the cancel listener rejects the pending Connection but leaves it in the
  pending slot;
- the speaker toggle changes the audio route whether or not a call is active;
- a second incoming call silently replaces the pending one.

## Model

| member | source | states |
|---|---|---|
| JavaString.LeadingCount | app/src/main/java/client/twilio/com/quickstart/ClientActivity.java:298 | the characters `trim()` strips from the front are exactly the run of characters at or below U+0020 that ends at the first kept character |
| JavaString.TrailingCount | app/src/main/java/client/twilio/com/quickstart/ClientActivity.java:298 | the same for the back of the string |
| JavaString.Trim | app/src/main/java/client/twilio/com/quickstart/ClientActivity.java:298 | `trim()` returns a contiguous part of its input, preceded and followed only by removable characters, that is empty or starts and ends with a kept character |
| JavaString.TrimOfPadded | app/src/main/java/client/twilio/com/quickstart/ClientActivity.java:298 | these properties determine `trim()`: removable padding around such a core always trims to that core |
| JavaString.TrimIdempotent | app/src/main/java/client/twilio/com/quickstart/ClientActivity.java:298 | trimming twice gives the same as trimming once |
| JavaString.TrimIgnoresPadding | app/src/main/java/client/twilio/com/quickstart/ClientActivity.java:298 | adding removable padding around a string does not change its trimmed form |
| Contact.CallTarget | app/src/main/java/client/twilio/com/quickstart/ClientActivity.java:297-299 | a phone number is dialled exactly as typed, neither trimmed nor prefixed; a client target always carries the `client:` marker, and reading it back gives the trimmed contact |
| Quickstart.ConnectParams | app/src/main/java/client/twilio/com/quickstart/ClientActivity.java:301-302 | the map handed to the SDK has the single key `To`, holding the phone number as typed or the trimmed client name behind the `client:` marker |
| Contact.ClientTargetIgnoresPadding | app/src/main/java/client/twilio/com/quickstart/ClientActivity.java:295-302 | whitespace typed around a client name never changes the dialled target, and normalising is stable |
| Contact.BobExample | app/src/main/java/client/twilio/com/quickstart/ClientActivity.java:295-302 | `"bob "` dials `"client:bob"` as a client and `"bob "` as a phone number |
| CapabilityToken.TokenQuery | app/src/main/java/client/twilio/com/quickstart/ClientActivity.java:262-268 | the request holds `allowOutgoing=true` iff outgoing calls are allowed, and `client=<name>` iff incoming calls are allowed and a name is set; no other key, no key twice, and the flag is never `false` |
| CapabilityToken.TokenQueryRoundTrip | app/src/main/java/client/twilio/com/quickstart/ClientActivity.java:262-268 | reading the query back yields exactly the capability the profile requests |
| CapabilityToken.SameQueryIffSameCapability | app/src/main/java/client/twilio/com/quickstart/ClientActivity.java:262-268 | two profiles send the same request iff they request the same capability |
| Quickstart.ClientActivity.constructor | app/src/main/java/client/twilio/com/quickstart/ClientActivity.java:57-129 | the session starts with no Device, both slots empty, both flags off and the default profile `jenny`, outgoing and incoming allowed |
| Quickstart.ClientActivity.CreateDevice | app/src/main/java/client/twilio/com/quickstart/ClientActivity.java:183-217 | a Device is created only when none exists; otherwise the existing Device gets the new token; there is never a second Device, and a failing SDK call leaves the slot and the token as they were |
| Quickstart.ClientActivity.OnResume | app/src/main/java/client/twilio/com/quickstart/ClientActivity.java:221-244 | with no incoming extras nothing changes; otherwise both extras are removed and the pending slot takes the incoming Connection, which may be null |
| Quickstart.ClientActivity.OnNewIntent | app/src/main/java/client/twilio/com/quickstart/ClientActivity.java:250-254 | the new Intent is the one the next resume reads |
| Quickstart.ClientActivity.RetrieveCapabilityToken | app/src/main/java/client/twilio/com/quickstart/ClientActivity.java:259-272 | the query built step by step equals `TokenQuery` of the new profile, and one request carrying it is sent |
| Quickstart.ClientActivity.OnTokenCompleted | app/src/main/java/client/twilio/com/quickstart/ClientActivity.java:273-289 | on success the new profile is adopted and the token applied as `CreateDevice` does, including which of create or update is sent to the SDK; on failure profile, Device and everything else are unchanged |
| Quickstart.ClientActivity.Connect | app/src/main/java/client/twilio/com/quickstart/ClientActivity.java:295-311 | without a Device the active slot is unchanged; with one, it holds a new Connection dialled to the normalised target |
| Quickstart.ClientActivity.Disconnect | app/src/main/java/client/twilio/com/quickstart/ClientActivity.java:316-321 | the active slot ends empty; a disconnect is sent only if it held a Connection, so a second call is a no-op |
| Quickstart.ClientActivity.Answer | app/src/main/java/client/twilio/com/quickstart/ClientActivity.java:326-331 | the pending Connection is accepted, becomes the active one, and the pending slot is cleared |
| Quickstart.ClientActivity.ResetUI | app/src/main/java/client/twilio/com/quickstart/ClientActivity.java:354-370 | mute and speaker flags off; audio mode in-communication with the speaker off |
| Quickstart.ClientActivity.Cancel | app/src/main/java/client/twilio/com/quickstart/ClientActivity.java:467-479 | a pending Connection is rejected but stays pending; then the UI state is reset |
| Quickstart.ClientActivity.ToggleMute | app/src/main/java/client/twilio/com/quickstart/ClientActivity.java:481-499 | the mute flag flips and is sent to the active Connection only when there is one |
| Quickstart.ClientActivity.ToggleSpeaker | app/src/main/java/client/twilio/com/quickstart/ClientActivity.java:501-521 | the speaker flag flips and the audio route becomes in-call with the speaker as flagged |
| Quickstart.ClientActivity.Hangup | app/src/main/java/client/twilio/com/quickstart/ClientActivity.java:523-531 | resets the UI state, then disconnects as `Disconnect` does |
| Quickstart.ClientActivity.OnDisconnected | app/src/main/java/client/twilio/com/quickstart/ClientActivity.java:587-600 | only a report about the identical active Connection clears the slot and resets the UI state; every other report changes nothing |
| Quickstart.ClientActivity.OnDisconnectedWithError | app/src/main/java/client/twilio/com/quickstart/ClientActivity.java:604-618 | the same identity rule when the call ended with an error |
| Scenarios.IncomingCallConsumedOnce | app/src/main/java/client/twilio/com/quickstart/ClientActivity.java:224-243 | an incoming call is taken from the Intent once; resuming again changes nothing, and nothing but the pending slot and the Intent's extras is touched |
| Scenarios.AnswerThenRemoteHangup | app/src/main/java/client/twilio/com/quickstart/ClientActivity.java:326-331 | answering and then the remote hang-up leaves both slots empty and the flags off |
| Scenarios.StaleReportKeepsActiveCall | app/src/main/java/client/twilio/com/quickstart/ClientActivity.java:587-618 | disconnect reports about another Connection never clear the active call |
| Scenarios.DisconnectTwice | app/src/main/java/client/twilio/com/quickstart/ClientActivity.java:316-321 | two disconnects in a row send exactly one disconnect to the SDK |
| Scenarios.CancelKeepsRejectedPending | app/src/main/java/client/twilio/com/quickstart/ClientActivity.java:467-479 | after cancel the rejected Connection is still pending, so a later answer makes it the active call |
| Scenarios.TokenThenRefresh | app/src/main/java/client/twilio/com/quickstart/ClientActivity.java:183-203 | the first token creates the Device, a second refreshes that same Device (the log shows one create and then one update of it), and the profile is the one whose token arrived last |
| Scenarios.FailedRefreshKeepsSession | app/src/main/java/client/twilio/com/quickstart/ClientActivity.java:276-287 | a failed token request leaves the Device, its token, the profile and both slots untouched |

## Left out

- Views, dialogs, floating buttons, toasts, the chronometer, menus and logging are presentation only. Of each listener, only its effect on the slots, the flags and the audio route is modelled.
- The microphone permission flow and SDK initialisation (`initializeTwilioClientSDK`, `onInitialized`) are platform and library plumbing. `onInitialized` only calls `RetrieveCapabilityToken` with the current profile.
- The profile dialog (`updateTokenClickListener`) reads the new profile from widgets. It then calls `RetrieveCapabilityToken`, which is modelled.
- The Device listener callbacks only log, so they are not modelled.
- The AudioManager is reduced to the route the activity last set (`audio`), which starts as normal mode with the speaker off. The audio-focus request is not modelled.
- The token service URL and the way `Uri.Builder` renders and percent-encodes parameters are not modelled. The query is kept as a list of key/value pairs.
- The HTTP request and the SDK (`Twilio.createDevice`, `Device.connect`, `accept`, `reject`, `disconnect`, `setMuted`) are foreign code. They appear only as entries in `calls`.
- Only createDevice's SDK calls, which the activity wraps in try/catch, get a success parameter. `Device.connect`, `accept`, `setConnectionListener`, `reject`, `disconnect` and `setMuted` are taken to return normally. An exception from them is uncaught in the activity and would stop the method part-way; that is not modelled.
- Quickstart.ClientActivity.Connect: `Device.connect` is taken to always return a new Connection, never null.
- Quickstart.ClientActivity.CreateDevice: a failure is modelled as one that happens before the Device is stored. The case where `setIncomingIntent` throws after `Twilio.createDevice` succeeded is not modelled.
- Quickstart.ClientActivity.Answer: requires a pending Connection. With none, the Java code throws a NullPointerException, which is not modelled.
- Quickstart.ClientActivity.OnDisconnected and Quickstart.ClientActivity.OnDisconnectedWithError: the `resetUI` posted with `runOnUiThread` runs at once, because the model is one sequential stream of events. Threads and the races between callbacks and user actions are not modelled.
