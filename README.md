# VoipPatient call sessions in Dafny

This project models the two stateful parts of the VoipPatient React Native
client and proves properties about them:

- the call screen (`VideoCallScreen`): the WebSocket signaling handlers, the
  peer-connection callbacks, the end-of-call teardown guarded by
  `hasEndedCall`, the mute/video/speaker/camera buttons, the two-step unmute
  consent handshake, and the rules for when an offer is sent, when the
  recorder starts and when the duration timer starts;
- `getRequiredPermissions`, the list of Android permissions recording needs;
- the home screen's incoming-call state (`HomeScreen`): `incoming_call` and
  `call_rejected`, accepting and rejecting a call, starting a call, and the
  `join` sent when the socket opens.

Layout:

| file | module | what |
|---|---|---|
| `wrappers.dfy` | `Wrappers` | `Option` |
| `signaling.dfy` | `Signaling` | the JSON envelopes on the signaling socket, the socket's ready state |
| `js_numbers.dfy` | `JsNumbers` | `Number#toString` on integers and `parseInt(s, 10)` |
| `permissions.dfy` | `Permissions` | `getRequiredPermissions` |
| `call_model.dfy` | `CallModel` | the call screen as a value `Call` and one function per handler |
| `call_counts.dfy` | `CallCounts` | counting effects of each kind in a log; what cleanup and `endCall` add |
| `call_trace.dfy` | `CallTrace` | events, when the platform delivers them, the screen invariant and whole runs |
| `call_screen.dfy` | `VideoCall` | class `CallScreen`: the refs and state as fields, the handlers as methods |
| `home_model.dfy` | `HomeModel` | the home screen as a value, its handlers, its invariant over runs |
| `home_screen.dfy` | `Home` | class `HomeScreen`: the home screen's state as fields, its handlers as methods |

Each class method is proved to leave its object in the state the value
function of the same handler computes (`State() == CallModel.EndCall(params,
old(State()), …)`). Everything proved about the value functions therefore
holds of the objects. `Handle` on each class delivers one event and keeps the
screen's invariant.

Things outside the program become parameters:

- the outcome of each foreign call (permission prompt, `getUserMedia`,
  `createOffer`, `setRemoteDescription`, `addIceCandidate`, recorder start,
  recording saved, `fetch` of `/api/calls/start`);
- the event that arrives next.

Observable effects go to an effect log in order. The log holds messages sent,
peer connection created and closed, tracks stopped, alerts, navigation,
socket close, timer start and stop, and recorder start, stop and upload.

## Model

| member | source | states |
|---|---|---|
| Permissions.GetRequiredPermissions | src/components/VideoCallScreen.tsx:156-171 | `RECORD_AUDIO` comes first; `WRITE_EXTERNAL_STORAGE` is present if and only if the SDK level is below 33 (false for NaN); nothing else; one or two entries |
| Permissions.VersionStringReadsAsNumber | src/components/VideoCallScreen.tsx:157-160 | a version string made of a number's decimal form and a non-digit tail gives the same SDK level as the number |
| Permissions.NoDigitsNoStorage | src/components/VideoCallScreen.tsx:157-167 | a version string without leading digits reads as NaN, so storage permission is not requested |
| JsNumbers.ParseInt10 | src/components/VideoCallScreen.tsx:158-160 | `parseInt(s, 10)` is NaN exactly when no digit follows the leading white space and optional sign |
| JsNumbers.ParseIntString | src/components/VideoCallScreen.tsx:158-160 | `parseInt(n.toString() + rest, 10)` is `n` whenever `rest` does not continue with a digit |
| JsNumbers.ParseIntSkipsSpace | src/components/VideoCallScreen.tsx:158-160 | leading white space does not change what `parseInt` reads |
| JsNumbers.NatStringValue | src/screens/HomeScreen.tsx:47 | the digits `toString` writes read back as the number |
| JsNumbers.IntString | src/screens/HomeScreen.tsx:47 | `id.toString()` is non-empty and starts with `-` exactly for negative ids |
| CallModel.StopEffects | src/components/VideoCallScreen.tsx:329 | `forEach(track => track.stop())` stops each track once, in order, and every track |
| CallModel.CleanupStopsAllTracks | src/components/VideoCallScreen.tsx:328-336 | cleanup stops every track of the local and the remote stream |
| CallModel.CleanupResources | src/components/VideoCallScreen.tsx:314-344 | afterwards no peer connection, stream, recording or timer is held; the socket, the end flag, the controls and the unmute view are unchanged |
| CallModel.EndCall | src/components/VideoCallScreen.tsx:372-412 | after a first call the call has ended, the socket is dropped and everything is released; on an ended call it changes nothing; controls and unmute view are untouched |
| CallModel.EndCallOnce | src/components/VideoCallScreen.tsx:372-374 | a second `endCall`, local or remote, changes nothing |
| CallModel.EndCallNotice | src/components/VideoCallScreen.tsx:379-411 | `endCall` ends by going back; after a remote end the "call ended" alert naming the local role comes right before |
| CallModel.ToggleMuteSpec | src/components/VideoCallScreen.tsx:415-436 | without a local audio track, nothing changes; otherwise the first audio track flips, `isMuted` becomes its negation, `mute_status` with the new flag is sent only on an open socket, and nothing else changes |
| CallModel.ToggleMuteTwice | src/components/VideoCallScreen.tsx:415-436 | pressing mute twice restores the stream, and `isMuted` is again the opposite of the first audio track's flag |
| CallModel.ToggleVideoSpec | src/components/VideoCallScreen.tsx:477-485 | without a local video track, nothing changes; otherwise the first video track flips and `isVideoOn` equals its new value |
| CallModel.ToggleVideoTwice | src/components/VideoCallScreen.tsx:477-485 | pressing the video button twice restores the stream, and `isVideoOn` is again the first video track's flag |
| CallModel.ToggleSpeaker | src/components/VideoCallScreen.tsx:471-475 | the speaker flag flips and the audio route is set to the new value |
| CallModel.RequestUnmute | src/components/VideoCallScreen.tsx:440-451 | on an open socket `unmute_request` goes out and the request button hides; otherwise nothing happens |
| CallModel.HandleUnmuteRequest | src/components/VideoCallScreen.tsx:453-469 | the modal always hides; only on an open socket is `unmute_response` sent, and accepting then toggles the microphone |
| CallModel.AcceptUnmutes | src/components/VideoCallScreen.tsx:453-469 | accepting while muted unmutes and sends the response followed by `mute_status` false |
| CallModel.AcceptWhileUnmutedMutes | src/components/VideoCallScreen.tsx:453-469 | accepting while unmuted mutes: acceptance flips the microphone rather than forcing unmute |
| CallModel.DeclineKeepsMute | src/components/VideoCallScreen.tsx:453-469 | declining leaves the microphone and mute flag as they were |
| CallModel.PressRequestUnmute | src/components/VideoCallScreen.tsx:739-742 | the "Request Unmute" button only sets `showUnmuteRequest`; it sends nothing |
| CallModel.StartRecording | src/components/VideoCallScreen.tsx:214-242 | afterwards the recording flag is set exactly when it was set or the recorder started; the log gains the start, or the error alert, or nothing when recording is skipped |
| CallModel.InboundGuards | src/components/VideoCallScreen.tsx:549-617 | `offer`, `answer` and `candidate` without a peer connection change nothing; a candidate without payload changes nothing; an applied candidate is only recorded; `end_call` ends the call as remote; an unparsable or unknown message changes nothing |
| CallModel.SignalingErrorEnds | src/components/VideoCallScreen.tsx:613-616 | a signaling step that throws ends the call locally |
| CallModel.InboundUnmute | src/components/VideoCallScreen.tsx:591-600 | `mute_status` sets the remote flag and hides the request button, and nothing else; `unmute_request` opens the modal only when muted, and touches nothing else |
| CallModel.OnTrackSpec | src/components/VideoCallScreen.tsx:681-696 | an event without streams changes nothing; otherwise the remote stream is kept, the call is connected and started, the timer runs afterwards if it ran or the call start was unset, and the end flag, socket and controls are unchanged |
| CallModel.OnIceCandidate | src/components/VideoCallScreen.tsx:669-679 | a present candidate is sent to the other user when the socket is open; nothing else changes |
| CallModel.EveryEndReleases | src/components/VideoCallScreen.tsx:619-630 | socket close, socket error, unmount and the end button each leave the call ended, and released when it had not ended before |
| CallModel.SwitchThenToggleAsWritten | src/components/VideoCallScreen.tsx:515-517 | with the swap as written, switching camera and then pressing the video button turns `isVideoOn` off while the new camera track stays live and enabled |
| CallModel.SwitchThenToggleExample | src/components/VideoCallScreen.tsx:515-517 | the same on concrete tracks 1, 2 and 3 |
| CallModel.SwitchWhileVideoOffAsWritten | src/components/VideoCallScreen.tsx:509-517 | with the swap as written, switching camera while video is off leaves a live, enabled camera track in the stream while `isVideoOn` stays false, so the other side sees video again |
| CallModel.SwitchCameraShowsVideo | src/components/VideoCallScreen.tsx:487-520 | with the corrected swap, a switch leaves one live video track that follows `isVideoOn`, a later video press keeps this, and the audio is untouched |
| CallModel.ToggleVideoKeepsShown | src/components/VideoCallScreen.tsx:477-485 | the video button keeps the shown video consistent with `isVideoOn` |
| CallModel.SwitchCameraGuards | src/components/VideoCallScreen.tsx:487-491 | without a local stream the switch returns at once; a failed capture only flips the facing flag |
| CallCounts.CleanupCounts | src/components/VideoCallScreen.tsx:314-344 | cleanup sends no message, and its only counted effect is one peer-connection close when there is one |
| CallCounts.EndCallCounts | src/components/VideoCallScreen.tsx:372-412 | past its guard, `endCall` adds one navigation back, one socket close when there is a socket, one `end_call` exactly for a local end on an open socket, and one peer-connection close when there is one |
| CallCounts.EndCallMessages | src/components/VideoCallScreen.tsx:379-392 | the only message `endCall` sends is `end_call` from the local user to the other with the local role |
| CallCounts.CalleeSendsNoOffer | src/components/VideoCallScreen.tsx:535-546 | when every message belongs to the call, a callee's log holds no offer and a caller's holds no `call_accepted` |
| CallTrace.InitialInv | src/components/VideoCallScreen.tsx:82-108 | the freshly mounted screen satisfies the invariant |
| CallTrace.EndCallKeepsInv | src/components/VideoCallScreen.tsx:372-412 | `endCall` keeps the invariant |
| CallTrace.MuteKeepsInv | src/components/VideoCallScreen.tsx:415-436 | the mute button keeps the invariant, in particular the microphone enabled exactly when not muted |
| CallTrace.VideoKeepsInv | src/components/VideoCallScreen.tsx:477-485 | the video button keeps the invariant |
| CallTrace.SpeakerKeepsInv | src/components/VideoCallScreen.tsx:471-475 | the speaker button keeps the invariant |
| CallTrace.CameraKeepsInv | src/components/VideoCallScreen.tsx:487-520 | the corrected camera switch keeps the invariant |
| CallTrace.RequestUnmuteKeepsInv | src/components/VideoCallScreen.tsx:735-749 | the request button keeps the invariant |
| CallTrace.UnmuteAnsweredKeepsInv | src/components/VideoCallScreen.tsx:453-469 | answering the unmute modal keeps the invariant |
| CallTrace.IceKeepsInv | src/components/VideoCallScreen.tsx:669-679 | a local candidate keeps the invariant |
| CallTrace.TrackKeepsInv | src/components/VideoCallScreen.tsx:681-696 | a remote track keeps the invariant |
| CallTrace.ErrorKeepsInv | src/components/VideoCallScreen.tsx:619-623 | a socket error keeps the invariant, also when it arrives after the call has ended |
| CallTrace.CloseKeepsInv | src/components/VideoCallScreen.tsx:625-630 | a socket close keeps the invariant |
| CallTrace.EndPressedKeepsInv | src/components/VideoCallScreen.tsx:844 | the end button keeps the invariant |
| CallTrace.UnmountKeepsInv | src/components/VideoCallScreen.tsx:723-731 | unmounting keeps the invariant |
| CallTrace.SetupMediaKeepsInv | src/components/VideoCallScreen.tsx:633-721 | media setup on a just-opened socket keeps the invariant, whatever the outcome |
| CallTrace.OpenKeepsInv | src/components/VideoCallScreen.tsx:525-547 | the socket opening keeps the invariant |
| CallTrace.MessageKeepsInv | src/components/VideoCallScreen.tsx:549-617 | every inbound message keeps the invariant |
| CallTrace.StepKeepsCore | src/components/VideoCallScreen.tsx:522-721 | every event the platform can deliver keeps lifecycle, audio and tally, and keeps the video half too when it held before |
| CallTrace.StepKeepsInv | src/components/VideoCallScreen.tsx:522-721 | every event the platform can deliver keeps the whole invariant, with the corrected camera swap |
| CallTrace.RunKeepsInv | src/components/VideoCallScreen.tsx:522-721 | every deliverable sequence of events keeps the whole invariant, with the corrected camera swap |
| CallTrace.CameraAsWrittenKeepsCore | src/components/VideoCallScreen.tsx:487-520 | the camera swap as written keeps lifecycle, audio and tally: it logs what the corrected swap logs |
| CallTrace.StepAsWrittenKeepsCore | src/components/VideoCallScreen.tsx:522-721 | every event delivered to the program as written keeps lifecycle, audio and tally |
| CallTrace.RunAsWrittenKeepsCore | src/components/VideoCallScreen.tsx:522-721 | every deliverable run of the program as written keeps lifecycle, audio and tally |
| CallTrace.TeardownAtMostOnce | src/components/VideoCallScreen.tsx:372-374 | over any run of the program as written from mount: one navigation back and one socket close at most, each exactly when the call has ended; one `end_call`, one timer start, one peer connection and one offer at most; no offer from the callee; an ended call holds nothing and has closed every peer connection it created; every message comes from the local user to the other |
| CallTrace.EndedStepReleasesNothing | src/components/VideoCallScreen.tsx:129-134 | once the call has ended, every deliverable event only appends to the log, stops no track, closes no peer connection, and the call stays ended; this covers the second `cleanupResources` on unmount |
| CallTrace.EndedRunReleasesNothing | src/components/VideoCallScreen.tsx:129-134 | the same over any deliverable run of the program as written from an ended call: cleanup does its work once |
| CallTrace.EndCallAddsNone | src/components/VideoCallScreen.tsx:372-412 | `endCall` never sends an offer or starts the recorder or the timer |
| CallTrace.OfferRule | src/components/VideoCallScreen.tsx:705-715 | `setupMedia` sends one offer exactly when capture succeeded, the offer was created, the side is the caller, not yet connected, and the socket is open; otherwise none |
| CallTrace.RecordingTrigger | src/components/VideoCallScreen.tsx:571 | an inbound message starts the recorder exactly when the caller applies an offer or the callee applies an answer and the recorder starts (line 581 for the callee) |
| CallTrace.AnswerOfferRecording | src/components/VideoCallScreen.tsx:555-572 | applying an offer starts the recorder only on the caller's side |
| CallTrace.AcceptAnswerRecording | src/components/VideoCallScreen.tsx:574-582 | applying an answer starts the recorder only on the callee's side |
| CallTrace.TimerRule | src/components/VideoCallScreen.tsx:689-691 | a remote track starts the duration timer exactly when the call start is still unset |
| VideoCall.CallScreen.StopTracks | src/components/VideoCallScreen.tsx:329 | the loop appends the stop of every track, in order, and changes nothing else |
| VideoCall.CallScreen.CleanupResources | src/components/VideoCallScreen.tsx:314-344 | the object ends in the state `CallModel.CleanupResources` gives |
| VideoCall.CallScreen.StopTimer | src/components/VideoCallScreen.tsx:364-369 | the interval is cleared if it runs; nothing else changes |
| VideoCall.CallScreen.EndCall | src/components/VideoCallScreen.tsx:372-412 | the object ends in the state `CallModel.EndCall` gives |
| VideoCall.CallScreen.ToggleMute | src/components/VideoCallScreen.tsx:415-436 | as `CallModel.ToggleMute` |
| VideoCall.CallScreen.ToggleVideo | src/components/VideoCallScreen.tsx:477-485 | as `CallModel.ToggleVideo` |
| VideoCall.CallScreen.ToggleSpeaker | src/components/VideoCallScreen.tsx:471-475 | as `CallModel.ToggleSpeaker` |
| VideoCall.CallScreen.RequestUnmute | src/components/VideoCallScreen.tsx:440-451 | as `CallModel.RequestUnmute` |
| VideoCall.CallScreen.HandleUnmuteRequest | src/components/VideoCallScreen.tsx:453-469 | as `CallModel.HandleUnmuteRequest` |
| VideoCall.CallScreen.StartRecording | src/components/VideoCallScreen.tsx:214-242 | as `CallModel.StartRecording` |
| VideoCall.CallScreen.OnMessage | src/components/VideoCallScreen.tsx:549-617 | as `CallModel.OnMessage` |
| VideoCall.CallScreen.SetupMedia | src/components/VideoCallScreen.tsx:633-721 | as `CallModel.SetupMedia` |
| VideoCall.CallScreen.OnOpen | src/components/VideoCallScreen.tsx:525-547 | as `CallModel.OnOpen` |
| VideoCall.CallScreen.OnError | src/components/VideoCallScreen.tsx:619-623 | as `CallModel.OnError` |
| VideoCall.CallScreen.OnClose | src/components/VideoCallScreen.tsx:625-630 | as `CallModel.OnClose` |
| VideoCall.CallScreen.OnTrack | src/components/VideoCallScreen.tsx:681-696 | as `CallModel.OnTrack` |
| VideoCall.CallScreen.OnIceCandidate | src/components/VideoCallScreen.tsx:669-679 | as `CallModel.OnIceCandidate` |
| VideoCall.CallScreen.SwitchCamera | src/components/VideoCallScreen.tsx:487-520 | as the corrected `CallModel.SwitchCamera`; the old video tracks are stopped in a loop |
| VideoCall.CallScreen.Unmount | src/components/VideoCallScreen.tsx:723-731 | as `CallModel.Unmount` |
| VideoCall.CallScreen.Handle | src/components/VideoCallScreen.tsx:522-721 | a delivered event moves the object as `CallTrace.Step` does and keeps the invariant |
| HomeModel.OppositeRole | src/screens/HomeScreen.tsx:28 | the list shows the other role |
| HomeModel.ShownName | src/screens/HomeScreen.tsx:97 | `callerName \|\| 'Unknown'`: the given name when it is a non-empty string, `Unknown` otherwise |
| HomeModel.UsersFailed | src/screens/HomeScreen.tsx:33-35 | a failed user fetch alerts and changes nothing else |
| HomeModel.OnMessageSpec | src/screens/HomeScreen.tsx:93-106 | `incoming_call` records the sender and name, and the modal shows exactly when the sender is truthy; `call_rejected` alerts and hides it; anything else, including an unparsable message, changes nothing |
| HomeModel.AcceptCall | src/screens/HomeScreen.tsx:58-68 | without an incoming call nothing happens; otherwise one navigation to the call screen, and the modal hides |
| HomeModel.AcceptOnce | src/screens/HomeScreen.tsx:58-68 | accepting twice navigates once |
| HomeModel.AcceptRouteSpec | src/screens/HomeScreen.tsx:60-66 | the accepted call is joined as callee with the sender as the other user, the caller's name, the own id as a string, and role DOCTOR |
| HomeModel.RejectCall | src/screens/HomeScreen.tsx:70-77 | a CONNECTING socket makes `send` throw and nothing changes; otherwise the modal hides |
| HomeModel.RejectSpec | src/screens/HomeScreen.tsx:70-77 | on an open socket `call_rejected` goes out from the own id to the incoming caller, and the modal hides |
| HomeModel.RejectThenAccept | src/screens/HomeScreen.tsx:58-77 | after a rejection, accepting does nothing |
| HomeModel.HandleCallSpec | src/screens/HomeScreen.tsx:38-56 | the call screen opens, as caller with the receiver's id as a string, exactly when the POST went through; an alert exactly when it did not; the incoming call is untouched |
| HomeModel.OnOpen | src/screens/HomeScreen.tsx:85-91 | `join` with the own id as a string and the role goes out, and the socket is open |
| HomeModel.OnClose | src/screens/HomeScreen.tsx:83 | a socket closing only changes its ready state |
| HomeModel.Unmount | src/screens/HomeScreen.tsx:108-110 | unmounting closes the socket |
| HomeModel.HomeStepKeepsInv | src/screens/HomeScreen.tsx:58-110 | every deliverable event keeps the home screen's invariant |
| HomeModel.HomeRunKeepsInv | src/screens/HomeScreen.tsx:146-167 | over any run: the modal shows only after the socket opened, so Reject never throws; a started call always has a patient calling; an accepted call is always joined as callee with a named caller; every rejection is addressed to a caller |
| Home.HomeScreen.constructor | src/screens/HomeScreen.tsx:20-83 | the mounted screen: no incoming call, users of the opposite role requested, socket connecting |
| Home.HomeScreen.UsersFailed | src/screens/HomeScreen.tsx:33-35 | as `HomeModel.UsersFailed` |
| Home.HomeScreen.OnMessage | src/screens/HomeScreen.tsx:93-106 | as `HomeModel.OnMessage` |
| Home.HomeScreen.AcceptCall | src/screens/HomeScreen.tsx:58-68 | as `HomeModel.AcceptCall` |
| Home.HomeScreen.RejectCall | src/screens/HomeScreen.tsx:70-77 | as `HomeModel.RejectCall` |
| Home.HomeScreen.HandleCall | src/screens/HomeScreen.tsx:38-56 | as `HomeModel.HandleCall` |
| Home.HomeScreen.OnOpen | src/screens/HomeScreen.tsx:85-91 | as `HomeModel.OnOpen` |
| Home.HomeScreen.OnClose | src/screens/HomeScreen.tsx:83 | as `HomeModel.OnClose` |
| Home.HomeScreen.Unmount | src/screens/HomeScreen.tsx:108-110 | as `HomeModel.Unmount` |
| Home.HomeScreen.Handle | src/screens/HomeScreen.tsx:58-110 | a delivered event moves the object as `HomeModel.HomeStep` does and keeps the invariant |

The call screen's invariant (`CallTrace.Inv`) has four parts:

- `Lifecycle`: the socket ref is null exactly when the call has ended, and
  an ended call holds nothing.
- `AudioOk`: the local stream has one live audio track, following the mute
  button.
- `VideoOk`: the local stream has one live video track, following the video
  button.
- `Tally`: counts over the effect log, such as one navigation back exactly
  when ended.

All but `VideoOk` make up `CallTrace.CoreInv`. The program as written keeps
`CoreInv` (`CallTrace.RunAsWritten`), and `TeardownAtMostOnce` is stated over
those runs. Its camera swap breaks `VideoOk` (see Findings), so the whole
invariant is proved for runs with the corrected swap (`CallTrace.Run`).

## Left out

- Each handler is one atomic step. Interleaving at `await` points is not
  modelled. In particular, `endCall` finishes its cleanup before `end_call`
  is sent.
- React stale closures are not modelled. `onmessage` and the unmount
  clean-ups are installed on the first render, so they see the first
  render's `isMuted`, `isRecording`, `localStream` and `remoteStream`. The
  model reads fields at call time instead.
- `JSON.parse` in the call screen's `onmessage` runs outside its `try`. A
  malformed message therefore rejects the handler's promise and changes
  nothing. That is how `Unparsable` is modelled.
- The socket's `error` event is followed by its closing, and the socket is
  treated as CLOSED when `onerror` runs. CLOSING and CLOSED are one state.
  An `error` may also arrive after the end. Then it only raises the alert.
- CallModel.EndCall: after a remote end, the "Call Ended" alert and the
  navigation back are logged in the same step. The source goes back only
  when the user presses the alert's OK. The model folds that press into the
  end. So `Tally`'s "one navigation back exactly when ended" and the same
  clause of `CallTrace.TeardownAtMostOnce` assume the OK is pressed.
- CallTrace.StepKeepsInv, CallTrace.RunKeepsInv and
  VideoCall.CallScreen.Handle run the corrected camera swap. For the swap as
  written, only the core invariant without `VideoOk` is proved
  (`CallTrace.StepAsWrittenKeepsCore`, `CallTrace.RunAsWrittenKeepsCore`).
- VideoCall.CallScreen.SwitchCamera models the corrected swap. The swap as
  written exists only as the value function `CallModel.SwitchCameraAsWritten`.
- Unmounting runs both mount effects' clean-ups: first `cleanupResources`,
  then `endCall` unless the call has ended. The order of the two is assumed.
- `requestUnmute` is not reachable from the rendered screen. The
  "Request Unmute" button only sets `showUnmuteRequest`, which nothing reads.
  The function is modelled as written, and the button as `PressRequestUnmute`.
- The addressee fields of inbound messages are not checked by the source.
  The model does not check them either, so they are not part of `Inbound`.
- A second `offer` or `answer` is applied again by the source. The model
  does the same; SDP state is opaque.
- `switchCamera` asks `getUserMedia` for audio too. The new audio track is
  never added or stopped, so the model leaves it out.
- `ws.current?.send` on a CONNECTING socket throws. The call screen only
  sends from `onopen` onwards, so the model writes sends as "only when
  open". The home screen's `rejectCall` does model the throw.
- Events after unmount are not blocked by the source. The model delivers
  them like any other event.
- I/O becomes outcome parameters or effects in the log. This covers the
  recorder, RNFS file checks, the base64 upload to `/api/calls/save`,
  `fetch`, `moment` durations, `InCallManager`, the Android permission
  prompts, `Linking.openSettings` and `console` logging.
- The offer, answer and candidate payloads (SDP and ICE) are opaque.
- The user list, its rendering, the logout button, styles and the call
  duration text are presentation and are left out.
- `isErrorWithMessage` and `getErrorMessage` only format console output and
  are left out.
- `VideoCall.CallScreen.Handle` and `Home.HomeScreen.Handle` take the
  invariant as a precondition. The invariant holds from the constructor's
  state (`CallTrace.InitialInv`, and `HomeModel.HomeRunKeepsInv` for the
  empty run).

## Findings

| source | as written | input that shows it | evidently intended | confidence | as-written member | corrected member |
|---|---|---|---|---|---|---|
| src/components/VideoCallScreen.tsx:515-517 | `switchCamera` stops the old video tracks but leaves them in `localStream`, then appends the new track; `toggleVideo` flips `getVideoTracks()[0]`, which is now the stopped old track | a stream with video track 2 shown, switch to camera track 3, press the video button: `isVideoOn` becomes false while track 3 stays live and enabled, so the other side keeps seeing video | the new track replaces the old ones in the local stream and follows `isVideoOn` | medium, not executed | CallModel.SwitchThenToggleAsWritten | CallModel.SwitchCameraShowsVideo |
