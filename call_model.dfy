/**
 * The call-session state machine of the video-call screen, as values: one
 * snapshot `Call` of the screen's refs and state, and one function per
 * handler giving the snapshot after the handler has run to completion.
 *
 * Every outbound effect (a message sent, the peer connection closed, a track
 * stopped, an alert, the navigation back) is appended to `log`. Calls into
 * WebRTC, the recorder, the file system and HTTP are not modelled; where their
 * success decides what the handler does, the outcome is a parameter.
 */
module CallModel {

  import opened Wrappers
  import opened Signaling

  /** The route parameters the screen is opened with. */
  datatype Params = Params(currentUserId: string, otherUserId: string, isCaller: bool, callerRole: Role)

  /** A media track: `enabled` is the mute flag, `live` is false once `stop()` was called. */
  datatype Track = Track(id: nat, enabled: bool, live: bool)

  /** A media stream: `getAudioTracks()` and `getVideoTracks()`. */
  datatype Stream = Stream(audio: seq<Track>, video: seq<Track>)

  /** `getTracks()`: the audio tracks, then the video tracks. */
  function Tracks(st: Stream): seq<Track> {
    st.audio + st.video
  }

  /** The status line: 'Calling...', 'Connecting...' or 'Connected'. */
  datatype Status = CallingText | ConnectingText | ConnectedText

  datatype Alert =
    | CallEndedBy(role: Role)
    | ConnectionError
    | MediaError
    | PermissionsRequired
    | RecordingError
    | UnmuteAccepted
    | UnmuteDenied

  datatype Effect =
    | Sent(msg: Msg)
    | PcCreated
    | PcClosed
    | RemoteOfferApplied
    | RemoteAnswerApplied
    | CandidateAdded
    | VideoSenderReplaced(trackId: nat)
    | TrackStopped(trackId: nat)
    | SocketClosed
    | Alerted(alert: Alert)
    | NavigatedBack
    | RecordingStarted
    | RecordingStopped
    | RecordingUploaded
    | TimerStarted
    | TimerStopped
    | AudioRouteStarted
    | AudioRouteStopped
    | SpeakerSet(on: bool)

  /** The WebRTC objects: the `pc` ref (present or not) and the two stream states. */
  datatype Media = Media(pcPresent: bool, localStream: Option<Stream>, remoteStream: Option<Stream>)

  /**
   * How far the call has come: the status line, `callConnected`, the
   * `callStartRef` (set or not), the `durationInterval` (running or not) and
   * `isRecording`.
   */
  datatype Progress = Progress(status: Status, callConnected: bool, callStarted: bool, timerRunning: bool, isRecording: bool)

  /** The local control flags. */
  datatype Controls = Controls(isMuted: bool, isVideoOn: bool, isFrontCamera: bool, isSpeakerOn: bool)

  /** The remote-mute indicator and the two halves of the unmute handshake. */
  datatype UnmuteView = UnmuteView(isRemoteMuted: bool, showUnmuteRequest: bool, showUnmuteModal: bool)

  /** The screen's state: the `hasEndedCall` and `ws` refs, the groups above, and the effects so far. */
  datatype Call = Call(
    hasEnded: bool,
    ws: Sock,
    media: Media,
    progress: Progress,
    controls: Controls,
    unmute: UnmuteView,
    log: seq<Effect>)

  /** Outcome of `startRecording`: started, returned early for lack of permission, or failed with an alert. */
  datatype RecordingStart = RecStarted | RecSkipped | RecFailed

  /**
   * Outcomes of the recorder calls a handler may make: how `startRecording`
   * ends, and whether `stopRecording` returns a saved file to upload.
   */
  datatype Env = Env(recording: RecordingStart, saved: bool)

  /** Outcome of `setupMedia`'s permission request, `getUserMedia` and `createOffer`. */
  datatype MediaOutcome =
    | PermissionDenied
    | CaptureFailed
    | Captured(audioId: nat, videoId: nat, offerCreated: bool)

  /** Outcome of `switchCamera`'s `getUserMedia`: the new video track, or a failure. */
  datatype CameraOutcome = CameraFailed | CameraCaptured(videoId: nat)

  /**
   * An inbound message after `JSON.parse`; `applied` says whether the
   * WebRTC calls the case makes all succeed.
   */
  datatype Inbound =
    | Unparsable
    | OfferIn(applied: bool)
    | AnswerIn(applied: bool)
    | CandidateIn(present: bool, applied: bool)
    | MuteStatusIn(muted: bool)
    | UnmuteRequestIn
    | UnmuteResponseIn(accepted: bool)
    | EndCallIn
    | OtherIn

  /** No peer connection and no stream. */
  const NoMedia := Media(false, None, None)

  /** The state right after mounting: initial state values, and `setupWebSocket` has created the socket. */
  function Initial(p: Params): Call {
    Call(false, Sock(Connecting), NoMedia,
         Progress(if p.isCaller then CallingText else ConnectingText, false, false, false, false),
         Controls(false, true, true, true), UnmuteView(false, false, false), [])
  }

  /** The `end_call` message this screen sends. */
  function EndCallMessage(p: Params): Msg {
    Msg.EndCall(p.currentUserId, p.otherUserId, p.callerRole)
  }

  /**
   * A send on `ws.current`: it goes out only on an open socket. The guarded
   * sends test OPEN themselves; the `ws.current?.send` ones run only once the
   * socket has opened.
   */
  function Out(ws: Sock, m: Msg): seq<Effect> {
    if IsOpen(ws) then [Sent(m)] else []
  }

  /** `track.stop()` on each track, in order. */
  function StopEffects(ts: seq<Track>): (d: seq<Effect>)
    ensures |d| == |ts|
    ensures forall i | 0 <= i < |ts| :: d[i] == TrackStopped(ts[i].id)
    ensures forall e | e in d :: e.TrackStopped?
    ensures forall x | x in ts :: TrackStopped(x.id) in d
  {
    if ts == [] then [] else [TrackStopped(ts[0].id)] + StopEffects(ts[1..])
  }

  /** The tracks after `stop()`: the same tracks, no longer live. */
  function Stopped(ts: seq<Track>): (r: seq<Track>)
    ensures |r| == |ts|
    ensures forall i | 0 <= i < |ts| :: r[i] == ts[i].(live := false)
  {
    seq(|ts|, i requires 0 <= i < |ts| => ts[i].(live := false))
  }

  /** `stopRecording` followed, when it returns a file, by `uploadAudioRecording`; nothing when not recording. */
  function RecordingStops(isRecording: bool, saved: bool): (d: seq<Effect>)
    ensures forall e | e in d :: e.RecordingStopped? || e.RecordingUploaded?
  {
    if isRecording then [RecordingStopped] + (if saved then [RecordingUploaded] else []) else []
  }

  /** `pc.current.close()` when there is a peer connection. */
  function PcCloses(pcPresent: bool): (d: seq<Effect>)
    ensures forall e | e in d :: e == PcClosed
  {
    if pcPresent then [PcClosed] else []
  }

  /** `track.stop()` on every track of the stream, if there is one. */
  function StreamStops(o: Option<Stream>): (d: seq<Effect>)
    ensures forall e | e in d :: e.TrackStopped?
    ensures o.Some? ==> forall x | x in Tracks(o.value) :: TrackStopped(x.id) in d
  {
    if o.Some? then StopEffects(Tracks(o.value)) else []
  }

  /** `stopDurationTimer`: clear the interval when it is running. */
  function TimerStops(timerRunning: bool): (d: seq<Effect>)
    ensures forall e | e in d :: e == TimerStopped
  {
    if timerRunning then [TimerStopped] else []
  }

  /**
   * What `cleanupResources` does, in order: stop and upload the recording if
   * one is running, close the peer connection, stop every local and then
   * every remote track, stop the audio route, turn the speaker off and stop
   * the duration timer.
   */
  function CleanupEffects(s: Call, saved: bool): seq<Effect> {
    RecordingStops(s.progress.isRecording, saved) + PcCloses(s.media.pcPresent)
    + StreamStops(s.media.localStream) + StreamStops(s.media.remoteStream)
    + [AudioRouteStopped, SpeakerSet(false)] + TimerStops(s.progress.timerRunning)
  }

  /** Cleanup stops every track of both streams. */
  lemma CleanupStopsAllTracks(s: Call, saved: bool, x: Track)
    requires || (s.media.localStream.Some? && x in Tracks(s.media.localStream.value))
             || (s.media.remoteStream.Some? && x in Tracks(s.media.remoteStream.value))
    ensures TrackStopped(x.id) in CleanupEffects(s, saved)
  {
    var d1, d2 := RecordingStops(s.progress.isRecording, saved), PcCloses(s.media.pcPresent);
    var d3, d4 := StreamStops(s.media.localStream), StreamStops(s.media.remoteStream);
    var d5 := [AudioRouteStopped, SpeakerSet(false)] + TimerStops(s.progress.timerRunning);
    assert CleanupEffects(s, saved) == d1 + d2 + d3 + d4 + d5;
  }

  /** The peer connection, streams, recording and timer are all released. */
  predicate Released(s: Call) {
    s.media == NoMedia && !s.progress.isRecording && !s.progress.timerRunning
  }

  /** `cleanupResources`: afterwards nothing is held, and no other part of the state has changed. */
  function CleanupResources(s: Call, saved: bool): (t: Call)
    ensures Released(t)
    ensures t.hasEnded == s.hasEnded && t.ws == s.ws && t.controls == s.controls && t.unmute == s.unmute
  {
    s.(media := NoMedia, progress := s.progress.(isRecording := false, timerRunning := false),
       log := s.log + CleanupEffects(s, saved))
  }

  /** What `endCall` shows and does last: a remote end alerts first, then goes back once the alert is dismissed. */
  function EndNotice(p: Params, remoteEnded: bool): seq<Effect> {
    if remoteEnded then [Alerted(CallEndedBy(p.callerRole)), NavigatedBack] else [NavigatedBack]
  }

  /**
   * What `endCall` does once it has passed its guard, in order: clean up;
   * send `end_call` if the end is local and the socket is open; close the
   * socket; go back.
   */
  function EndCallEffects(p: Params, s: Call, remoteEnded: bool, saved: bool): seq<Effect> {
    CleanupEffects(s, saved)
    + (if remoteEnded then [] else Out(s.ws, EndCallMessage(p)))
    + (if s.ws.Sock? then [SocketClosed] else [])
    + EndNotice(p, remoteEnded)
  }

  /**
   * `endCall(remoteEnded)`: the first call tests and sets `hasEndedCall`,
   * releases everything and drops the socket; any later call does nothing.
   */
  function EndCall(p: Params, s: Call, remoteEnded: bool, saved: bool): (t: Call)
    ensures s.hasEnded ==> t == s
    ensures !s.hasEnded ==> t.hasEnded && t.ws == NoSocket && Released(t)
    ensures t.controls == s.controls && t.unmute == s.unmute
  {
    if s.hasEnded then s
    else s.(hasEnded := true, ws := NoSocket, media := NoMedia,
            progress := s.progress.(isRecording := false, timerRunning := false),
            log := s.log + EndCallEffects(p, s, remoteEnded, saved))
  }

  /** Teardown happens at most once: a second `endCall`, from any source, changes nothing. */
  lemma EndCallOnce(p: Params, s: Call, r1: bool, r2: bool, saved1: bool, saved2: bool)
    ensures EndCall(p, EndCall(p, s, r1, saved1), r2, saved2) == EndCall(p, s, r1, saved1)
  {
  }

  /**
   * `endCall` finishes by going back; when the other side ended the call the
   * "call ended" alert, naming the local route's role, comes right before.
   */
  lemma EndCallNotice(p: Params, s: Call, remoteEnded: bool, saved: bool)
    requires !s.hasEnded
    ensures var t := EndCall(p, s, remoteEnded, saved);
      && |t.log| >= |s.log| + 1 && t.log[|t.log| - 1] == NavigatedBack
      && (remoteEnded ==> t.log[|t.log| - 2] == Alerted(CallEndedBy(p.callerRole)))
  {
    var t := EndCall(p, s, remoteEnded, saved);
    var n := EndNotice(p, remoteEnded);
    assert t.log == (s.log + CleanupEffects(s, saved) + (if remoteEnded then [] else Out(s.ws, EndCallMessage(p)))
                     + (if s.ws.Sock? then [SocketClosed] else [])) + n;
  }

  /** The screen has a local stream with an audio track. */
  predicate HasAudio(s: Call) {
    s.media.localStream.Some? && |s.media.localStream.value.audio| > 0
  }

  /** The screen has a local stream with a video track. */
  predicate HasVideo(s: Call) {
    s.media.localStream.Some? && |s.media.localStream.value.video| > 0
  }

  /** The track with its `enabled` flag flipped. */
  function Flipped(x: Track): Track {
    x.(enabled := !x.enabled)
  }

  /** The stream with its first audio track flipped. */
  function AudioFlipped(st: Stream): Stream
    requires |st.audio| > 0
  {
    st.(audio := st.audio[0 := Flipped(st.audio[0])])
  }

  /** The stream with its first video track flipped. */
  function VideoFlipped(st: Stream): Stream
    requires |st.video| > 0
  {
    st.(video := st.video[0 := Flipped(st.video[0])])
  }

  /**
   * `toggleMute`: flip the first local audio track and set `isMuted` to the
   * opposite of its new flag; tell the other side when the socket is open.
   */
  function ToggleMute(p: Params, s: Call): Call {
    if !HasAudio(s) then s
    else
      var st := AudioFlipped(s.media.localStream.value);
      s.(media := s.media.(localStream := Some(st)), controls := s.controls.(isMuted := !st.audio[0].enabled),
         log := s.log + Out(s.ws, MuteStatus(p.currentUserId, p.otherUserId, !st.audio[0].enabled)))
  }

  /**
   * With no local stream or no audio track `toggleMute` does nothing.
   * Otherwise it flips the first audio track and nothing else of the stream,
   * `isMuted` becomes the opposite of the new flag, and `mute_status` with the
   * new value goes out exactly when the socket is open.
   */
  lemma ToggleMuteSpec(p: Params, s: Call)
    ensures !HasAudio(s) ==> ToggleMute(p, s) == s
    ensures HasAudio(s) ==>
      var t, st := ToggleMute(p, s), s.media.localStream.value;
      && t.media.localStream.Some?
      && t.media.localStream.value.video == st.video
      && |t.media.localStream.value.audio| == |st.audio|
      && t.media.localStream.value.audio[1..] == st.audio[1..]
      && t.media.localStream.value.audio[0].enabled == !st.audio[0].enabled
      && t.controls.isMuted == st.audio[0].enabled
      && t.controls.(isMuted := s.controls.isMuted) == s.controls
      && t.hasEnded == s.hasEnded && t.ws == s.ws && t.progress == s.progress && t.unmute == s.unmute
      && t.log == s.log + Out(s.ws, MuteStatus(p.currentUserId, p.otherUserId, t.controls.isMuted))
  {
  }

  /** Toggling mute twice restores the stream; `isMuted` is then again the opposite of the first audio flag. */
  lemma {:induction false} ToggleMuteTwice(p: Params, s: Call)
    requires HasAudio(s)
    ensures var t := ToggleMute(p, ToggleMute(p, s));
      && t.media == s.media
      && t.controls.isMuted == !s.media.localStream.value.audio[0].enabled
  {
    var st := s.media.localStream.value;
    assert AudioFlipped(AudioFlipped(st)) == st by {
      assert AudioFlipped(AudioFlipped(st)).audio == st.audio;
    }
  }

  /** `toggleVideo`: flip the first local video track; `isVideoOn` takes its new flag. */
  function ToggleVideo(s: Call): Call {
    if !HasVideo(s) then s
    else
      var st := VideoFlipped(s.media.localStream.value);
      s.(media := s.media.(localStream := Some(st)), controls := s.controls.(isVideoOn := st.video[0].enabled))
  }

  /**
   * With no local stream or no video track `toggleVideo` does nothing.
   * Otherwise it flips the first video track and nothing else, and
   * `isVideoOn` equals the new flag.
   */
  lemma ToggleVideoSpec(s: Call)
    ensures !HasVideo(s) ==> ToggleVideo(s) == s
    ensures HasVideo(s) ==>
      var t, st := ToggleVideo(s), s.media.localStream.value;
      && t.media.localStream.Some?
      && t.media.localStream.value.audio == st.audio
      && |t.media.localStream.value.video| == |st.video|
      && t.media.localStream.value.video[1..] == st.video[1..]
      && t.media.localStream.value.video[0].enabled == !st.video[0].enabled
      && t.controls.isVideoOn == t.media.localStream.value.video[0].enabled
      && t == s.(media := t.media, controls := s.controls.(isVideoOn := t.controls.isVideoOn))
  {
  }

  /** Toggling video twice restores the stream. */
  lemma {:induction false} ToggleVideoTwice(s: Call)
    requires HasVideo(s)
    ensures var t := ToggleVideo(ToggleVideo(s));
      && t.media == s.media
      && t.controls.isVideoOn == s.media.localStream.value.video[0].enabled
  {
    var st := s.media.localStream.value;
    assert VideoFlipped(VideoFlipped(st)) == st by {
      assert VideoFlipped(VideoFlipped(st)).video == st.video;
    }
  }

  /** `toggleSpeaker`: route audio to the other output and remember it. */
  function ToggleSpeaker(s: Call): (t: Call)
    ensures t.controls.isSpeakerOn != s.controls.isSpeakerOn
    ensures t.log == s.log + [SpeakerSet(t.controls.isSpeakerOn)]
  {
    s.(controls := s.controls.(isSpeakerOn := !s.controls.isSpeakerOn),
       log := s.log + [SpeakerSet(!s.controls.isSpeakerOn)])
  }

  /** `requestUnmute`: ask the other side to unmute and hide the request, only over an open socket. */
  function RequestUnmute(p: Params, s: Call): (t: Call)
    ensures !IsOpen(s.ws) ==> t == s
    ensures IsOpen(s.ws) ==>
      !t.unmute.showUnmuteRequest && t.log == s.log + [Sent(UnmuteRequest(p.currentUserId, p.otherUserId))]
  {
    if IsOpen(s.ws) then
      s.(unmute := s.unmute.(showUnmuteRequest := false),
         log := s.log + [Sent(UnmuteRequest(p.currentUserId, p.otherUserId))])
    else s
  }

  /**
   * `handleUnmuteRequest(accept)`: hide the consent modal; over an open socket
   * answer the request and, on accept, toggle the microphone.
   */
  function HandleUnmuteRequest(p: Params, s: Call, accept: bool): (t: Call)
    ensures !t.unmute.showUnmuteModal
    ensures !IsOpen(s.ws) ==> t == s.(unmute := s.unmute.(showUnmuteModal := false))
  {
    var s1 := s.(unmute := s.unmute.(showUnmuteModal := false),
                 log := s.log + Out(s.ws, UnmuteResponse(p.currentUserId, p.otherUserId, accept)));
    if IsOpen(s.ws) && accept then ToggleMute(p, s1) else s1
  }

  /** The screen's mute flag agrees with its first audio track. */
  predicate MuteShown(s: Call) {
    HasAudio(s) && s.controls.isMuted == !s.media.localStream.value.audio[0].enabled
  }

  /**
   * Accepting an unmute request while muted, over an open socket, answers
   * `unmute_response{accepted: true}` and then unmutes: the first audio track
   * is enabled again and `mute_status{isMuted: false}` follows.
   */
  lemma AcceptUnmutes(p: Params, s: Call)
    requires IsOpen(s.ws) && MuteShown(s) && s.controls.isMuted
    ensures var t := HandleUnmuteRequest(p, s, true);
      && !t.controls.isMuted && MuteShown(t)
      && t.log == s.log + [Sent(UnmuteResponse(p.currentUserId, p.otherUserId, true)),
                           Sent(MuteStatus(p.currentUserId, p.otherUserId, false))]
  {
  }

  /**
   * Accepting while NOT muted still toggles: the consent answer is a flip,
   * so the microphone ends up muted.
   */
  lemma AcceptWhileUnmutedMutes(p: Params, s: Call)
    requires IsOpen(s.ws) && MuteShown(s) && !s.controls.isMuted
    ensures HandleUnmuteRequest(p, s, true).controls.isMuted
  {
  }

  /** Declining answers `unmute_response{accepted: false}` over an open socket and leaves the microphone alone. */
  lemma DeclineKeepsMute(p: Params, s: Call)
    ensures var t := HandleUnmuteRequest(p, s, false);
      && t.media == s.media && t.controls == s.controls
      && t.log == s.log + Out(s.ws, UnmuteResponse(p.currentUserId, p.otherUserId, false))
  {
  }

  /** The "Request Unmute" button: it only raises `showUnmuteRequest`. */
  function PressRequestUnmute(s: Call): (t: Call)
    ensures t.unmute.showUnmuteRequest
    ensures t.log == s.log && t.media == s.media && t.controls == s.controls
  {
    s.(unmute := s.unmute.(showUnmuteRequest := true))
  }

  /** What `startRecording` logs, by its outcome. */
  function RecordingEffects(rec: RecordingStart): seq<Effect> {
    match rec
    case RecStarted => [RecordingStarted]
    case RecSkipped => []
    case RecFailed => [Alerted(RecordingError)]
  }

  /** `startRecording`: `isRecording` is set exactly when the recorder started. */
  function StartRecording(s: Call, rec: RecordingStart): (t: Call)
    ensures t.progress.isRecording <==> s.progress.isRecording || rec.RecStarted?
    ensures t.log == s.log + RecordingEffects(rec)
  {
    s.(progress := s.progress.(isRecording := s.progress.isRecording || rec.RecStarted?),
       log := s.log + RecordingEffects(rec))
  }

  /** The successful `offer` case: apply it, answer, show the call as connected; the caller starts recording. */
  function AnswerOffer(p: Params, s: Call, rec: RecordingStart): Call {
    var s1 := s.(progress := s.progress.(status := ConnectedText, callConnected := true),
                 log := s.log + [RemoteOfferApplied] + Out(s.ws, Answer(p.otherUserId)));
    if p.isCaller then StartRecording(s1, rec) else s1
  }

  /** The successful `answer` case: apply it, show the call as connected; the callee starts recording. */
  function AcceptAnswer(p: Params, s: Call, rec: RecordingStart): Call {
    var s1 := s.(progress := s.progress.(status := ConnectedText, callConnected := true),
                 log := s.log + [RemoteAnswerApplied]);
    if !p.isCaller then StartRecording(s1, rec) else s1
  }

  /**
   * `ws.onmessage`. A message that does not parse throws before the `try`
   * and changes nothing; a failing WebRTC call in a case ends the call
   * locally; `offer` and `answer` return early without a peer connection.
   */
  function OnMessage(p: Params, s: Call, m: Inbound, env: Env): Call {
    match m
    case Unparsable => s
    case OfferIn(applied) =>
      if !s.media.pcPresent then s
      else if !applied then EndCall(p, s, false, env.saved)
      else AnswerOffer(p, s, env.recording)
    case AnswerIn(applied) =>
      if !s.media.pcPresent then s
      else if !applied then EndCall(p, s, false, env.saved)
      else AcceptAnswer(p, s, env.recording)
    case CandidateIn(present, applied) =>
      if !(s.media.pcPresent && present) then s
      else if !applied then EndCall(p, s, false, env.saved)
      else s.(log := s.log + [CandidateAdded])
    case MuteStatusIn(muted) =>
      s.(unmute := s.unmute.(isRemoteMuted := muted, showUnmuteRequest := false))
    case UnmuteRequestIn =>
      if s.controls.isMuted then s.(unmute := s.unmute.(showUnmuteModal := true)) else s
    case UnmuteResponseIn(accepted) =>
      s.(log := s.log + [Alerted(if accepted then UnmuteAccepted else UnmuteDenied)])
    case EndCallIn => EndCall(p, s, true, env.saved)
    case OtherIn => s
  }

  /**
   * The inbound guards: without a peer connection `offer`, `answer` and
   * `candidate` change nothing, and so does a `candidate` without one; an
   * `end_call` ends the call as a remote end.
   */
  lemma InboundGuards(p: Params, s: Call, m: Inbound, env: Env)
    ensures (m.OfferIn? || m.AnswerIn? || m.CandidateIn?) && !s.media.pcPresent ==> OnMessage(p, s, m, env) == s
    ensures m.CandidateIn? && !m.present ==> OnMessage(p, s, m, env) == s
    ensures m.CandidateIn? && s.media.pcPresent && m.present ==>
      OnMessage(p, s, m, env) == if m.applied then s.(log := s.log + [CandidateAdded]) else EndCall(p, s, false, env.saved)
    ensures m.EndCallIn? ==> OnMessage(p, s, m, env) == EndCall(p, s, true, env.saved)
    ensures m.Unparsable? || m.OtherIn? ==> OnMessage(p, s, m, env) == s
  {
  }

  /** A failing `offer`, `answer` or `candidate` ends the call locally. */
  lemma SignalingErrorEnds(p: Params, s: Call, m: Inbound, env: Env)
    requires s.media.pcPresent && !s.hasEnded
    requires m.OfferIn? || m.AnswerIn? || (m.CandidateIn? && m.present)
    requires !m.applied
    ensures OnMessage(p, s, m, env) == EndCall(p, s, false, env.saved)
    ensures OnMessage(p, s, m, env).hasEnded
  {
  }

  /**
   * The unmute handshake on the receiving side: `mute_status` records the
   * remote flag and hides the request button; `unmute_request` opens the
   * consent modal exactly when locally muted, and touches nothing else.
   */
  lemma InboundUnmute(p: Params, s: Call, m: Inbound, env: Env)
    ensures m.MuteStatusIn? ==>
      OnMessage(p, s, m, env) == s.(unmute := s.unmute.(isRemoteMuted := m.muted, showUnmuteRequest := false))
    ensures m.UnmuteRequestIn? ==>
      var t := OnMessage(p, s, m, env);
      && (t.unmute.showUnmuteModal <==> s.unmute.showUnmuteModal || s.controls.isMuted)
      && t == s.(unmute := t.unmute) && t.unmute.(showUnmuteModal := s.unmute.showUnmuteModal) == s.unmute
  {
  }

  /** The duration timer: restart the interval and mark the call start. */
  function TimerEffects(timerRunning: bool): seq<Effect> {
    TimerStops(timerRunning) + [TimerStarted]
  }

  /**
   * The peer connection's `ontrack`: with a stream, show it and mark the call
   * connected, start the duration timer if the call start is not yet set,
   * and route audio to the speaker.
   */
  function OnTrack(s: Call, streams: Option<Stream>): Call {
    if streams.None? then s
    else
      var first := !s.progress.callStarted;
      s.(media := s.media.(remoteStream := streams),
         progress := s.progress.(status := ConnectedText, callConnected := true, callStarted := true,
                                 timerRunning := first || s.progress.timerRunning),
         log := s.log + (if first then TimerEffects(s.progress.timerRunning) else [])
                + [AudioRouteStarted, SpeakerSet(true)])
  }

  /**
   * `ontrack` with a stream shows it and marks the call connected and
   * started; the interval is running afterwards if it was, or if this is the
   * first remote track.
   */
  lemma OnTrackSpec(s: Call, streams: Option<Stream>)
    ensures streams.None? ==> OnTrack(s, streams) == s
    ensures streams.Some? ==>
      var t := OnTrack(s, streams);
      && t.progress.callStarted && t.progress.callConnected && t.progress.status == ConnectedText
      && t.media.remoteStream == streams
      && (t.progress.timerRunning <==> s.progress.timerRunning || !s.progress.callStarted)
      && t.hasEnded == s.hasEnded && t.ws == s.ws && t.controls == s.controls && t.unmute == s.unmute
  {
  }

  /** The peer connection's `onicecandidate`: forward a found candidate to the other side. */
  function OnIceCandidate(p: Params, s: Call, present: bool): (t: Call)
    ensures t.log == s.log + (if present then Out(s.ws, Candidate(p.otherUserId)) else [])
    ensures t.(log := s.log) == s
  {
    if present then s.(log := s.log + Out(s.ws, Candidate(p.otherUserId))) else s
  }

  /** The local stream `getUserMedia` yields: one live, enabled track of each kind. */
  function CapturedStream(audioId: nat, videoId: nat): Stream {
    Stream([Track(audioId, true, true)], [Track(videoId, true, true)])
  }

  /** The catch blocks of `setupMedia`: alert, then end the call locally. */
  function FailAndEnd(p: Params, s: Call, alert: Alert, saved: bool): Call {
    EndCall(p, s.(log := s.log + [Alerted(alert)]), false, saved)
  }

  /** Whether `setupMedia` creates and sends an offer: as caller, before the call is connected. */
  predicate MakesOffer(p: Params, s: Call) {
    p.isCaller && !s.progress.callConnected
  }

  /**
   * `setupMedia`: ask for permissions, capture camera and microphone, create
   * the peer connection if there is none, keep the stream, and as caller,
   * before the call is connected, create and send the offer. A refused
   * permission or any failure alerts and ends the call locally.
   */
  function SetupMedia(p: Params, s: Call, media: MediaOutcome, saved: bool): Call {
    match media
    case PermissionDenied => FailAndEnd(p, s, PermissionsRequired, saved)
    case CaptureFailed => FailAndEnd(p, s, MediaError, saved)
    case Captured(audioId, videoId, offerCreated) =>
      var s1 := s.(media := s.media.(pcPresent := true, localStream := Some(CapturedStream(audioId, videoId))),
                   log := s.log + (if s.media.pcPresent then [] else [PcCreated]));
      if !MakesOffer(p, s) then s1
      else if offerCreated then s1.(log := s1.log + Out(s.ws, Offer(p.otherUserId)))
      else FailAndEnd(p, s1, MediaError, saved)
  }

  /**
   * `ws.onopen`: the socket is open; `join` goes out, the callee also sends
   * `call_accepted`, and both then set up media.
   */
  function OnOpen(p: Params, s: Call, media: MediaOutcome, saved: bool): Call {
    var s1 := s.(ws := Sock(Open),
                 log := s.log + [Sent(Join(p.currentUserId, p.callerRole))]
                        + (if p.isCaller then [] else [Sent(CallAccepted(p.currentUserId, p.otherUserId))]));
    SetupMedia(p, s1, media, saved)
  }

  /** The socket as it is once it has closed: a held socket is CLOSED, no socket stays none. */
  function ClosedSock(ws: Sock): Sock {
    if ws.Sock? then Sock(Closed) else ws
  }

  /**
   * `ws.onerror`: by the time it fires the socket is closed; alert, then end
   * the call locally.
   */
  function OnError(p: Params, s: Call, saved: bool): Call {
    EndCall(p, s.(ws := ClosedSock(s.ws), log := s.log + [Alerted(ConnectionError)]), false, saved)
  }

  /** `ws.onclose`: end the call locally unless it has ended already. */
  function OnClose(p: Params, s: Call, saved: bool): Call {
    if s.hasEnded then s else EndCall(p, s.(ws := ClosedSock(s.ws)), false, saved)
  }

  /**
   * Unmounting runs the effects' clean-ups in order: `cleanupResources`,
   * then `endCall` unless the call has ended.
   */
  function Unmount(p: Params, s: Call, saved: bool): Call {
    var s1 := CleanupResources(s, saved);
    if s1.hasEnded then s1 else EndCall(p, s1, false, saved)
  }

  /** A closing socket, an error, an unmount and the end button all leave the call ended and released. */
  lemma EveryEndReleases(p: Params, s: Call, saved: bool)
    ensures var t := OnClose(p, s, saved); t.hasEnded && (s.hasEnded ==> t == s) && (!s.hasEnded ==> Released(t))
    ensures var t := OnError(p, s, saved); t.hasEnded && (!s.hasEnded ==> Released(t))
    ensures var t := Unmount(p, s, saved); t.hasEnded && Released(t)
    ensures var t := EndCall(p, s, false, saved); t.hasEnded && (!s.hasEnded ==> Released(t))
  {
  }

  /** The stream's video tracks replaced by one. */
  function WithVideo(st: Stream, x: Track): Stream {
    st.(video := [x])
  }

  /**
   * `switchCamera` with the track swap it evidently intends: the facing flag
   * flips; on capture, the sender gets the new track, the old video tracks
   * are stopped and leave the stream, and the new track, which takes the
   * current `isVideoOn`, is its only video track.
   */
  function SwitchCamera(s: Call, cam: CameraOutcome): Call {
    if s.media.localStream.None? then s
    else
      var st := s.media.localStream.value;
      var s1 := s.(controls := s.controls.(isFrontCamera := !s.controls.isFrontCamera));
      match cam
      case CameraFailed => s1
      case CameraCaptured(v) =>
        s1.(media := s.media.(localStream := Some(WithVideo(st, Track(v, s.controls.isVideoOn, true)))),
            log := s.log + (if s.media.pcPresent then [VideoSenderReplaced(v)] else []) + StopEffects(st.video))
  }

  /**
   * `switchCamera` as written: the old video tracks are stopped but stay in
   * the stream, and the new track, enabled as `getUserMedia` returns it, is
   * appended after them.
   */
  function SwitchCameraAsWritten(s: Call, cam: CameraOutcome): Call {
    if s.media.localStream.None? then s
    else
      var st := s.media.localStream.value;
      var s1 := s.(controls := s.controls.(isFrontCamera := !s.controls.isFrontCamera));
      match cam
      case CameraFailed => s1
      case CameraCaptured(v) =>
        s1.(media := s.media.(localStream := Some(st.(video := Stopped(st.video) + [Track(v, true, true)]))),
            log := s.log + (if s.media.pcPresent then [VideoSenderReplaced(v)] else []) + StopEffects(st.video))
  }

  /** The video shown matches the button: one live video track, enabled exactly when `isVideoOn`. */
  predicate VideoShown(s: Call) {
    && s.media.localStream.Some?
    && |s.media.localStream.value.video| == 1
    && s.media.localStream.value.video[0].live
    && s.media.localStream.value.video[0].enabled == s.controls.isVideoOn
  }

  /**
   * As written, switching the camera and then pressing the video button
   * flips the stopped track: `isVideoOn` turns false while the new camera
   * track is still live and enabled, so the other side keeps seeing video.
   */
  lemma SwitchThenToggleAsWritten(s: Call, v: nat)
    requires VideoShown(s) && s.controls.isVideoOn
    ensures var t := ToggleVideo(SwitchCameraAsWritten(s, CameraCaptured(v)));
      var vs := t.media.localStream.value.video;
      && !t.controls.isVideoOn
      && |vs| == 2 && !vs[0].live && vs[1] == Track(v, true, true)
      && !VideoShown(t)
  {
  }

  /**
   * As written, switching the camera while video is off shows video again:
   * the new camera track is live and enabled, so the other side sees it,
   * while `isVideoOn` and the button still say off.
   */
  lemma SwitchWhileVideoOffAsWritten(s: Call, v: nat)
    requires VideoShown(s) && !s.controls.isVideoOn
    ensures var t := SwitchCameraAsWritten(s, CameraCaptured(v));
      var vs := t.media.localStream.value.video;
      && !t.controls.isVideoOn
      && |vs| == 2 && !vs[0].live && vs[1] == Track(v, true, true)
      && !VideoShown(t)
  {
  }

  /** A concrete instance: track 2 shown, switch to camera track 3, press the video button. */
  lemma SwitchThenToggleExample()
    ensures var s := Initial(Params("7", "9", true, Doctor)).(
              media := Media(true, Some(CapturedStream(1, 2)), None));
      var t := ToggleVideo(SwitchCameraAsWritten(s, CameraCaptured(3)));
      && !t.controls.isVideoOn
      && Track(3, true, true) in t.media.localStream.value.video
  {
    var s := Initial(Params("7", "9", true, Doctor)).(media := Media(true, Some(CapturedStream(1, 2)), None));
    SwitchThenToggleAsWritten(s, 3);
  }

  /**
   * With the corrected swap, a successful switch leaves exactly one live
   * video track that follows `isVideoOn`, whatever the stream held before,
   * and a later press of the video button keeps it so.
   */
  lemma SwitchCameraShowsVideo(s: Call, v: nat)
    requires s.media.localStream.Some?
    ensures VideoShown(SwitchCamera(s, CameraCaptured(v)))
    ensures VideoShown(ToggleVideo(SwitchCamera(s, CameraCaptured(v))))
    ensures SwitchCamera(s, CameraCaptured(v)).media.localStream.value.audio == s.media.localStream.value.audio
  {
  }

  /** The video button keeps the shown video consistent. */
  lemma ToggleVideoKeepsShown(s: Call)
    requires VideoShown(s)
    ensures VideoShown(ToggleVideo(s))
  {
  }

  /** Without a local stream `switchCamera` returns at once; a failed capture only flips the facing flag. */
  lemma SwitchCameraGuards(s: Call)
    ensures s.media.localStream.None? ==> SwitchCamera(s, CameraFailed) == s
    ensures s.media.localStream.Some? ==>
      SwitchCamera(s, CameraFailed) == s.(controls := s.controls.(isFrontCamera := !s.controls.isFrontCamera))
  {
  }
}
