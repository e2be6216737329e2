/**
 * Runs of the video-call screen: the events that reach it, which of them the
 * platform can deliver in a given state, and the invariant every handler
 * keeps. From the invariant follow the run-level promises: teardown happens
 * at most once, `end_call` goes out at most once, the duration timer starts
 * at most once, every peer connection created is closed at the end, and
 * every message the screen sends belongs to its call.
 */
module CallTrace {

  import opened Wrappers
  import opened Signaling
  import opened CallModel
  import opened CallCounts

  /** What can happen to the screen: socket and peer-connection callbacks, button presses, unmounting. */
  datatype Event =
    | WsOpen(media: MediaOutcome)
    | WsMessage(m: Inbound)
    | WsError
    | WsClose
    | PcTrack(streams: Option<Stream>)
    | PcIceCandidate(present: bool)
    | MutePressed
    | VideoPressed
    | SpeakerPressed
    | CameraPressed(cam: CameraOutcome)
    | EndPressed
    | RequestUnmutePressed
    | UnmuteAnswered(accept: bool)
    | Unmounted

  /**
   * Whether the platform can deliver `e` in state `s`: `open` fires once,
   * from CONNECTING; messages arrive only on an open socket; `error` at any
   * time, even after `endCall` has closed a CONNECTING socket and dropped
   * the ref; the peer connection's callbacks only while it exists; the
   * "Request Unmute" button is shown to the callee while the other side is
   * muted and this side is not; the consent buttons only with the modal.
   */
  predicate Delivered(p: Params, s: Call, e: Event) {
    match e
    case WsOpen(_) => s.ws == Sock(Connecting)
    case WsMessage(_) => IsOpen(s.ws)
    case PcTrack(_) => s.media.pcPresent
    case PcIceCandidate(_) => s.media.pcPresent
    case RequestUnmutePressed => s.unmute.isRemoteMuted && !s.controls.isMuted && !p.isCaller
    case UnmuteAnswered(_) => s.unmute.showUnmuteModal
    case _ => true
  }

  /** The handler each event runs. */
  function Step(p: Params, s: Call, e: Event, env: Env): Call {
    match e
    case WsOpen(media) => OnOpen(p, s, media, env.saved)
    case WsMessage(m) => OnMessage(p, s, m, env)
    case WsError => OnError(p, s, env.saved)
    case WsClose => OnClose(p, s, env.saved)
    case PcTrack(streams) => OnTrack(s, streams)
    case PcIceCandidate(present) => OnIceCandidate(p, s, present)
    case MutePressed => ToggleMute(p, s)
    case VideoPressed => ToggleVideo(s)
    case SpeakerPressed => ToggleSpeaker(s)
    case CameraPressed(cam) => SwitchCamera(s, cam)
    case EndPressed => CallModel.EndCall(p, s, false, env.saved)
    case RequestUnmutePressed => PressRequestUnmute(s)
    case UnmuteAnswered(accept) => HandleUnmuteRequest(p, s, accept)
    case Unmounted => Unmount(p, s, env.saved)
  }

  /**
   * The refs agree with each other: the socket is dropped exactly when the
   * call has ended, a CLOSED socket never outlives a handler, an ended call
   * holds nothing, and nothing is captured before the socket opens.
   */
  predicate Lifecycle(s: Call) {
    && (s.hasEnded <==> s.ws == NoSocket)
    && s.ws != Sock(Closed)
    && (s.hasEnded ==> Released(s))
    && (s.ws == Sock(Connecting) ==> s.media == NoMedia)
  }

  /**
   * The mute button shows what the other side hears: the local stream has
   * one live audio track, enabled exactly when not muted; before capture,
   * nothing is muted.
   */
  predicate AudioOk(s: Call) {
    match s.media.localStream
    case Some(st) => |st.audio| == 1 && st.audio[0].live && st.audio[0].enabled == !s.controls.isMuted
    case None => !s.hasEnded ==> !s.controls.isMuted
  }

  /**
   * The video button shows what the other side sees: the local stream has
   * one live video track, enabled exactly when video is on; before capture,
   * video is on. The camera swap as written breaks this (see
   * `SwitchThenToggleAsWritten`); the corrected one keeps it.
   */
  predicate VideoOk(s: Call) {
    match s.media.localStream
    case Some(st) => |st.video| == 1 && st.video[0].live && st.video[0].enabled == s.controls.isVideoOn
    case None => !s.hasEnded ==> s.controls.isVideoOn
  }

  /**
   * What the log holds so far: one navigation back and one socket close
   * exactly when the call has ended, at most one `end_call`, at most one
   * offer and one peer connection and none before the socket opens, every
   * peer connection closed unless it is still held, one timer start exactly
   * when the call start is set, and only this call's messages.
   */
  predicate Tally(p: Params, s: Call) {
    && AllFromThisCall(p, Messages(s.log))
    && Count(s.log, GoBack) == Flag(s.hasEnded)
    && Count(s.log, CloseSocket) == Flag(s.hasEnded)
    && Count(s.log, SendEndCall) <= Flag(s.hasEnded)
    && Count(s.log, SendOffer) <= Flag(s.ws != Sock(Connecting))
    && Count(s.log, CreatePc) <= Flag(s.ws != Sock(Connecting))
    && Count(s.log, CreatePc) == Count(s.log, ClosePc) + Flag(s.media.pcPresent)
    && Count(s.log, StartTimer) == Flag(s.progress.callStarted)
  }

  /** What every handler keeps, the camera swap as written included. */
  predicate CoreInv(p: Params, s: Call) {
    Lifecycle(s) && AudioOk(s) && Tally(p, s)
  }

  /** What every handler keeps with the corrected camera swap. */
  predicate Inv(p: Params, s: Call) {
    CoreInv(p, s) && VideoOk(s)
  }

  /** The freshly mounted screen satisfies the invariant. */
  lemma InitialInv(p: Params)
    ensures Inv(p, Initial(p))
  {
  }

  /** Appending neutral effects keeps the tally when the counted fields stay as they were. */
  lemma TallyNeutral(p: Params, s: Call, t: Call, d: seq<Effect>)
    requires Tally(p, s) && Neutral(p, d) && t.log == s.log + d
    requires t.hasEnded == s.hasEnded && t.media.pcPresent == s.media.pcPresent
    requires t.progress.callStarted == s.progress.callStarted
    requires t.ws == Sock(Connecting) ==> s.ws == Sock(Connecting)
    ensures Tally(p, t)
    ensures Count(t.log, SendOffer) == Count(s.log, SendOffer) && Count(t.log, CreatePc) == Count(s.log, CreatePc)
  {
    MessagesConcat(s.log, d);
    AllFromThisCallConcat(p, Messages(s.log), Messages(d));
    forall k: Kind | k != StartRecorder ensures Count(t.log, k) == Count(s.log, k) {
      CountConcat(s.log, d, k);
    }
  }

  /** Counts grown by `endCall`'s deltas on a call that has not ended give the tally of an ended call. */
  lemma TallyEnd(p: Params, s: Call, t: Call, remoteEnded: bool)
    requires Tally(p, s) && !s.hasEnded && s.ws.Sock?
    requires AllFromThisCall(p, Messages(t.log))
    requires forall k: Kind :: Count(t.log, k) == Count(s.log, k) + EndDelta(s, remoteEnded, k)
    requires t.hasEnded && t.ws == NoSocket && !t.media.pcPresent
    requires t.progress.callStarted == s.progress.callStarted
    ensures Tally(p, t)
  {
    assert Count(t.log, SendEndCall) == Count(s.log, SendEndCall) + EndDelta(s, remoteEnded, SendEndCall);
    assert Count(t.log, CreatePc) == Count(s.log, CreatePc) + EndDelta(s, remoteEnded, CreatePc);
    assert Count(t.log, ClosePc) == Count(s.log, ClosePc) + EndDelta(s, remoteEnded, ClosePc);
  }

  /** Every count after `endCall`'s effects: what it was plus `EndDelta`; and the messages sent stay this call's. */
  lemma EndCounts(p: Params, s: Call, t: Call, d: seq<Effect>, remoteEnded: bool)
    requires Tally(p, s) && t.log == s.log + d && AllFromThisCall(p, Messages(d))
    requires forall k: Kind :: Count(d, k) == EndDelta(s, remoteEnded, k)
    ensures forall k: Kind :: Count(t.log, k) == Count(s.log, k) + EndDelta(s, remoteEnded, k)
    ensures AllFromThisCall(p, Messages(t.log))
  {
    MessagesConcat(s.log, d);
    AllFromThisCallConcat(p, Messages(s.log), Messages(d));
    forall k: Kind ensures Count(t.log, k) == Count(s.log, k) + EndDelta(s, remoteEnded, k) {
      CountConcat(s.log, d, k);
    }
  }

  /** What `endCall` adds to every count, for all kinds at once. */
  lemma EndCallDeltas(p: Params, s: Call, remoteEnded: bool, saved: bool)
    ensures forall k: Kind :: Count(EndCallEffects(p, s, remoteEnded, saved), k) == EndDelta(s, remoteEnded, k)
  {
    forall k: Kind ensures Count(EndCallEffects(p, s, remoteEnded, saved), k) == EndDelta(s, remoteEnded, k) {
      EndCallCounts(p, s, remoteEnded, saved, k);
    }
  }

  /** The only message `endCall` may send belongs to the call. */
  lemma EndCallFromThisCall(p: Params, s: Call, remoteEnded: bool, saved: bool)
    ensures AllFromThisCall(p, Messages(EndCallEffects(p, s, remoteEnded, saved)))
  {
    EndCallMessages(p, s, remoteEnded, saved);
  }

  /** The state `endCall` leaves, in the terms the tally counts. */
  lemma EndCallShape(p: Params, s: Call, remoteEnded: bool, saved: bool)
    requires !s.hasEnded
    ensures var t := CallModel.EndCall(p, s, remoteEnded, saved);
      && t.log == s.log + EndCallEffects(p, s, remoteEnded, saved)
      && t.hasEnded && t.ws == NoSocket && !t.media.pcPresent
      && t.progress.callStarted == s.progress.callStarted
  {
  }

  /** `endCall` on a call that has not ended leaves the tally of an ended call. */
  lemma EndCallKeepsTally(p: Params, s: Call, remoteEnded: bool, saved: bool)
    requires Tally(p, s) && !s.hasEnded && s.ws.Sock?
    ensures Tally(p, CallModel.EndCall(p, s, remoteEnded, saved))
  {
    EndCallFromThisCall(p, s, remoteEnded, saved);
    EndCallDeltas(p, s, remoteEnded, saved);
    EndCallShape(p, s, remoteEnded, saved);
    var t := CallModel.EndCall(p, s, remoteEnded, saved);
    EndCounts(p, s, t, EndCallEffects(p, s, remoteEnded, saved), remoteEnded);
    TallyEnd(p, s, t, remoteEnded);
  }

  /** `endCall` on a call that has not ended leaves a call that keeps the invariant. */
  lemma EndCallKeepsInv(p: Params, s: Call, remoteEnded: bool, saved: bool)
    requires Tally(p, s) && !s.hasEnded && s.ws.Sock?
    ensures Inv(p, CallModel.EndCall(p, s, remoteEnded, saved))
  {
    EndCallKeepsTally(p, s, remoteEnded, saved);
  }

  /** A handler that leaves the log and the counted fields alone keeps the tally. */
  lemma TallySame(p: Params, s: Call, t: Call)
    requires Tally(p, s) && t.log == s.log
    requires t.hasEnded == s.hasEnded && t.media.pcPresent == s.media.pcPresent
    requires t.progress.callStarted == s.progress.callStarted
    requires t.ws == Sock(Connecting) ==> s.ws == Sock(Connecting)
    ensures Tally(p, t)
  {
  }

  /** Cleaning up closes the peer connection it holds and keeps the tally. */
  lemma TallyCleanup(p: Params, s: Call, t: Call, d: seq<Effect>)
    requires Tally(p, s) && t.log == s.log + d
    requires Messages(d) == [] && forall k: Kind :: Count(d, k) == Flag(k == ClosePc && s.media.pcPresent)
    requires t.hasEnded == s.hasEnded && t.ws == s.ws && !t.media.pcPresent
    requires t.progress.callStarted == s.progress.callStarted
    ensures Tally(p, t)
  {
    MessagesConcat(s.log, d);
    forall k: Kind ensures Count(t.log, k) == Count(s.log, k) + Count(d, k) {
      CountConcat(s.log, d, k);
    }
  }

  /** Starting the timer on the first remote track keeps the tally. */
  lemma TallyTimer(p: Params, s: Call, t: Call, d: seq<Effect>)
    requires Tally(p, s) && t.log == s.log + d
    requires Messages(d) == [] && forall k: Kind :: Count(d, k) == Flag(k == StartTimer && !s.progress.callStarted)
    requires t.hasEnded == s.hasEnded && t.ws == s.ws && t.media.pcPresent == s.media.pcPresent
    requires t.progress.callStarted
    ensures Tally(p, t)
  {
    MessagesConcat(s.log, d);
    forall k: Kind ensures Count(t.log, k) == Count(s.log, k) + Count(d, k) {
      CountConcat(s.log, d, k);
    }
  }

  /** Creating the first peer connection after the socket has opened keeps the tally. */
  lemma TallyCreate(p: Params, s: Call, t: Call, d: seq<Effect>)
    requires Tally(p, s) && t.log == s.log + d && Count(s.log, CreatePc) == 0 && s.ws != Sock(Connecting)
    requires Messages(d) == [] && forall k: Kind :: Count(d, k) == Flag(k == CreatePc)
    requires t.hasEnded == s.hasEnded && t.ws == s.ws && !s.media.pcPresent && t.media.pcPresent
    requires t.progress.callStarted == s.progress.callStarted
    ensures Tally(p, t) && Count(t.log, SendOffer) == Count(s.log, SendOffer)
  {
    MessagesConcat(s.log, d);
    forall k: Kind ensures Count(t.log, k) == Count(s.log, k) + Count(d, k) {
      CountConcat(s.log, d, k);
    }
  }

  /** Sending the first offer after the socket has opened keeps the tally. */
  lemma TallyOffer(p: Params, s: Call, t: Call, d: seq<Effect>)
    requires Tally(p, s) && t.log == s.log + d && Count(s.log, SendOffer) == 0 && s.ws != Sock(Connecting)
    requires AllFromThisCall(p, Messages(d)) && forall k: Kind :: Count(d, k) == Flag(k == SendOffer)
    requires t.hasEnded == s.hasEnded && t.ws == s.ws && t.media.pcPresent == s.media.pcPresent
    requires t.progress.callStarted == s.progress.callStarted
    ensures Tally(p, t)
  {
    MessagesConcat(s.log, d);
    AllFromThisCallConcat(p, Messages(s.log), Messages(d));
    forall k: Kind ensures Count(t.log, k) == Count(s.log, k) + Count(d, k) {
      CountConcat(s.log, d, k);
    }
  }

  /** The mute button keeps the invariant. */
  lemma MuteKeepsInv(p: Params, s: Call)
    requires CoreInv(p, s)
    ensures CoreInv(p, ToggleMute(p, s))
    ensures VideoOk(s) ==> VideoOk(ToggleMute(p, s))
  {
    if HasAudio(s) {
      NeutralOut(p, s.ws, MuteStatus(p.currentUserId, p.otherUserId, s.media.localStream.value.audio[0].enabled));
      TallyNeutral(p, s, ToggleMute(p, s),
                   Out(s.ws, MuteStatus(p.currentUserId, p.otherUserId, s.media.localStream.value.audio[0].enabled)));
    }
  }

  /** The video button keeps the invariant. */
  lemma VideoKeepsInv(p: Params, s: Call)
    requires CoreInv(p, s)
    ensures CoreInv(p, ToggleVideo(s))
    ensures VideoOk(s) ==> VideoOk(ToggleVideo(s))
  {
    TallySame(p, s, ToggleVideo(s));
  }

  /** The speaker button keeps the invariant. */
  lemma SpeakerKeepsInv(p: Params, s: Call)
    requires CoreInv(p, s)
    ensures CoreInv(p, ToggleSpeaker(s))
    ensures VideoOk(s) ==> VideoOk(ToggleSpeaker(s))
  {
    NeutralOne(p, SpeakerSet(!s.controls.isSpeakerOn));
    TallyNeutral(p, s, ToggleSpeaker(s), [SpeakerSet(!s.controls.isSpeakerOn)]);
  }

  /** Appending two lists in turn is appending their concatenation. */
  lemma Regroup3<T>(a: seq<T>, b: seq<T>, c: seq<T>)
    ensures a + b + c == a + (b + c)
  {
  }

  /** Switching the camera keeps the tally: it only replaces the sender's track and stops tracks. */
  lemma CameraKeepsTally(p: Params, s: Call, cam: CameraOutcome)
    requires Tally(p, s)
    ensures Tally(p, SwitchCamera(s, cam))
  {
    var t := SwitchCamera(s, cam);
    if s.media.localStream.Some? {
      var st := s.media.localStream.value;
      match cam
      case CameraFailed => TallySame(p, s, t);
      case CameraCaptured(v) =>
        var r := if s.media.pcPresent then [VideoSenderReplaced(v)] else [];
        QuietOne(VideoSenderReplaced(v));
        StopsQuiet(st.video);
        QuietConcat(r, StopEffects(st.video));
        QuietNeutral(p, r + StopEffects(st.video));
        Regroup3(s.log, r, StopEffects(st.video));
        TallyNeutral(p, s, t, r + StopEffects(st.video));
    }
  }

  /** What the corrected swap leaves of the fields the invariant reads. */
  lemma CameraShape(s: Call, cam: CameraOutcome)
    ensures var t := SwitchCamera(s, cam);
      && t.hasEnded == s.hasEnded && t.ws == s.ws && t.media.pcPresent == s.media.pcPresent
      && t.progress == s.progress && t.controls.isMuted == s.controls.isMuted
      && t.controls.isVideoOn == s.controls.isVideoOn
      && t.media.localStream.Some? == s.media.localStream.Some?
      && (t.media.localStream.Some? ==>
            && t.media.localStream.value.audio == s.media.localStream.value.audio
            && (t.media.localStream.value.video == s.media.localStream.value.video
                || t.media.localStream.value.video == [Track(cam.videoId, s.controls.isVideoOn, true)]))
  {
  }

  /** Switching the camera keeps the invariant: the new track follows the video button. */
  lemma CameraKeepsInv(p: Params, s: Call, cam: CameraOutcome)
    requires CoreInv(p, s)
    ensures CoreInv(p, SwitchCamera(s, cam))
    ensures VideoOk(s) ==> VideoOk(SwitchCamera(s, cam))
  {
    CameraKeepsTally(p, s, cam);
    CameraShape(s, cam);
  }

  /** The "Request Unmute" button keeps the invariant. */
  lemma RequestUnmuteKeepsInv(p: Params, s: Call)
    requires CoreInv(p, s)
    ensures CoreInv(p, PressRequestUnmute(s))
    ensures VideoOk(s) ==> VideoOk(PressRequestUnmute(s))
  {
    TallySame(p, s, PressRequestUnmute(s));
  }

  /** Answering the consent modal keeps the invariant. */
  lemma UnmuteAnsweredKeepsInv(p: Params, s: Call, accept: bool)
    requires CoreInv(p, s)
    ensures CoreInv(p, HandleUnmuteRequest(p, s, accept))
    ensures VideoOk(s) ==> VideoOk(HandleUnmuteRequest(p, s, accept))
  {
    var d := Out(s.ws, UnmuteResponse(p.currentUserId, p.otherUserId, accept));
    var s1 := s.(unmute := s.unmute.(showUnmuteModal := false), log := s.log + d);
    NeutralOut(p, s.ws, UnmuteResponse(p.currentUserId, p.otherUserId, accept));
    TallyNeutral(p, s, s1, d);
    if IsOpen(s.ws) && accept {
      MuteKeepsInv(p, s1);
    }
  }

  /** Forwarding an ICE candidate keeps the invariant. */
  lemma IceKeepsInv(p: Params, s: Call, present: bool)
    requires CoreInv(p, s)
    ensures CoreInv(p, OnIceCandidate(p, s, present))
    ensures VideoOk(s) ==> VideoOk(OnIceCandidate(p, s, present))
  {
    if present {
      NeutralOut(p, s.ws, Candidate(p.otherUserId));
      TallyNeutral(p, s, OnIceCandidate(p, s, present), Out(s.ws, Candidate(p.otherUserId)));
    }
  }

  /** What `ontrack` logs: one timer start on the first remote track, and nothing else counted. */
  lemma TrackCounts(s: Call)
    ensures var d := TimerEffects(s.progress.timerRunning) + [AudioRouteStarted, SpeakerSet(true)];
      && Messages(d) == []
      && forall k: Kind :: Count(d, k) == Flag(k == StartTimer)
    ensures Quiet([AudioRouteStarted, SpeakerSet(true)])
  {
    var a, b := TimerStops(s.progress.timerRunning), [AudioRouteStarted, SpeakerSet(true)];
    QuietOne(TimerStopped);
    QuietOne(AudioRouteStarted);
    QuietOne(SpeakerSet(true));
    QuietConcat([AudioRouteStarted], [SpeakerSet(true)]);
    assert [AudioRouteStarted] + [SpeakerSet(true)] == b;
    CountsOne(TimerStarted);
    QuietSum(a, [TimerStarted], b);
  }

  /** Counts and messages of a list framed by two quiet ones. */
  lemma QuietSum(a: seq<Effect>, x: seq<Effect>, b: seq<Effect>)
    requires Quiet(a) && Quiet(b)
    ensures Messages(a + x + b) == Messages(x)
    ensures forall k: Kind :: Count(a + x + b, k) == Count(x, k)
  {
    MessagesConcat(a, x);
    MessagesConcat(a + x, b);
    forall k: Kind ensures Count(a + x + b, k) == Count(x, k) {
      CountConcat(a, x, k);
      CountConcat(a + x, b, k);
    }
  }

  /** A remote track keeps the invariant: the timer starts only on the first one. */
  lemma TrackKeepsInv(p: Params, s: Call, streams: Option<Stream>)
    requires CoreInv(p, s) && s.media.pcPresent
    ensures CoreInv(p, OnTrack(s, streams))
    ensures VideoOk(s) ==> VideoOk(OnTrack(s, streams))
  {
    if streams.Some? {
      var t := OnTrack(s, streams);
      var b := [AudioRouteStarted, SpeakerSet(true)];
      TrackCounts(s);
      if s.progress.callStarted {
        QuietNeutral(p, b);
        TallyNeutral(p, s, t, b);
      } else {
        TallyTimer(p, s, t, TimerEffects(s.progress.timerRunning) + b);
      }
    }
  }

  /** A socket error keeps the invariant: it alerts and ends the call locally unless it has ended. */
  lemma ErrorKeepsInv(p: Params, s: Call, saved: bool)
    requires CoreInv(p, s)
    ensures CoreInv(p, OnError(p, s, saved))
    ensures VideoOk(s) ==> VideoOk(OnError(p, s, saved))
  {
    var u := s.(ws := ClosedSock(s.ws), log := s.log + [Alerted(ConnectionError)]);
    NeutralOne(p, Alerted(ConnectionError));
    TallyNeutral(p, s, u, [Alerted(ConnectionError)]);
    if s.ws.Sock? {
      EndCallKeepsInv(p, u, false, saved);
    }
  }

  /** The socket closing keeps the invariant: it ends the call unless it has ended. */
  lemma CloseKeepsInv(p: Params, s: Call, saved: bool)
    requires CoreInv(p, s)
    ensures CoreInv(p, OnClose(p, s, saved))
    ensures VideoOk(s) ==> VideoOk(OnClose(p, s, saved))
  {
    if !s.hasEnded {
      var u := s.(ws := ClosedSock(s.ws));
      TallySame(p, s, u);
      EndCallKeepsInv(p, u, false, saved);
    }
  }

  /** The end button keeps the invariant. */
  lemma EndPressedKeepsInv(p: Params, s: Call, saved: bool)
    requires CoreInv(p, s)
    ensures CoreInv(p, CallModel.EndCall(p, s, false, saved))
    ensures VideoOk(s) ==> VideoOk(CallModel.EndCall(p, s, false, saved))
  {
    if !s.hasEnded {
      EndCallKeepsInv(p, s, false, saved);
    }
  }

  /** `cleanupResources` keeps the tally: it closes the peer connection it holds, if any. */
  lemma CleanupKeepsTally(p: Params, s: Call, saved: bool)
    requires Tally(p, s)
    ensures Tally(p, CleanupResources(s, saved))
  {
    CleanupCounts(s, saved);
    TallyCleanup(p, s, CleanupResources(s, saved), CleanupEffects(s, saved));
  }

  /** Unmounting keeps the invariant: it releases everything and ends the call unless it has ended. */
  lemma UnmountKeepsInv(p: Params, s: Call, saved: bool)
    requires CoreInv(p, s)
    ensures CoreInv(p, Unmount(p, s, saved))
    ensures VideoOk(s) ==> VideoOk(Unmount(p, s, saved))
  {
    CleanupKeepsTally(p, s, saved);
    if !s.hasEnded {
      EndCallKeepsInv(p, CleanupResources(s, saved), false, saved);
    }
  }

  /** The state after `onopen` has sent `join` (and, as callee, `call_accepted`), before media setup. */
  function Opened(p: Params, s: Call): Call {
    s.(ws := Sock(Open),
       log := s.log + [Sent(Join(p.currentUserId, p.callerRole))]
              + (if p.isCaller then [] else [Sent(CallAccepted(p.currentUserId, p.otherUserId))]))
  }

  /** Opening the socket keeps the tally, and nothing has been offered or created yet. */
  lemma OpenedTally(p: Params, s: Call)
    requires CoreInv(p, s) && s.ws == Sock(Connecting)
    ensures CoreInv(p, Opened(p, s))
    ensures VideoOk(s) ==> VideoOk(Opened(p, s))
    ensures Count(Opened(p, s).log, SendOffer) == 0 && Count(Opened(p, s).log, CreatePc) == 0
  {
    var j := [Sent(Join(p.currentUserId, p.callerRole))];
    var a := if p.isCaller then [] else [Sent(CallAccepted(p.currentUserId, p.otherUserId))];
    NeutralSent(p, Join(p.currentUserId, p.callerRole));
    if !p.isCaller { NeutralSent(p, CallAccepted(p.currentUserId, p.otherUserId)); }
    NeutralConcat(p, j, a);
    Regroup3(s.log, j, a);
    TallyNeutral(p, s, Opened(p, s), j + a);
  }

  /** A failure during setup alerts and ends the call; that keeps the invariant. */
  lemma FailAndEndKeepsInv(p: Params, s: Call, alert: Alert, saved: bool)
    requires Tally(p, s) && !s.hasEnded && s.ws.Sock?
    ensures Inv(p, FailAndEnd(p, s, alert, saved))
  {
    var u := s.(log := s.log + [Alerted(alert)]);
    NeutralOne(p, Alerted(alert));
    TallyNeutral(p, s, u, [Alerted(alert)]);
    EndCallKeepsInv(p, u, false, saved);
  }

  /** The state once the stream is captured and the peer connection created, before any offer. */
  function CapturedState(s: Call, audioId: nat, videoId: nat): Call {
    s.(media := s.media.(pcPresent := true, localStream := Some(CapturedStream(audioId, videoId))),
       log := s.log + (if s.media.pcPresent then [] else [PcCreated]))
  }

  /** Capturing on the opened socket keeps the invariant, and nothing has been offered yet. */
  lemma CapturedKeepsInv(p: Params, s: Call, audioId: nat, videoId: nat)
    requires CoreInv(p, s) && s.ws == Sock(Open) && s.media == NoMedia && Count(s.log, CreatePc) == 0
    ensures CoreInv(p, CapturedState(s, audioId, videoId))
    ensures VideoOk(s) ==> VideoOk(CapturedState(s, audioId, videoId))
    ensures Count(CapturedState(s, audioId, videoId).log, SendOffer) == Count(s.log, SendOffer)
  {
    CountsOne(PcCreated);
    TallyCreate(p, s, CapturedState(s, audioId, videoId), [PcCreated]);
  }

  /** Sending the offer from the captured state keeps the invariant. */
  lemma OfferKeepsInv(p: Params, s: Call)
    requires CoreInv(p, s) && s.ws == Sock(Open) && Count(s.log, SendOffer) == 0 && p.isCaller
    ensures CoreInv(p, s.(log := s.log + Out(s.ws, Offer(p.otherUserId))))
    ensures VideoOk(s) ==> VideoOk(s.(log := s.log + Out(s.ws, Offer(p.otherUserId))))
  {
    CountsOne(Sent(Offer(p.otherUserId)));
    TallyOffer(p, s, s.(log := s.log + Out(s.ws, Offer(p.otherUserId))), [Sent(Offer(p.otherUserId))]);
  }

  /** `setupMedia` on the freshly opened socket keeps the invariant. */
  lemma SetupMediaKeepsInv(p: Params, s: Call, media: MediaOutcome, saved: bool)
    requires CoreInv(p, s) && s.ws == Sock(Open) && s.media == NoMedia
    requires Count(s.log, SendOffer) == 0 && Count(s.log, CreatePc) == 0
    ensures CoreInv(p, SetupMedia(p, s, media, saved))
    ensures VideoOk(s) ==> VideoOk(SetupMedia(p, s, media, saved))
  {
    match media
    case PermissionDenied => FailAndEndKeepsInv(p, s, PermissionsRequired, saved);
    case CaptureFailed => FailAndEndKeepsInv(p, s, MediaError, saved);
    case Captured(audioId, videoId, offerCreated) =>
      var s1 := CapturedState(s, audioId, videoId);
      CapturedKeepsInv(p, s, audioId, videoId);
      if MakesOffer(p, s) {
        if offerCreated {
          OfferKeepsInv(p, s1);
        } else {
          FailAndEndKeepsInv(p, s1, MediaError, saved);
        }
      }
  }

  /** The socket opening keeps the invariant. */
  lemma OpenKeepsInv(p: Params, s: Call, media: MediaOutcome, saved: bool)
    requires CoreInv(p, s) && s.ws == Sock(Connecting)
    ensures CoreInv(p, OnOpen(p, s, media, saved))
    ensures VideoOk(s) ==> VideoOk(OnOpen(p, s, media, saved))
  {
    OpenedTally(p, s);
    SetupMediaKeepsInv(p, Opened(p, s), media, saved);
  }

  /** Starting the recorder keeps the invariant. */
  lemma RecordingKeepsInv(p: Params, s: Call, rec: RecordingStart)
    requires CoreInv(p, s) && !s.hasEnded
    ensures CoreInv(p, StartRecording(s, rec))
    ensures VideoOk(s) ==> VideoOk(StartRecording(s, rec))
  {
    NeutralRecording(p, rec);
    TallyNeutral(p, s, StartRecording(s, rec), RecordingEffects(rec));
  }

  /** Applying a remote offer and answering it keeps the invariant. */
  lemma AnswerOfferKeepsInv(p: Params, s: Call, rec: RecordingStart)
    requires CoreInv(p, s) && IsOpen(s.ws)
    ensures CoreInv(p, AnswerOffer(p, s, rec))
    ensures VideoOk(s) ==> VideoOk(AnswerOffer(p, s, rec))
  {
    var d := [RemoteOfferApplied] + Out(s.ws, Answer(p.otherUserId));
    var s1 := s.(progress := s.progress.(status := ConnectedText, callConnected := true), log := s.log + d);
    NeutralOne(p, RemoteOfferApplied);
    NeutralOut(p, s.ws, Answer(p.otherUserId));
    NeutralConcat(p, [RemoteOfferApplied], Out(s.ws, Answer(p.otherUserId)));
    Regroup3(s.log, [RemoteOfferApplied], Out(s.ws, Answer(p.otherUserId)));
    TallyNeutral(p, s, s1, d);
    if p.isCaller { RecordingKeepsInv(p, s1, rec); }
  }

  /** Applying a remote answer keeps the invariant. */
  lemma AcceptAnswerKeepsInv(p: Params, s: Call, rec: RecordingStart)
    requires CoreInv(p, s) && IsOpen(s.ws)
    ensures CoreInv(p, AcceptAnswer(p, s, rec))
    ensures VideoOk(s) ==> VideoOk(AcceptAnswer(p, s, rec))
  {
    var s1 := s.(progress := s.progress.(status := ConnectedText, callConnected := true),
                 log := s.log + [RemoteAnswerApplied]);
    NeutralOne(p, RemoteAnswerApplied);
    TallyNeutral(p, s, s1, [RemoteAnswerApplied]);
    if !p.isCaller { RecordingKeepsInv(p, s1, rec); }
  }

  /** The signaling cases (`offer`, `answer`, `candidate`) keep the invariant. */
  lemma SignalingKeepsInv(p: Params, s: Call, m: Inbound, env: Env)
    requires CoreInv(p, s) && IsOpen(s.ws)
    requires m.OfferIn? || m.AnswerIn? || m.CandidateIn?
    ensures CoreInv(p, OnMessage(p, s, m, env))
    ensures VideoOk(s) ==> VideoOk(OnMessage(p, s, m, env))
  {
    if s.media.pcPresent && !(m.CandidateIn? && !m.present) {
      if !m.applied {
        EndCallKeepsInv(p, s, false, env.saved);
      } else if m.OfferIn? {
        AnswerOfferKeepsInv(p, s, env.recording);
      } else if m.AnswerIn? {
        AcceptAnswerKeepsInv(p, s, env.recording);
      } else {
        NeutralOne(p, CandidateAdded);
        TallyNeutral(p, s, OnMessage(p, s, m, env), [CandidateAdded]);
      }
    }
  }

  /** Every inbound message keeps the invariant. */
  lemma MessageKeepsInv(p: Params, s: Call, m: Inbound, env: Env)
    requires CoreInv(p, s) && IsOpen(s.ws)
    ensures CoreInv(p, OnMessage(p, s, m, env))
    ensures VideoOk(s) ==> VideoOk(OnMessage(p, s, m, env))
  {
    var t := OnMessage(p, s, m, env);
    match m
    case OfferIn(_) => SignalingKeepsInv(p, s, m, env);
    case AnswerIn(_) => SignalingKeepsInv(p, s, m, env);
    case CandidateIn(_, _) => SignalingKeepsInv(p, s, m, env);
    case MuteStatusIn(_) => TallySame(p, s, t);
    case UnmuteRequestIn => TallySame(p, s, t);
    case UnmuteResponseIn(accepted) =>
      var a := Alerted(if accepted then UnmuteAccepted else UnmuteDenied);
      NeutralOne(p, a);
      TallyNeutral(p, s, t, [a]);
    case EndCallIn => EndCallKeepsInv(p, s, true, env.saved);
    case Unparsable =>
    case OtherIn =>
  }

  /** Every event the platform can deliver keeps the core invariant, and the video half with it. */
  lemma StepKeepsCore(p: Params, s: Call, e: Event, env: Env)
    requires CoreInv(p, s) && Delivered(p, s, e)
    ensures CoreInv(p, Step(p, s, e, env))
    ensures VideoOk(s) ==> VideoOk(Step(p, s, e, env))
  {
    match e
    case WsOpen(media) => OpenKeepsInv(p, s, media, env.saved);
    case WsMessage(m) => MessageKeepsInv(p, s, m, env);
    case WsError => ErrorKeepsInv(p, s, env.saved);
    case WsClose => CloseKeepsInv(p, s, env.saved);
    case PcTrack(streams) => TrackKeepsInv(p, s, streams);
    case PcIceCandidate(present) => IceKeepsInv(p, s, present);
    case MutePressed => MuteKeepsInv(p, s);
    case VideoPressed => VideoKeepsInv(p, s);
    case SpeakerPressed => SpeakerKeepsInv(p, s);
    case CameraPressed(cam) => CameraKeepsInv(p, s, cam);
    case EndPressed => EndPressedKeepsInv(p, s, env.saved);
    case RequestUnmutePressed => RequestUnmuteKeepsInv(p, s);
    case UnmuteAnswered(accept) => UnmuteAnsweredKeepsInv(p, s, accept);
    case Unmounted => UnmountKeepsInv(p, s, env.saved);
  }

  /** Every event the platform can deliver keeps the invariant. */
  lemma StepKeepsInv(p: Params, s: Call, e: Event, env: Env)
    requires Inv(p, s) && Delivered(p, s, e)
    ensures Inv(p, Step(p, s, e, env))
  {
    StepKeepsCore(p, s, e, env);
  }

  /** The state after the events of `evs`, each with the outcomes of its foreign calls, in order. */
  function Run(p: Params, s: Call, evs: seq<(Event, Env)>): Call
    decreases |evs|
  {
    if evs == [] then s
    else
      var last := evs[|evs| - 1];
      Step(p, Run(p, s, evs[..|evs| - 1]), last.0, last.1)
  }

  /** Whether the platform can deliver every event of `evs` in the state reached before it. */
  predicate Admissible(p: Params, s: Call, evs: seq<(Event, Env)>)
    decreases |evs|
  {
    evs == [] || (Admissible(p, s, evs[..|evs| - 1]) && Delivered(p, Run(p, s, evs[..|evs| - 1]), evs[|evs| - 1].0))
  }

  /** Every deliverable run keeps the invariant. */
  lemma {:induction false} RunKeepsInv(p: Params, s: Call, evs: seq<(Event, Env)>)
    requires Inv(p, s) && Admissible(p, s, evs)
    ensures Inv(p, Run(p, s, evs))
    decreases |evs|
  {
    if evs != [] {
      RunKeepsInv(p, s, evs[..|evs| - 1]);
      StepKeepsInv(p, Run(p, s, evs[..|evs| - 1]), evs[|evs| - 1].0, evs[|evs| - 1].1);
    }
  }

  /** The handler each event runs in the program as written: the camera button runs the swap as written. */
  function StepAsWritten(p: Params, s: Call, e: Event, env: Env): Call {
    match e
    case CameraPressed(cam) => SwitchCameraAsWritten(s, cam)
    case _ => Step(p, s, e, env)
  }

  /** The swap as written logs what the corrected one does, and differs only in the stream's video tracks. */
  lemma CameraAsWrittenKeepsCore(p: Params, s: Call, cam: CameraOutcome)
    requires CoreInv(p, s)
    ensures CoreInv(p, SwitchCameraAsWritten(s, cam))
  {
    assert SwitchCameraAsWritten(s, cam).log == SwitchCamera(s, cam).log;
    CameraKeepsTally(p, s, cam);
  }

  /** Every event the platform can deliver to the program as written keeps the core invariant. */
  lemma StepAsWrittenKeepsCore(p: Params, s: Call, e: Event, env: Env)
    requires CoreInv(p, s) && Delivered(p, s, e)
    ensures CoreInv(p, StepAsWritten(p, s, e, env))
  {
    match e
    case CameraPressed(cam) => CameraAsWrittenKeepsCore(p, s, cam);
    case _ => StepKeepsCore(p, s, e, env);
  }

  /** The state after the events of `evs` in the program as written. */
  function RunAsWritten(p: Params, s: Call, evs: seq<(Event, Env)>): Call
    decreases |evs|
  {
    if evs == [] then s
    else
      var last := evs[|evs| - 1];
      StepAsWritten(p, RunAsWritten(p, s, evs[..|evs| - 1]), last.0, last.1)
  }

  /** Whether the platform can deliver every event of `evs` to the program as written. */
  predicate AdmissibleAsWritten(p: Params, s: Call, evs: seq<(Event, Env)>)
    decreases |evs|
  {
    || evs == []
    || (AdmissibleAsWritten(p, s, evs[..|evs| - 1])
        && Delivered(p, RunAsWritten(p, s, evs[..|evs| - 1]), evs[|evs| - 1].0))
  }

  /** Every deliverable run of the program as written keeps the core invariant. */
  lemma {:induction false} RunAsWrittenKeepsCore(p: Params, s: Call, evs: seq<(Event, Env)>)
    requires CoreInv(p, s) && AdmissibleAsWritten(p, s, evs)
    ensures CoreInv(p, RunAsWritten(p, s, evs))
    decreases |evs|
  {
    if evs != [] {
      RunAsWrittenKeepsCore(p, s, evs[..|evs| - 1]);
      StepAsWrittenKeepsCore(p, RunAsWritten(p, s, evs[..|evs| - 1]), evs[|evs| - 1].0, evs[|evs| - 1].1);
    }
  }

  /**
   * Whatever happens to the screen, in whatever order, in the program as
   * written: it goes back at most once, closes the socket at most once and
   * sends `end_call` at most once, and does each of the first two exactly
   * when the call has ended; it starts the duration timer at most once; it
   * creates at most one peer connection and offer, and the callee none of
   * the latter; an ended call holds no peer connection, stream, recorder or
   * timer, and every peer connection created has been closed; every message
   * it sent comes from the local user to the other one.
   */
  lemma TeardownAtMostOnce(p: Params, evs: seq<(Event, Env)>)
    requires AdmissibleAsWritten(p, Initial(p), evs)
    ensures var t := RunAsWritten(p, Initial(p), evs);
      && Count(t.log, GoBack) <= 1 && Count(t.log, CloseSocket) <= 1 && Count(t.log, SendEndCall) <= 1
      && (Count(t.log, GoBack) == 1 <==> t.hasEnded)
      && Count(t.log, StartTimer) <= 1
      && Count(t.log, CreatePc) <= 1 && Count(t.log, SendOffer) <= 1
      && (!p.isCaller ==> Count(t.log, SendOffer) == 0)
      && (t.hasEnded ==> Released(t) && Count(t.log, ClosePc) == Count(t.log, CreatePc))
      && AllFromThisCall(p, Messages(t.log))
  {
    InitialInv(p);
    RunAsWrittenKeepsCore(p, Initial(p), evs);
    var t := RunAsWritten(p, Initial(p), evs);
    CalleeSendsNoOffer(p, t.log);
  }

  /** Effects that release nothing: no track stopped and no peer connection closed. */
  predicate ReleasesNothing(d: seq<Effect>) {
    forall i | 0 <= i < |d| :: !d[i].TrackStopped? && !d[i].PcClosed?
  }

  /**
   * Once the call has ended, no event releases anything again: a second
   * `cleanupResources` on unmount stops no track and closes no peer
   * connection, and the call stays ended.
   */
  lemma EndedStepReleasesNothing(p: Params, s: Call, e: Event, env: Env)
    requires CoreInv(p, s) && s.hasEnded && Delivered(p, s, e)
    ensures var t := StepAsWritten(p, s, e, env);
      && t.hasEnded && |s.log| <= |t.log| && t.log[..|s.log|] == s.log
      && ReleasesNothing(t.log[|s.log|..])
  {
    var t := StepAsWritten(p, s, e, env);
    match e
    case Unmounted =>
      assert t.log == s.log + CleanupEffects(s, env.saved);
      assert CleanupEffects(s, env.saved) == [AudioRouteStopped, SpeakerSet(false)];
      assert t.log[|s.log|..] == [AudioRouteStopped, SpeakerSet(false)];
    case WsError =>
      assert t.log[|s.log|..] == [Alerted(ConnectionError)];
    case SpeakerPressed =>
      assert t.log[|s.log|..] == [SpeakerSet(!s.controls.isSpeakerOn)];
    case WsOpen(_) => assert false;
    case WsMessage(_) => assert false;
    case PcTrack(_) => assert false;
    case PcIceCandidate(_) => assert false;
    case WsClose =>
    case MutePressed =>
    case VideoPressed =>
    case CameraPressed(_) =>
    case EndPressed =>
    case RequestUnmutePressed =>
    case UnmuteAnswered(_) =>
  }

  /** Concatenated lists that release nothing release nothing. */
  lemma ReleasesNothingConcat(a: seq<Effect>, b: seq<Effect>)
    requires ReleasesNothing(a) && ReleasesNothing(b)
    ensures ReleasesNothing(a + b)
  {
    forall i | 0 <= i < |a + b| ensures !(a + b)[i].TrackStopped? && !(a + b)[i].PcClosed? {
      if i >= |a| { assert (a + b)[i] == b[i - |a|]; }
    }
  }

  /**
   * From an ended call, a deliverable run of the program as written only
   * appends to the log, and what it appends stops no track and closes no
   * peer connection: cleanup does its work once.
   */
  lemma {:induction false} EndedRunReleasesNothing(p: Params, s: Call, evs: seq<(Event, Env)>)
    requires CoreInv(p, s) && s.hasEnded && AdmissibleAsWritten(p, s, evs)
    ensures var t := RunAsWritten(p, s, evs);
      && t.hasEnded && |s.log| <= |t.log| && t.log[..|s.log|] == s.log
      && ReleasesNothing(t.log[|s.log|..])
    decreases |evs|
  {
    if evs != [] {
      var pre := evs[..|evs| - 1];
      var u := RunAsWritten(p, s, pre);
      var t := RunAsWritten(p, s, evs);
      EndedRunReleasesNothing(p, s, pre);
      RunAsWrittenKeepsCore(p, s, pre);
      EndedStepReleasesNothing(p, u, evs[|evs| - 1].0, evs[|evs| - 1].1);
      assert t.log[|s.log|..] == u.log[|s.log|..] + t.log[|u.log|..];
      ReleasesNothingConcat(u.log[|s.log|..], t.log[|u.log|..]);
    }
  }

  /** Appending a list without effects of kind `k` leaves that count as it was. */
  lemma AppendNone(a: seq<Effect>, d: seq<Effect>, k: Kind)
    requires Count(d, k) == 0
    ensures Count(a + d, k) == Count(a, k)
  {
    CountConcat(a, d, k);
  }

  /** `endCall` never sends an offer or starts the recorder or the timer. */
  lemma EndCallAddsNone(p: Params, s: Call, remoteEnded: bool, saved: bool, k: Kind)
    requires k == SendOffer || k == StartRecorder || k == StartTimer
    ensures Count(CallModel.EndCall(p, s, remoteEnded, saved).log, k) == Count(s.log, k)
  {
    if !s.hasEnded {
      EndCallCounts(p, s, remoteEnded, saved, k);
      AppendNone(s.log, EndCallEffects(p, s, remoteEnded, saved), k);
    }
  }

  /** The catch blocks of setup never send an offer or start the recorder. */
  lemma FailAndEndAddsNone(p: Params, s: Call, alert: Alert, saved: bool, k: Kind)
    requires k == SendOffer || k == StartRecorder
    ensures Count(FailAndEnd(p, s, alert, saved).log, k) == Count(s.log, k)
  {
    var u := s.(log := s.log + [Alerted(alert)]);
    CountOne(Alerted(alert), k);
    AppendNone(s.log, [Alerted(alert)], k);
    EndCallAddsNone(p, u, false, saved, k);
  }

  /**
   * The offer rule: `setupMedia` sends one offer exactly when the capture
   * succeeded, the offer was created, the local side is the caller and not
   * yet connected, and the socket is open; otherwise it sends none.
   */
  lemma OfferRule(p: Params, s: Call, media: MediaOutcome, saved: bool)
    ensures Count(SetupMedia(p, s, media, saved).log, SendOffer)
            == Count(s.log, SendOffer) + Flag(media.Captured? && media.offerCreated && MakesOffer(p, s) && IsOpen(s.ws))
  {
    match media
    case PermissionDenied => FailAndEndAddsNone(p, s, PermissionsRequired, saved, SendOffer);
    case CaptureFailed => FailAndEndAddsNone(p, s, MediaError, saved, SendOffer);
    case Captured(audioId, videoId, offerCreated) => CapturedOfferRule(p, s, audioId, videoId, offerCreated, saved);
  }

  /** The offer rule once the capture has succeeded. */
  lemma CapturedOfferRule(p: Params, s: Call, audioId: nat, videoId: nat, offerCreated: bool, saved: bool)
    ensures Count(SetupMedia(p, s, Captured(audioId, videoId, offerCreated), saved).log, SendOffer)
            == Count(s.log, SendOffer) + Flag(offerCreated && MakesOffer(p, s) && IsOpen(s.ws))
  {
    var s1 := CapturedState(s, audioId, videoId);
    CountOne(PcCreated, SendOffer);
    AppendNone(s.log, if s.media.pcPresent then [] else [PcCreated], SendOffer);
    if MakesOffer(p, s) {
      if offerCreated {
        CountConcat(s1.log, Out(s.ws, Offer(p.otherUserId)), SendOffer);
        CountOne(Sent(Offer(p.otherUserId)), SendOffer);
      } else {
        FailAndEndAddsNone(p, s1, MediaError, saved, SendOffer);
      }
    }
  }

  /** Whether an inbound message starts the recorder: the caller on an applied offer, the callee on an applied answer. */
  predicate RecorderStarts(p: Params, s: Call, m: Inbound, rec: RecordingStart) {
    && s.media.pcPresent && rec.RecStarted?
    && ((m.OfferIn? && m.applied && p.isCaller) || (m.AnswerIn? && m.applied && !p.isCaller))
  }

  /** Applying a remote offer starts the recorder only on the caller's side. */
  lemma AnswerOfferRecording(p: Params, s: Call, rec: RecordingStart)
    ensures Count(AnswerOffer(p, s, rec).log, StartRecorder) == Count(s.log, StartRecorder) + Flag(p.isCaller && rec.RecStarted?)
  {
    var o := Out(s.ws, Answer(p.otherUserId));
    CountOne(RemoteOfferApplied, StartRecorder);
    CountOne(Sent(Answer(p.otherUserId)), StartRecorder);
    AppendNone(s.log, [RemoteOfferApplied], StartRecorder);
    AppendNone(s.log + [RemoteOfferApplied], o, StartRecorder);
    RecordingCount(s.log + [RemoteOfferApplied] + o, rec);
  }

  /** Applying a remote answer starts the recorder only on the callee's side. */
  lemma AcceptAnswerRecording(p: Params, s: Call, rec: RecordingStart)
    ensures Count(AcceptAnswer(p, s, rec).log, StartRecorder) == Count(s.log, StartRecorder) + Flag(!p.isCaller && rec.RecStarted?)
  {
    var a := s.log + [RemoteAnswerApplied];
    CountOne(RemoteAnswerApplied, StartRecorder);
    AppendNone(s.log, [RemoteAnswerApplied], StartRecorder);
    if !p.isCaller {
      assert AcceptAnswer(p, s, rec).log == a + RecordingEffects(rec);
      RecordingCount(a, rec);
    } else {
      assert AcceptAnswer(p, s, rec).log == a;
    }
  }

  /** `startRecording`'s effects count one recorder start exactly when it started. */
  lemma RecordingCount(a: seq<Effect>, rec: RecordingStart)
    ensures Count(a + RecordingEffects(rec), StartRecorder) == Count(a, StartRecorder) + Flag(rec.RecStarted?)
  {
    CountConcat(a, RecordingEffects(rec), StartRecorder);
    CountOne(RecordingStarted, StartRecorder);
    CountOne(Alerted(RecordingError), StartRecorder);
  }

  /**
   * The recording rule: an inbound message starts the recorder exactly when
   * the caller applies an offer or the callee applies an answer, and the
   * recorder starts; no other message starts it.
   */
  lemma RecordingTrigger(p: Params, s: Call, m: Inbound, env: Env)
    ensures Count(OnMessage(p, s, m, env).log, StartRecorder)
            == Count(s.log, StartRecorder) + Flag(RecorderStarts(p, s, m, env.recording))
  {
    match m
    case OfferIn(applied) => OfferRecording(p, s, applied, env);
    case AnswerIn(applied) => AnswerRecording(p, s, applied, env);
    case CandidateIn(present, applied) => CandidateRecording(p, s, present, applied, env);
    case UnmuteResponseIn(accepted) =>
      var a := Alerted(if accepted then UnmuteAccepted else UnmuteDenied);
      CountOne(a, StartRecorder);
      AppendNone(s.log, [a], StartRecorder);
    case EndCallIn => EndCallAddsNone(p, s, true, env.saved, StartRecorder);
    case _ =>
  }

  /** An inbound offer starts the recorder exactly when it is applied on the caller's side and the recorder starts. */
  lemma OfferRecording(p: Params, s: Call, applied: bool, env: Env)
    ensures Count(OnMessage(p, s, OfferIn(applied), env).log, StartRecorder)
            == Count(s.log, StartRecorder) + Flag(s.media.pcPresent && applied && p.isCaller && env.recording.RecStarted?)
  {
    if s.media.pcPresent {
      if applied { AnswerOfferRecording(p, s, env.recording); }
      else { EndCallAddsNone(p, s, false, env.saved, StartRecorder); }
    }
  }

  /** An inbound answer starts the recorder exactly when it is applied on the callee's side and the recorder starts. */
  lemma AnswerRecording(p: Params, s: Call, applied: bool, env: Env)
    ensures Count(OnMessage(p, s, AnswerIn(applied), env).log, StartRecorder)
            == Count(s.log, StartRecorder) + Flag(s.media.pcPresent && applied && !p.isCaller && env.recording.RecStarted?)
  {
    if s.media.pcPresent {
      if applied { AcceptAnswerRecording(p, s, env.recording); }
      else { EndCallAddsNone(p, s, false, env.saved, StartRecorder); }
    }
  }

  /** An inbound candidate never starts the recorder. */
  lemma CandidateRecording(p: Params, s: Call, present: bool, applied: bool, env: Env)
    ensures Count(OnMessage(p, s, CandidateIn(present, applied), env).log, StartRecorder) == Count(s.log, StartRecorder)
  {
    if s.media.pcPresent && present {
      if applied {
        CountOne(CandidateAdded, StartRecorder);
        AppendNone(s.log, [CandidateAdded], StartRecorder);
      } else {
        EndCallAddsNone(p, s, false, env.saved, StartRecorder);
      }
    }
  }

  /** The timer rule: a remote track starts the duration timer exactly when it is the first one. */
  lemma TimerRule(s: Call, streams: Option<Stream>)
    ensures Count(OnTrack(s, streams).log, StartTimer)
            == Count(s.log, StartTimer) + Flag(streams.Some? && !s.progress.callStarted)
  {
    if streams.Some? {
      var tm, b := TimerEffects(s.progress.timerRunning), [AudioRouteStarted, SpeakerSet(true)];
      TrackCounts(s);
      if s.progress.callStarted {
        AppendNone(s.log, b, StartTimer);
        assert OnTrack(s, streams).log == s.log + b;
      } else {
        Regroup3(s.log, tm, b);
        CountConcat(s.log, tm + b, StartTimer);
      }
    }
  }
}
