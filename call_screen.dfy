/**
 * The video-call screen as the object it is at run time: the refs and state
 * hooks are fields, and every handler updates them in place. Each method is
 * proved to leave the screen in the state the value model of its handler
 * gives, so everything proved about the value model (the handler lemmas and
 * the run invariant) holds of the screen.
 */
module VideoCall {

  import opened Wrappers
  import opened Signaling
  import opened CallModel
  import CallTrace

  class CallScreen {
    /** The route parameters. */
    const params: Params
    /** `hasEndedCall.current`. */
    var hasEnded: bool
    /** `ws.current`. */
    var ws: Sock
    /** `pc.current`, `localStream` and `remoteStream`. */
    var media: Media
    /** `status`, `callConnected`, `callStartRef.current`, `durationInterval.current`, `isRecording`. */
    var progress: Progress
    /** `isMuted`, `isVideoOn`, `isFrontCamera`, `isSpeakerOn`. */
    var controls: Controls
    /** `isRemoteMuted`, `showUnmuteRequest`, `showUnmuteModal`. */
    var unmute: UnmuteView
    /** Every outbound effect so far. */
    var log: seq<Effect>

    /** The screen as a value of the model. */
    function State(): Call
      reads this
    {
      Call(hasEnded, ws, media, progress, controls, unmute, log)
    }

    /** The screen is mounted and `setupWebSocket` has created the socket. */
    constructor(p: Params)
      ensures params == p && State() == Initial(p)
    {
      params := p;
      hasEnded := false;
      ws := Sock(Connecting);
      media := NoMedia;
      progress := Progress(if p.isCaller then CallingText else ConnectingText, false, false, false, false);
      controls := Controls(false, true, true, true);
      unmute := UnmuteView(false, false, false);
      log := [];
    }

    /** `track.stop()` on each track, one after the other. */
    method StopTracks(ts: seq<Track>)
      modifies this
      ensures log == old(log) + StopEffects(ts)
      ensures State() == old(State()).(log := log)
    {
      var i := 0;
      while i < |ts|
        invariant 0 <= i <= |ts|
        invariant log == old(log) + StopEffects(ts[..i])
        invariant State() == old(State()).(log := log)
      {
        StopEffectsSnoc(ts, i);
        log := log + [TrackStopped(ts[i].id)];
        i := i + 1;
      }
      assert ts[..i] == ts;
    }

    /** `stopRecording`, then `uploadAudioRecording` when a file came back. */
    method StopRecording(saved: bool)
      modifies this
      ensures log == old(log) + RecordingStops(old(progress.isRecording), saved)
      ensures progress == old(progress).(isRecording := false)
      ensures hasEnded == old(hasEnded) && ws == old(ws) && media == old(media)
      ensures controls == old(controls) && unmute == old(unmute)
    {
      if progress.isRecording {
        log := log + [RecordingStopped];
        if saved {
          log := log + [RecordingUploaded];
        }
        progress := progress.(isRecording := false);
      }
    }

    /** `pc.current.close()`, and the ref is cleared. */
    method ClosePeer()
      modifies this
      ensures log == old(log) + PcCloses(old(media.pcPresent))
      ensures media == old(media).(pcPresent := false)
      ensures hasEnded == old(hasEnded) && ws == old(ws) && progress == old(progress)
      ensures controls == old(controls) && unmute == old(unmute)
    {
      if media.pcPresent {
        log := log + [PcClosed];
        media := media.(pcPresent := false);
      }
    }

    /** Stop every track of the local stream and drop it. */
    method StopLocal()
      modifies this
      ensures log == old(log) + StreamStops(old(media.localStream))
      ensures media == old(media).(localStream := None)
      ensures hasEnded == old(hasEnded) && ws == old(ws) && progress == old(progress)
      ensures controls == old(controls) && unmute == old(unmute)
    {
      if media.localStream.Some? {
        StopTracks(Tracks(media.localStream.value));
        media := media.(localStream := None);
      }
    }

    /** Stop every track of the remote stream and drop it. */
    method StopRemote()
      modifies this
      ensures log == old(log) + StreamStops(old(media.remoteStream))
      ensures media == old(media).(remoteStream := None)
      ensures hasEnded == old(hasEnded) && ws == old(ws) && progress == old(progress)
      ensures controls == old(controls) && unmute == old(unmute)
    {
      if media.remoteStream.Some? {
        StopTracks(Tracks(media.remoteStream.value));
        media := media.(remoteStream := None);
      }
    }

    /** `cleanupResources`. */
    method CleanupResources(saved: bool)
      modifies this
      ensures State() == CallModel.CleanupResources(old(State()), saved)
    {
      ghost var s := State();
      StopRecording(saved);
      ClosePeer();
      StopLocal();
      StopRemote();
      log := log + [AudioRouteStopped, SpeakerSet(false)];
      StopTimer();
      AppendSix(s.log, RecordingStops(s.progress.isRecording, saved), PcCloses(s.media.pcPresent),
                StreamStops(s.media.localStream), StreamStops(s.media.remoteStream),
                [AudioRouteStopped, SpeakerSet(false)], TimerStops(s.progress.timerRunning));
    }

    /** `stopDurationTimer`. */
    method StopTimer()
      modifies this
      ensures log == old(log) + TimerStops(old(progress.timerRunning))
      ensures progress == old(progress).(timerRunning := false)
      ensures hasEnded == old(hasEnded) && ws == old(ws) && media == old(media)
      ensures controls == old(controls) && unmute == old(unmute)
    {
      if progress.timerRunning {
        log := log + [TimerStopped];
        progress := progress.(timerRunning := false);
      }
    }

    /** `endCall(remoteEnded)`. */
    method EndCall(remoteEnded: bool, saved: bool)
      modifies this
      ensures State() == CallModel.EndCall(params, old(State()), remoteEnded, saved)
    {
      if hasEnded {
        return;
      }
      ghost var s := State();
      hasEnded := true;
      CleanupResources(saved);
      assert log == s.log + CleanupEffects(s, saved);
      SendEndCall(remoteEnded);
      CloseSocket();
      Notify(remoteEnded);
      AppendFour(s.log, CleanupEffects(s, saved), if remoteEnded then [] else Out(s.ws, EndCallMessage(params)),
                 if s.ws.Sock? then [SocketClosed] else [], EndNotice(params, remoteEnded));
    }

    /** The `end_call` send of a local end, on an open socket only. */
    method SendEndCall(remoteEnded: bool)
      modifies this
      ensures log == old(log) + (if remoteEnded then [] else Out(ws, EndCallMessage(params)))
      ensures hasEnded == old(hasEnded) && ws == old(ws) && media == old(media) && progress == old(progress)
      ensures controls == old(controls) && unmute == old(unmute)
    {
      if !remoteEnded && IsOpen(ws) {
        log := log + [Sent(EndCallMessage(params))];
      }
    }

    /** `ws.current.close()`, and the ref is cleared. */
    method CloseSocket()
      modifies this
      ensures log == old(log) + (if old(ws).Sock? then [SocketClosed] else [])
      ensures ws == NoSocket
      ensures hasEnded == old(hasEnded) && media == old(media) && progress == old(progress)
      ensures controls == old(controls) && unmute == old(unmute)
    {
      if ws.Sock? {
        log := log + [SocketClosed];
        ws := NoSocket;
      }
    }

    /** Go back, after the "call ended" alert when the other side ended the call. */
    method Notify(remoteEnded: bool)
      modifies this
      ensures log == old(log) + EndNotice(params, remoteEnded)
      ensures hasEnded == old(hasEnded) && ws == old(ws) && media == old(media) && progress == old(progress)
      ensures controls == old(controls) && unmute == old(unmute)
    {
      if remoteEnded {
        log := log + [Alerted(CallEndedBy(params.callerRole))];
      }
      log := log + [NavigatedBack];
    }

    /** `toggleMute`: the first audio track is flipped in place. */
    method ToggleMute()
      modifies this
      ensures State() == CallModel.ToggleMute(params, old(State()))
    {
      if media.localStream.Some? {
        var st := media.localStream.value;
        if |st.audio| > 0 {
          var track := st.audio[0].(enabled := !st.audio[0].enabled);
          media := media.(localStream := Some(st.(audio := st.audio[0 := track])));
          var newMuteStatus := !track.enabled;
          controls := controls.(isMuted := newMuteStatus);
          if IsOpen(ws) {
            log := log + [Sent(MuteStatus(params.currentUserId, params.otherUserId, newMuteStatus))];
          }
        }
      }
    }

    /** `toggleVideo`: the first video track is flipped in place. */
    method ToggleVideo()
      modifies this
      ensures State() == CallModel.ToggleVideo(old(State()))
    {
      if media.localStream.Some? {
        var st := media.localStream.value;
        if |st.video| > 0 {
          var track := st.video[0].(enabled := !st.video[0].enabled);
          media := media.(localStream := Some(st.(video := st.video[0 := track])));
          controls := controls.(isVideoOn := track.enabled);
        }
      }
    }

    /** `toggleSpeaker`. */
    method ToggleSpeaker()
      modifies this
      ensures State() == CallModel.ToggleSpeaker(old(State()))
    {
      var newState := !controls.isSpeakerOn;
      log := log + [SpeakerSet(newState)];
      controls := controls.(isSpeakerOn := newState);
    }

    /** `requestUnmute`. */
    method RequestUnmute()
      modifies this
      ensures State() == CallModel.RequestUnmute(params, old(State()))
    {
      if IsOpen(ws) {
        log := log + [Sent(UnmuteRequest(params.currentUserId, params.otherUserId))];
        unmute := unmute.(showUnmuteRequest := false);
      }
    }

    /** `handleUnmuteRequest(accept)`. */
    method HandleUnmuteRequest(accept: bool)
      modifies this
      ensures State() == CallModel.HandleUnmuteRequest(params, old(State()), accept)
    {
      unmute := unmute.(showUnmuteModal := false);
      if IsOpen(ws) {
        log := log + [Sent(UnmuteResponse(params.currentUserId, params.otherUserId, accept))];
        if accept {
          ToggleMute();
        }
      }
    }

    /** The "Request Unmute" button. */
    method PressRequestUnmute()
      modifies this
      ensures State() == CallModel.PressRequestUnmute(old(State()))
    {
      unmute := unmute.(showUnmuteRequest := true);
    }

    /** `startRecording`, with the outcome of the recorder calls. */
    method StartRecording(rec: RecordingStart)
      modifies this
      ensures State() == CallModel.StartRecording(old(State()), rec)
    {
      match rec
      case RecStarted =>
        log := log + [RecordingStarted];
        progress := progress.(isRecording := true);
      case RecSkipped =>
      case RecFailed =>
        log := log + [Alerted(RecordingError)];
    }

    /** `ws.onmessage`. */
    method OnMessage(m: Inbound, env: Env)
      modifies this
      ensures State() == CallModel.OnMessage(params, old(State()), m, env)
    {
      match m
      case Unparsable =>
      case OfferIn(applied) =>
        if !media.pcPresent { return; }
        if !applied { EndCall(false, env.saved); return; }
        log := log + [RemoteOfferApplied] + Out(ws, Answer(params.otherUserId));
        progress := progress.(status := ConnectedText, callConnected := true);
        if params.isCaller { StartRecording(env.recording); }
      case AnswerIn(applied) =>
        if !media.pcPresent { return; }
        if !applied { EndCall(false, env.saved); return; }
        log := log + [RemoteAnswerApplied];
        progress := progress.(status := ConnectedText, callConnected := true);
        if !params.isCaller { StartRecording(env.recording); }
      case CandidateIn(present, applied) =>
        if media.pcPresent && present {
          if applied { log := log + [CandidateAdded]; } else { EndCall(false, env.saved); }
        }
      case MuteStatusIn(muted) =>
        unmute := unmute.(isRemoteMuted := muted, showUnmuteRequest := false);
      case UnmuteRequestIn =>
        if controls.isMuted { unmute := unmute.(showUnmuteModal := true); }
      case UnmuteResponseIn(accepted) =>
        log := log + [Alerted(if accepted then UnmuteAccepted else UnmuteDenied)];
      case EndCallIn => EndCall(true, env.saved);
      case OtherIn =>
    }

    /** The catch blocks of `setupMedia`: alert, then end the call. */
    method FailAndEnd(alert: Alert, saved: bool)
      modifies this
      ensures State() == CallModel.FailAndEnd(params, old(State()), alert, saved)
    {
      log := log + [Alerted(alert)];
      EndCall(false, saved);
    }

    /** `new RTCPeerConnection` unless there is one already. */
    method CreatePeer()
      modifies this
      ensures log == old(log) + (if old(media.pcPresent) then [] else [PcCreated])
      ensures media == old(media).(pcPresent := true)
      ensures hasEnded == old(hasEnded) && ws == old(ws) && progress == old(progress)
      ensures controls == old(controls) && unmute == old(unmute)
    {
      if !media.pcPresent {
        log := log + [PcCreated];
        media := media.(pcPresent := true);
      }
    }

    /** `setupMedia`, with the outcomes of the permission request, `getUserMedia` and `createOffer`. */
    method SetupMedia(outcome: MediaOutcome, saved: bool)
      modifies this
      ensures State() == CallModel.SetupMedia(params, old(State()), outcome, saved)
    {
      match outcome
      case PermissionDenied => FailAndEnd(PermissionsRequired, saved);
      case CaptureFailed => FailAndEnd(MediaError, saved);
      case Captured(audioId, videoId, offerCreated) =>
        ghost var s := State();
        var makesOffer := params.isCaller && !progress.callConnected;
        var open := ws;
        CreatePeer();
        media := media.(localStream := Some(CapturedStream(audioId, videoId)));
        assert State() == CallTrace.CapturedState(s, audioId, videoId);
        if makesOffer {
          if offerCreated {
            log := log + Out(open, Offer(params.otherUserId));
          } else {
            FailAndEnd(MediaError, saved);
          }
        }
    }

    /** `ws.onopen`. */
    method OnOpen(outcome: MediaOutcome, saved: bool)
      modifies this
      ensures State() == CallModel.OnOpen(params, old(State()), outcome, saved)
    {
      ws := Sock(Open);
      log := log + [Sent(Join(params.currentUserId, params.callerRole))];
      if !params.isCaller {
        log := log + [Sent(CallAccepted(params.currentUserId, params.otherUserId))];
      }
      ghost var s1 := State();
      assert s1 == CallTrace.Opened(params, old(State()));
      SetupMedia(outcome, saved);
      assert State() == CallModel.SetupMedia(params, s1, outcome, saved);
    }

    /** `ws.onerror`: the socket has closed by now. */
    method OnError(saved: bool)
      modifies this
      ensures State() == CallModel.OnError(params, old(State()), saved)
    {
      ws := ClosedSock(ws);
      log := log + [Alerted(ConnectionError)];
      EndCall(false, saved);
    }

    /** `ws.onclose`. */
    method OnClose(saved: bool)
      modifies this
      ensures State() == CallModel.OnClose(params, old(State()), saved)
    {
      if !hasEnded {
        ws := ClosedSock(ws);
        EndCall(false, saved);
      }
    }

    /** The peer connection's `ontrack`. */
    method OnTrack(streams: Option<Stream>)
      modifies this
      ensures State() == CallModel.OnTrack(old(State()), streams)
    {
      if streams.Some? {
        media := media.(remoteStream := streams);
        progress := progress.(status := ConnectedText, callConnected := true);
        if !progress.callStarted {
          StopTimer();
          log := log + [TimerStarted];
          progress := progress.(callStarted := true, timerRunning := true);
        }
        log := log + [AudioRouteStarted, SpeakerSet(true)];
      }
    }

    /** The peer connection's `onicecandidate`. */
    method OnIceCandidate(present: bool)
      modifies this
      ensures State() == CallModel.OnIceCandidate(params, old(State()), present)
    {
      if present {
        log := log + Out(ws, Candidate(params.otherUserId));
      }
    }

    /** `switchCamera`, with the track swap it intends: the old video tracks are stopped and removed. */
    method SwitchCamera(cam: CameraOutcome)
      modifies this
      ensures State() == CallModel.SwitchCamera(old(State()), cam)
    {
      if media.localStream.None? {
        return;
      }
      var st := media.localStream.value;
      controls := controls.(isFrontCamera := !controls.isFrontCamera);
      match cam
      case CameraFailed =>
      case CameraCaptured(v) =>
        if media.pcPresent {
          log := log + [VideoSenderReplaced(v)];
        }
        StopTracks(st.video);
        media := media.(localStream := Some(WithVideo(st, Track(v, controls.isVideoOn, true))));
    }

    /** Unmounting: `cleanupResources`, then `endCall` unless the call has ended. */
    method Unmount(saved: bool)
      modifies this
      ensures State() == CallModel.Unmount(params, old(State()), saved)
    {
      CleanupResources(saved);
      if !hasEnded {
        EndCall(false, saved);
      }
    }

    /** Run the handler an event triggers. */
    method Dispatch(e: CallTrace.Event, env: Env)
      modifies this
      ensures State() == CallTrace.Step(params, old(State()), e, env)
    {
      match e
      case WsOpen(outcome) => OnOpen(outcome, env.saved);
      case WsMessage(m) => OnMessage(m, env);
      case WsError => OnError(env.saved);
      case WsClose => OnClose(env.saved);
      case PcTrack(streams) => OnTrack(streams);
      case PcIceCandidate(present) => OnIceCandidate(present);
      case MutePressed => ToggleMute();
      case VideoPressed => ToggleVideo();
      case SpeakerPressed => ToggleSpeaker();
      case CameraPressed(cam) => SwitchCamera(cam);
      case EndPressed => EndCall(false, env.saved);
      case RequestUnmutePressed => PressRequestUnmute();
      case UnmuteAnswered(accept) => HandleUnmuteRequest(accept);
      case Unmounted => Unmount(env.saved);
    }

    /**
     * Deliver one event. The screen keeps the run invariant: whatever the
     * platform delivers, teardown stays at most once and the buttons keep
     * showing what the other side gets.
     */
    method Handle(e: CallTrace.Event, env: Env)
      requires CallTrace.Inv(params, State()) && CallTrace.Delivered(params, State(), e)
      modifies this
      ensures State() == CallTrace.Step(params, old(State()), e, env)
      ensures CallTrace.Inv(params, State())
    {
      CallTrace.StepKeepsInv(params, State(), e, env);
      Dispatch(e, env);
    }
  }

  /** Appending six pieces one after the other appends their concatenation. */
  lemma AppendSix<T>(l: seq<T>, a: seq<T>, b: seq<T>, c: seq<T>, d: seq<T>, e: seq<T>, f: seq<T>)
    ensures l + a + b + c + d + e + f == l + (a + b + c + d + e + f)
  {
  }

  /** Appending four pieces one after the other appends their concatenation. */
  lemma AppendFour<T>(l: seq<T>, a: seq<T>, b: seq<T>, c: seq<T>, d: seq<T>)
    ensures l + a + b + c + d == l + (a + b + c + d)
  {
  }

  /** Stopping one more track appends its stop. */
  lemma StopEffectsSnoc(ts: seq<Track>, i: nat)
    requires i < |ts|
    ensures StopEffects(ts[..i + 1]) == StopEffects(ts[..i]) + [TrackStopped(ts[i].id)]
  {
    var a, b := StopEffects(ts[..i + 1]), StopEffects(ts[..i]) + [TrackStopped(ts[i].id)];
    assert |a| == |b|;
    forall j | 0 <= j < |a| ensures a[j] == b[j] {
      if j < i { assert ts[..i + 1][j] == ts[..i][j]; }
    }
  }
}

