/**
 * What the handlers put on the wire and which of their effects matter for
 * the call's safety.
 *
 * `Messages` is the sequence of messages a log has sent. `Count` counts the
 * effects of one kind: going back, closing the socket, sending `end_call`
 * or an offer, starting the duration timer or the recorder, creating and
 * closing the peer connection. Each lemma here states what one handler adds
 * to these, so that properties of whole runs follow by adding up.
 */
module CallCounts {

  import opened Wrappers
  import opened Signaling
  import opened CallModel

  function Flag(b: bool): nat {
    if b then 1 else 0
  }

  /** The kinds of effect that are counted. */
  datatype Kind = GoBack | CloseSocket | SendEndCall | SendOffer | StartTimer | StartRecorder | CreatePc | ClosePc

  /** The kind of an effect that is counted, if it is one. */
  function KindOf(e: Effect): Option<Kind> {
    match e
    case NavigatedBack => Some(GoBack)
    case SocketClosed => Some(CloseSocket)
    case Sent(m) => if m.EndCall? then Some(SendEndCall) else if m.Offer? then Some(SendOffer) else None
    case TimerStarted => Some(StartTimer)
    case RecordingStarted => Some(StartRecorder)
    case PcCreated => Some(CreatePc)
    case PcClosed => Some(ClosePc)
    case _ => None
  }

  /** Whether effect `e` is of kind `k`. */
  predicate Is(e: Effect, k: Kind) {
    KindOf(e) == Some(k)
  }

  /** The number of effects of kind `k` in `d`. */
  function Count(d: seq<Effect>, k: Kind): nat {
    if d == [] then 0 else Count(d[..|d| - 1], k) + Flag(Is(d[|d| - 1], k))
  }

  /** The messages `d` sends, in order. */
  function Messages(d: seq<Effect>): seq<Msg> {
    if d == [] then [] else Messages(d[..|d| - 1]) + (if d[|d| - 1].Sent? then [d[|d| - 1].msg] else [])
  }

  /** Counts add up over concatenation. */
  lemma {:induction false} CountConcat(a: seq<Effect>, b: seq<Effect>, k: Kind)
    ensures Count(a + b, k) == Count(a, k) + Count(b, k)
  {
    if b == [] {
      assert a + b == a;
    } else {
      CountConcat(a, b[..|b| - 1], k);
      assert (a + b)[..|a + b| - 1] == a + b[..|b| - 1];
    }
  }

  /** The messages sent by a concatenation are those of the first part, then those of the second. */
  lemma {:induction false} MessagesConcat(a: seq<Effect>, b: seq<Effect>)
    ensures Messages(a + b) == Messages(a) + Messages(b)
  {
    if b == [] {
      assert a + b == a;
    } else {
      MessagesConcat(a, b[..|b| - 1]);
      assert (a + b)[..|a + b| - 1] == a + b[..|b| - 1];
    }
  }

  /** A log with no effect of kind `k` has none at any position. */
  lemma {:induction false} CountZero(d: seq<Effect>, k: Kind, i: nat)
    requires i < |d| && Count(d, k) == 0
    ensures !Is(d[i], k)
  {
    if i < |d| - 1 {
      CountZero(d[..|d| - 1], k, i);
    }
  }

  /** The count and the messages of a one-effect list. */
  lemma CountOne(e: Effect, k: Kind)
    ensures Count([e], k) == Flag(Is(e, k))
    ensures Messages([e]) == if e.Sent? then [e.msg] else []
  {
    assert [e][..0] == [];
  }

  /** A list without counted effects and without messages. */
  predicate Quiet(d: seq<Effect>) {
    && Messages(d) == []
    && forall k: Kind :: Count(d, k) == 0
  }

  /** Appending a quiet list changes neither the counts nor the messages. */
  lemma QuietAppend(a: seq<Effect>, d: seq<Effect>)
    requires Quiet(d)
    ensures Messages(a + d) == Messages(a)
    ensures forall k: Kind :: Count(a + d, k) == Count(a, k)
  {
    MessagesConcat(a, d);
    forall k: Kind ensures Count(a + d, k) == Count(a, k) {
      CountConcat(a, d, k);
    }
  }

  /** One effect that is neither counted nor a message is quiet. */
  lemma QuietOne(e: Effect)
    requires !e.Sent? && !e.NavigatedBack? && !e.SocketClosed? && !e.TimerStarted? && !e.RecordingStarted?
    requires !e.PcCreated? && !e.PcClosed?
    ensures Quiet([e])
  {
    forall k: Kind ensures Count([e], k) == 0 {
      CountOne(e, k);
    }
    CountOne(e, GoBack);
  }

  /** Two quiet lists make a quiet list. */
  lemma QuietConcat(a: seq<Effect>, b: seq<Effect>)
    requires Quiet(a) && Quiet(b)
    ensures Quiet(a + b)
  {
    QuietAppend(a, b);
  }

  /** Stopping tracks is quiet. */
  lemma {:induction false} StopsQuiet(ts: seq<Track>)
    ensures Quiet(StopEffects(ts))
  {
    if ts != [] {
      StopsQuiet(ts[1..]);
      QuietOne(TrackStopped(ts[0].id));
      QuietConcat([TrackStopped(ts[0].id)], StopEffects(ts[1..]));
    }
  }

  /** Stopping and uploading the recording is quiet. */
  lemma RecordingStopsQuiet(isRecording: bool, saved: bool)
    ensures Quiet(RecordingStops(isRecording, saved))
  {
    QuietOne(RecordingStopped);
    QuietOne(RecordingUploaded);
    QuietConcat([RecordingStopped], [RecordingUploaded]);
    QuietConcat([RecordingStopped], []);
  }

  /** The tail of cleanup (audio route, speaker, timer) is quiet. */
  lemma CleanupTailQuiet(timerRunning: bool)
    ensures Quiet([AudioRouteStopped, SpeakerSet(false)] + TimerStops(timerRunning))
  {
    QuietOne(AudioRouteStopped);
    QuietOne(SpeakerSet(false));
    QuietOne(TimerStopped);
    QuietConcat([AudioRouteStopped], [SpeakerSet(false)]);
    assert [AudioRouteStopped] + [SpeakerSet(false)] == [AudioRouteStopped, SpeakerSet(false)];
    QuietConcat([AudioRouteStopped, SpeakerSet(false)], TimerStops(timerRunning));
  }

  /** Stopping the tracks of a stream that may be absent is quiet. */
  lemma StreamStopsQuiet(o: Option<Stream>)
    ensures Quiet(StreamStops(o))
  {
    if o.Some? { StopsQuiet(Tracks(o.value)); }
  }

  /** Closing the peer connection is counted once when there is one, and is otherwise quiet. */
  lemma PcClosesCounts(pcPresent: bool)
    ensures Messages(PcCloses(pcPresent)) == []
    ensures forall k: Kind :: Count(PcCloses(pcPresent), k) == Flag(k == ClosePc && pcPresent)
  {
    if pcPresent {
      CountOne(PcClosed, GoBack);
      forall k: Kind ensures Count([PcClosed], k) == Flag(k == ClosePc) {
        CountOne(PcClosed, k);
      }
    }
  }

  /** The part of cleanup after the peer connection is closed is quiet. */
  lemma CleanupRestQuiet(s: Call)
    ensures Quiet(StreamStops(s.media.localStream) + StreamStops(s.media.remoteStream)
                  + [AudioRouteStopped, SpeakerSet(false)] + TimerStops(s.progress.timerRunning))
  {
    var d3, d4 := StreamStops(s.media.localStream), StreamStops(s.media.remoteStream);
    var d5, d6 := [AudioRouteStopped, SpeakerSet(false)], TimerStops(s.progress.timerRunning);
    StreamStopsQuiet(s.media.localStream);
    StreamStopsQuiet(s.media.remoteStream);
    CleanupTailQuiet(s.progress.timerRunning);
    QuietConcat(d3, d4);
    QuietConcat(d3 + d4, d5 + d6);
    assert d3 + d4 + (d5 + d6) == d3 + d4 + d5 + d6;
  }

  /** Regrouping a concatenation of six lists. */
  lemma Regroup<T>(a: seq<T>, b: seq<T>, c: seq<T>, d: seq<T>, e: seq<T>, f: seq<T>)
    ensures a + b + c + d + e + f == a + (b + (c + d + e + f))
  {
  }

  /** Everything cleanup does is quiet, except closing the peer connection when there is one. */
  lemma CleanupCounts(s: Call, saved: bool)
    ensures Messages(CleanupEffects(s, saved)) == []
    ensures forall k: Kind :: Count(CleanupEffects(s, saved), k) == Flag(k == ClosePc && s.media.pcPresent)
  {
    var d1, d2 := RecordingStops(s.progress.isRecording, saved), PcCloses(s.media.pcPresent);
    var rest := StreamStops(s.media.localStream) + StreamStops(s.media.remoteStream)
                + [AudioRouteStopped, SpeakerSet(false)] + TimerStops(s.progress.timerRunning);
    RecordingStopsQuiet(s.progress.isRecording, saved);
    PcClosesCounts(s.media.pcPresent);
    CleanupRestQuiet(s);
    QuietAppend(d2, rest);
    Regroup(d1, d2, StreamStops(s.media.localStream), StreamStops(s.media.remoteStream),
            [AudioRouteStopped, SpeakerSet(false)], TimerStops(s.progress.timerRunning));
    MessagesConcat(d1, d2 + rest);
    forall k: Kind ensures Count(CleanupEffects(s, saved), k) == Flag(k == ClosePc && s.media.pcPresent) {
      CountConcat(d1, d2 + rest, k);
    }
  }

  /** Every count of a one-effect list, and the message it sends. */
  lemma CountsOne(e: Effect)
    ensures Messages([e]) == if e.Sent? then [e.msg] else []
    ensures forall k: Kind :: Count([e], k) == Flag(Is(e, k))
  {
    CountOne(e, GoBack);
    forall k: Kind ensures Count([e], k) == Flag(Is(e, k)) {
      CountOne(e, k);
    }
  }

  /** A message the screen may send in the call `p`: from the local user to the other one, under the local role. */
  predicate FromThisCall(p: Params, m: Msg) {
    match m
    case Join(userId, role) => userId == p.currentUserId && role == p.callerRole
    case CallAccepted(from, to) => !p.isCaller && from == p.currentUserId && to == p.otherUserId
    case CallRejected(_, _) => false
    case Offer(target) => p.isCaller && target == p.otherUserId
    case Answer(target) => target == p.otherUserId
    case Candidate(target) => target == p.otherUserId
    case EndCall(from, to, endedBy) => from == p.currentUserId && to == p.otherUserId && endedBy == p.callerRole
    case MuteStatus(from, to, _) => from == p.currentUserId && to == p.otherUserId
    case UnmuteRequest(from, to) => from == p.currentUserId && to == p.otherUserId
    case UnmuteResponse(from, to, _) => from == p.currentUserId && to == p.otherUserId
  }

  /** Every message of `ms` belongs to the call `p`. */
  predicate AllFromThisCall(p: Params, ms: seq<Msg>) {
    forall i | 0 <= i < |ms| :: FromThisCall(p, ms[i])
  }

  lemma AllFromThisCallConcat(p: Params, a: seq<Msg>, b: seq<Msg>)
    requires AllFromThisCall(p, a) && AllFromThisCall(p, b)
    ensures AllFromThisCall(p, a + b)
  {
    forall i | 0 <= i < |a + b| ensures FromThisCall(p, (a + b)[i]) {
      if i >= |a| { assert (a + b)[i] == b[i - |a|]; }
    }
  }

  /**
   * A callee never sends an offer, and a caller never sends `call_accepted`:
   * a log whose messages all belong to the call counts no offer unless the
   * local side is the caller.
   */
  lemma {:induction false} CalleeSendsNoOffer(p: Params, d: seq<Effect>)
    requires AllFromThisCall(p, Messages(d))
    ensures !p.isCaller ==> Count(d, SendOffer) == 0
    ensures p.isCaller ==> forall i | 0 <= i < |Messages(d)| :: !Messages(d)[i].CallAccepted?
  {
    if d != [] {
      var a, e := d[..|d| - 1], d[|d| - 1];
      assert d == a + [e];
      MessagesConcat(a, [e]);
      CountConcat(a, [e], SendOffer);
      CountOne(e, SendOffer);
      assert AllFromThisCall(p, Messages(a)) by {
        forall i | 0 <= i < |Messages(a)| ensures FromThisCall(p, Messages(a)[i]) {
          assert Messages(d)[i] == Messages(a)[i];
        }
      }
      CalleeSendsNoOffer(p, a);
      if e.Sent? {
        assert Messages(d)[|Messages(a)|] == e.msg;
      }
    }
  }

  /** Effects that send only messages of the call and change no count except the recorder's. */
  predicate Neutral(p: Params, d: seq<Effect>) {
    && AllFromThisCall(p, Messages(d))
    && forall k: Kind | k != StartRecorder :: Count(d, k) == 0
  }

  lemma QuietNeutral(p: Params, d: seq<Effect>)
    requires Quiet(d)
    ensures Neutral(p, d)
  {
  }

  lemma NeutralConcat(p: Params, a: seq<Effect>, b: seq<Effect>)
    requires Neutral(p, a) && Neutral(p, b)
    ensures Neutral(p, a + b)
  {
    MessagesConcat(a, b);
    AllFromThisCallConcat(p, Messages(a), Messages(b));
    forall k: Kind | k != StartRecorder ensures Count(a + b, k) == 0 {
      CountConcat(a, b, k);
    }
  }

  /** Sending a message of the call that is neither an offer nor `end_call` is neutral. */
  lemma NeutralSent(p: Params, m: Msg)
    requires FromThisCall(p, m) && !m.Offer? && !m.EndCall?
    ensures Neutral(p, [Sent(m)])
  {
    CountsOne(Sent(m));
  }

  /** The same send, when it goes out only over an open socket. */
  lemma NeutralOut(p: Params, ws: Sock, m: Msg)
    requires FromThisCall(p, m) && !m.Offer? && !m.EndCall?
    ensures Neutral(p, Out(ws, m))
  {
    if IsOpen(ws) { NeutralSent(p, m); }
  }

  /** Starting the recorder is neutral. */
  lemma NeutralRecording(p: Params, rec: RecordingStart)
    ensures Neutral(p, RecordingEffects(rec))
  {
    match rec
    case RecStarted => CountsOne(RecordingStarted);
    case RecSkipped =>
    case RecFailed => CountsOne(Alerted(RecordingError));
  }

  /** One effect that neither sends nor is counted is neutral. */
  lemma NeutralOne(p: Params, e: Effect)
    requires !e.Sent? && !e.NavigatedBack? && !e.SocketClosed? && !e.TimerStarted?
    requires !e.PcCreated? && !e.PcClosed?
    ensures Neutral(p, [e])
  {
    CountsOne(e);
  }

  /** Counts and messages of four lists in a row. */
  lemma Sum4(a: seq<Effect>, b: seq<Effect>, c: seq<Effect>, d: seq<Effect>)
    ensures Messages(a + b + c + d) == Messages(a) + Messages(b) + Messages(c) + Messages(d)
    ensures forall k: Kind :: Count(a + b + c + d, k) == Count(a, k) + Count(b, k) + Count(c, k) + Count(d, k)
  {
    MessagesConcat(a, b);
    MessagesConcat(a + b, c);
    MessagesConcat(a + b + c, d);
    forall k: Kind ensures Count(a + b + c + d, k) == Count(a, k) + Count(b, k) + Count(c, k) + Count(d, k) {
      CountConcat(a, b, k);
      CountConcat(a + b, c, k);
      CountConcat(a + b + c, d, k);
    }
  }

  /** How much `endCall`'s effects add to the count of kind `k`. */
  function EndDelta(s: Call, remoteEnded: bool, k: Kind): nat {
    Flag(k == ClosePc && s.media.pcPresent) + Flag(k == SendEndCall && !remoteEnded && IsOpen(s.ws))
    + Flag(k == CloseSocket && s.ws.Sock?) + Flag(k == GoBack)
  }

  /** The `end_call` send adds one `end_call` exactly when the end is local and the socket is open. */
  lemma EndSendCounts(p: Params, s: Call, remoteEnded: bool)
    ensures var d := if remoteEnded then [] else Out(s.ws, EndCallMessage(p));
      && Messages(d) == (if !remoteEnded && IsOpen(s.ws) then [EndCallMessage(p)] else [])
      && forall k: Kind :: Count(d, k) == Flag(k == SendEndCall && !remoteEnded && IsOpen(s.ws))
  {
    if !remoteEnded && IsOpen(s.ws) { CountsOne(Sent(EndCallMessage(p))); }
  }

  /** Closing the socket is counted once when there is a socket. */
  lemma SocketCloseCounts(ws: Sock)
    ensures var d := if ws.Sock? then [SocketClosed] else [];
      && Messages(d) == []
      && forall k: Kind :: Count(d, k) == Flag(k == CloseSocket && ws.Sock?)
  {
    CountsOne(SocketClosed);
  }

  /** The end notice goes back exactly once and sends nothing. */
  lemma NoticeCounts(p: Params, remoteEnded: bool)
    ensures Messages(EndNotice(p, remoteEnded)) == []
    ensures forall k: Kind :: Count(EndNotice(p, remoteEnded), k) == Flag(k == GoBack)
  {
    var a := Alerted(CallEndedBy(p.callerRole));
    CountsOne(NavigatedBack);
    if remoteEnded {
      CountsOne(a);
      MessagesConcat([a], [NavigatedBack]);
      assert EndNotice(p, remoteEnded) == [a] + [NavigatedBack];
      forall k: Kind ensures Count([a] + [NavigatedBack], k) == Flag(k == GoBack) {
        CountConcat([a], [NavigatedBack], k);
      }
    }
  }

  /** The four parts of `endCall`'s effects add up to `EndDelta`. */
  lemma EndDeltaSum(c: seq<Effect>, m: seq<Effect>, x: seq<Effect>, n: seq<Effect>, s: Call, remoteEnded: bool, k: Kind)
    requires forall k: Kind :: Count(c, k) == Flag(k == ClosePc && s.media.pcPresent)
    requires forall k: Kind :: Count(m, k) == Flag(k == SendEndCall && !remoteEnded && IsOpen(s.ws))
    requires forall k: Kind :: Count(x, k) == Flag(k == CloseSocket && s.ws.Sock?)
    requires forall k: Kind :: Count(n, k) == Flag(k == GoBack)
    ensures Count(c + m + x + n, k) == EndDelta(s, remoteEnded, k)
  {
    Sum4(c, m, x, n);
  }

  /**
   * What `endCall` adds to each count, once past its guard: one navigation
   * back, a socket close when there is a socket, `end_call` exactly when the
   * end is local and the socket is open, and a peer-connection close when
   * there is one.
   */
  lemma EndCallCounts(p: Params, s: Call, remoteEnded: bool, saved: bool, k: Kind)
    ensures Count(EndCallEffects(p, s, remoteEnded, saved), k) == EndDelta(s, remoteEnded, k)
  {
    var c := CleanupEffects(s, saved);
    var m := if remoteEnded then [] else Out(s.ws, EndCallMessage(p));
    var x := if s.ws.Sock? then [SocketClosed] else [];
    var n := EndNotice(p, remoteEnded);
    CleanupCounts(s, saved);
    EndSendCounts(p, s, remoteEnded);
    SocketCloseCounts(s.ws);
    NoticeCounts(p, remoteEnded);
    EndDeltaSum(c, m, x, n, s, remoteEnded, k);
  }

  /** The only message `endCall` sends is this call's `end_call`, when the end is local and the socket is open. */
  lemma EndCallMessages(p: Params, s: Call, remoteEnded: bool, saved: bool)
    ensures Messages(EndCallEffects(p, s, remoteEnded, saved))
            == if !remoteEnded && IsOpen(s.ws) then [EndCallMessage(p)] else []
  {
    var c := CleanupEffects(s, saved);
    var m := if remoteEnded then [] else Out(s.ws, EndCallMessage(p));
    var x := if s.ws.Sock? then [SocketClosed] else [];
    var n := EndNotice(p, remoteEnded);
    CleanupCounts(s, saved);
    EndSendCounts(p, s, remoteEnded);
    SocketCloseCounts(s.ws);
    NoticeCounts(p, remoteEnded);
    Sum4(c, m, x, n);
  }
}
