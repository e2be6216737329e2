/**
 * The home screen's incoming-call state as values: the logged-in user, the
 * `incomingCallFrom` and `callerName` state, the signaling socket, and the
 * effects the screen has had so far (messages sent, navigations, alerts).
 * One function per handler; the properties the handlers promise are lemmas.
 */
module HomeModel {

  import opened Wrappers
  import opened Signaling
  import opened JsNumbers

  /** The route parameters of the home screen. */
  datatype User = User(id: int, username: string, role: Role)

  /** The parameters `navigate('VideoCallScreen', …)` passes. */
  datatype CallRoute = CallRoute(currentUserId: string, otherUserId: string, isCaller: bool,
                                 otherUserName: string, callerRole: Role)

  /** The home screen's alerts, one per message text. */
  datatype HomeAlert = FetchUsersFailed | CallRejectedAlert | CouldNotInitiate

  /** What the home screen has done that others can observe. */
  datatype HomeEffect =
    | UsersRequested(role: Role)    // GET /api/users/role-view?role=…
    | CallStartPosted(callerId: int, receiverId: int, callerName: string)
    | HomeSent(m: Msg)
    | Navigated(route: CallRoute)
    | HomeAlerted(alert: HomeAlert)
    | HomeSocketClosed

  /** The state the handlers read and write. */
  datatype Home = Home(incomingCallFrom: Option<string>, callerName: string, ws: Sock, log: seq<HomeEffect>)

  /** A parsed inbound message: only the two types the screen reacts to are told apart. */
  datatype HomeInbound =
    | HomeUnparsable                                          // JSON.parse threw
    | IncomingCall(from: Option<string>, name: Option<string>)
    | CallRejectedIn
    | HomeOtherIn

  /** JavaScript truthiness of a `string | null`: the empty string is falsy. */
  predicate Truthy(o: Option<string>) {
    o.Some? && o.value != ""
  }

  /** `role === 'DOCTOR' ? 'PATIENT' : 'DOCTOR'`: the role whose users the list shows. */
  function OppositeRole(r: Role): (o: Role)
    ensures o != r
  {
    if r == Doctor then Patient else Doctor
  }

  /** The screen as it stands once the mount effect has run: the user list is requested and a socket created. */
  function Mounted(u: User): Home {
    Home(None, "", Sock(Connecting), [UsersRequested(OppositeRole(u.role))])
  }

  /** `fetchUsers` failing: an error alert. */
  function UsersFailed(s: Home): (t: Home)
    ensures t.log == s.log + [HomeAlerted(FetchUsersFailed)]
    ensures t.incomingCallFrom == s.incomingCallFrom && t.ws == s.ws
  {
    s.(log := s.log + [HomeAlerted(FetchUsersFailed)])
  }

  /** `data.callerName || 'Unknown'`. */
  function ShownName(name: Option<string>): (n: string)
    ensures n == "Unknown" <==> !Truthy(name) || name.value == "Unknown"
    ensures Truthy(name) ==> n == name.value
  {
    if Truthy(name) then name.value else "Unknown"
  }

  /**
   * `ws.onmessage`: `incoming_call` records who calls and their name,
   * `call_rejected` alerts and clears the incoming call, and anything else,
   * including a message that does not parse, changes nothing.
   */
  function OnMessage(s: Home, m: HomeInbound): Home {
    match m
    case IncomingCall(from, name) => s.(callerName := ShownName(name), incomingCallFrom := from)
    case CallRejectedIn => s.(incomingCallFrom := None, log := s.log + [HomeAlerted(CallRejectedAlert)])
    case HomeUnparsable => s
    case HomeOtherIn => s
  }

  /** `<Modal visible={!!incomingCallFrom}>`. */
  predicate ModalVisible(s: Home) {
    Truthy(s.incomingCallFrom)
  }

  /** The inbound cases: the modal shows exactly the incoming call's sender, a rejection hides it. */
  lemma OnMessageSpec(s: Home, m: HomeInbound)
    ensures m.IncomingCall? ==> (ModalVisible(OnMessage(s, m)) <==> Truthy(m.from))
    ensures m.IncomingCall? ==> OnMessage(s, m).incomingCallFrom == m.from && OnMessage(s, m).log == s.log
    ensures m.IncomingCall? && Truthy(m.name) ==> OnMessage(s, m).callerName == m.name.value
    ensures m.IncomingCall? && !Truthy(m.name) ==> OnMessage(s, m).callerName == "Unknown"
    ensures m.CallRejectedIn? ==> !ModalVisible(OnMessage(s, m))
    ensures m.CallRejectedIn? ==> OnMessage(s, m).log == s.log + [HomeAlerted(CallRejectedAlert)]
    ensures m.HomeUnparsable? || m.HomeOtherIn? ==> OnMessage(s, m) == s
  {
  }

  /** The route `acceptCall` navigates to: as callee, to whoever is calling, with the caller role fixed to DOCTOR. */
  function AcceptRoute(u: User, s: Home): CallRoute
    requires s.incomingCallFrom.Some?
  {
    CallRoute(IntString(u.id), s.incomingCallFrom.value, false, s.callerName, Doctor)
  }

  /** `acceptCall`: nothing without an incoming call; otherwise join it as callee and clear it. */
  function AcceptCall(u: User, s: Home): (t: Home)
    ensures !ModalVisible(s) ==> t == s
    ensures ModalVisible(s) ==> t.log == s.log + [Navigated(AcceptRoute(u, s))]
    ensures !ModalVisible(t) && t.ws == s.ws
  {
    if !Truthy(s.incomingCallFrom) then s
    else s.(log := s.log + [Navigated(AcceptRoute(u, s))], incomingCallFrom := None)
  }

  /** Accepting twice navigates once. */
  lemma AcceptOnce(u: User, s: Home)
    ensures AcceptCall(u, AcceptCall(u, s)) == AcceptCall(u, s)
  {
  }

  /** An accepted call is joined as callee, with the sender as the other side and the current user's own id. */
  lemma AcceptRouteSpec(u: User, s: Home)
    requires ModalVisible(s)
    ensures var r := AcceptRoute(u, s);
      && !r.isCaller && r.otherUserId == s.incomingCallFrom.value && r.otherUserId != ""
      && r.currentUserId == IntString(u.id) && r.otherUserName == s.callerName && r.callerRole == Doctor
  {
  }

  /** The `call_rejected` envelope `rejectCall` writes. */
  function RejectMessage(u: User, s: Home): Msg {
    CallRejected(IntString(u.id), s.incomingCallFrom)
  }

  /**
   * `rejectCall`: `send` on the socket, then clear the incoming call. A socket
   * still CONNECTING makes `send` throw, so nothing after it runs; a closed
   * socket drops the data silently.
   */
  function RejectCall(u: User, s: Home): (t: Home)
    ensures s.ws == Sock(Connecting) ==> t == s
    ensures s.ws != Sock(Connecting) ==> !ModalVisible(t)
    ensures t.ws == s.ws
  {
    match s.ws
    case NoSocket => s.(incomingCallFrom := None)
    case Sock(Connecting) => s
    case Sock(Open) => s.(log := s.log + [HomeSent(RejectMessage(u, s))], incomingCallFrom := None)
    case Sock(Closed) => s.(incomingCallFrom := None)
  }

  /** Rejecting on an open socket tells the caller who rejected, and hides the modal. */
  lemma RejectSpec(u: User, s: Home)
    requires IsOpen(s.ws)
    ensures RejectCall(u, s).log == s.log + [HomeSent(CallRejected(IntString(u.id), s.incomingCallFrom))]
    ensures !ModalVisible(RejectCall(u, s))
  {
  }

  /** After a rejection, accepting does nothing: no call is joined. */
  lemma RejectThenAccept(u: User, s: Home)
    requires s.ws != Sock(Connecting)
    ensures AcceptCall(u, RejectCall(u, s)) == RejectCall(u, s)
  {
  }

  /** The route `handleCall` navigates to: as caller, with the user's own role. */
  function CallerRoute(u: User, receiverId: int, receiverName: string): CallRoute {
    CallRoute(IntString(u.id), IntString(receiverId), true, receiverName, u.role)
  }

  /**
   * `handleCall(receiverId, receiverName)`: post `/api/calls/start`; if the
   * request goes through, open the call as caller, otherwise alert. `posted`
   * is whether `fetch` resolved.
   */
  function HandleCall(u: User, s: Home, receiverId: int, receiverName: string, posted: bool): Home {
    var s1 := s.(log := s.log + [CallStartPosted(u.id, receiverId, u.username)]);
    if posted then s1.(log := s1.log + [Navigated(CallerRoute(u, receiverId, receiverName))])
    else s1.(log := s1.log + [HomeAlerted(CouldNotInitiate)])
  }

  /** `handleCall` navigates exactly when the request went through, and never touches the incoming call. */
  lemma HandleCallSpec(u: User, s: Home, receiverId: int, receiverName: string, posted: bool)
    ensures var t := HandleCall(u, s, receiverId, receiverName, posted);
      && (Navigated(CallerRoute(u, receiverId, receiverName)) in t.log[|s.log|..] <==> posted)
      && (HomeAlerted(CouldNotInitiate) in t.log[|s.log|..] <==> !posted)
      && t.incomingCallFrom == s.incomingCallFrom && t.ws == s.ws
    ensures CallerRoute(u, receiverId, receiverName).isCaller
    ensures CallerRoute(u, receiverId, receiverName).otherUserId == IntString(receiverId)
  {
    var t := HandleCall(u, s, receiverId, receiverName, posted);
    var d := t.log[|s.log|..];
    if posted {
      assert d == [CallStartPosted(u.id, receiverId, u.username), Navigated(CallerRoute(u, receiverId, receiverName))];
    } else {
      assert d == [CallStartPosted(u.id, receiverId, u.username), HomeAlerted(CouldNotInitiate)];
    }
  }

  /** `ws.onopen`: announce the user with its id as a string and its role. */
  function OnOpen(u: User, s: Home): (t: Home)
    ensures t.log == s.log + [HomeSent(Join(IntString(u.id), u.role))] && IsOpen(t.ws)
    ensures t.incomingCallFrom == s.incomingCallFrom && t.callerName == s.callerName
  {
    s.(ws := Sock(Open), log := s.log + [HomeSent(Join(IntString(u.id), u.role))])
  }

  /** The socket closing on its own: no handler is installed, only the ready state changes. */
  function OnClose(s: Home): (t: Home)
    ensures t.ws == (if s.ws.Sock? then Sock(Closed) else s.ws)
    ensures t.log == s.log && t.incomingCallFrom == s.incomingCallFrom
  {
    if s.ws.Sock? then s.(ws := Sock(Closed)) else s
  }

  /** Unmounting: `wsRef.current?.close()`. */
  function Unmount(s: Home): (t: Home)
    ensures s.ws.Sock? ==> t.log == s.log + [HomeSocketClosed] && t.ws == Sock(Closed)
    ensures s.ws == NoSocket ==> t == s
  {
    if s.ws.Sock? then s.(ws := Sock(Closed), log := s.log + [HomeSocketClosed]) else s
  }

  /** What can happen to the home screen. */
  datatype HomeEvent =
    | HomeWsOpen
    | HomeWsMessage(m: HomeInbound)
    | HomeWsClose
    | UsersFetchFailed
    | AcceptPressed
    | RejectPressed
    | CallNowPressed(receiverId: int, receiverName: string, posted: bool)
    | HomeUnmounted

  /**
   * When the platform and the rendered screen can deliver an event: the socket
   * opens once from CONNECTING and delivers messages only while open; Accept and
   * Reject exist only inside the visible modal; "Call Now" is rendered only for
   * patients.
   */
  predicate HomeDelivered(u: User, s: Home, e: HomeEvent) {
    match e
    case HomeWsOpen => s.ws == Sock(Connecting)
    case HomeWsMessage(_) => IsOpen(s.ws)
    case AcceptPressed => ModalVisible(s)
    case RejectPressed => ModalVisible(s)
    case CallNowPressed(_, _, _) => u.role == Patient
    case _ => true
  }

  /** One event. */
  function HomeStep(u: User, s: Home, e: HomeEvent): Home {
    match e
    case HomeWsOpen => OnOpen(u, s)
    case HomeWsMessage(m) => OnMessage(s, m)
    case HomeWsClose => OnClose(s)
    case UsersFetchFailed => UsersFailed(s)
    case AcceptPressed => AcceptCall(u, s)
    case RejectPressed => RejectCall(u, s)
    case CallNowPressed(id, name, posted) => HandleCall(u, s, id, name, posted)
    case HomeUnmounted => Unmount(s)
  }

  /** Whether an effect is a navigation that fits this user's place in the call. */
  predicate RouteFits(u: User, e: HomeEffect) {
    e.Navigated? ==>
      && e.route.currentUserId == IntString(u.id)
      && (if e.route.isCaller then e.route.callerRole == Patient && u.role == Patient
          else e.route.callerRole == Doctor && e.route.otherUserId != "")
  }

  /** Whether an effect is a rejection addressed to an actual caller. */
  predicate RejectionAddressed(u: User, e: HomeEffect) {
    e.HomeSent? && e.m.CallRejected? ==> e.m.from == IntString(u.id) && Truthy(e.m.rejectedTo)
  }

  /**
   * The home screen's invariant: the modal shows only once the socket has
   * opened (so Reject never hits a CONNECTING socket), every navigation fits
   * the user, and every rejection names its caller.
   */
  predicate HomeInv(u: User, s: Home) {
    && (ModalVisible(s) ==> s.ws.Sock? && s.ws != Sock(Connecting))
    && (forall i | 0 <= i < |s.log| :: RouteFits(u, s.log[i]) && RejectionAddressed(u, s.log[i]))
  }

  /** Appending effects that fit keeps the log part of the invariant. */
  lemma LogFits(u: User, l: seq<HomeEffect>, d: seq<HomeEffect>)
    requires forall i | 0 <= i < |l| :: RouteFits(u, l[i]) && RejectionAddressed(u, l[i])
    requires forall i | 0 <= i < |d| :: RouteFits(u, d[i]) && RejectionAddressed(u, d[i])
    ensures forall i | 0 <= i < |l + d| :: RouteFits(u, (l + d)[i]) && RejectionAddressed(u, (l + d)[i])
  {
    forall i | 0 <= i < |l + d|
      ensures RouteFits(u, (l + d)[i]) && RejectionAddressed(u, (l + d)[i])
    {
      if i < |l| { assert (l + d)[i] == l[i]; } else { assert (l + d)[i] == d[i - |l|]; }
    }
  }

  /** Every delivered event keeps the invariant. */
  lemma HomeStepKeepsInv(u: User, s: Home, e: HomeEvent)
    requires HomeInv(u, s) && HomeDelivered(u, s, e)
    ensures HomeInv(u, HomeStep(u, s, e))
  {
    var t := HomeStep(u, s, e);
    match e
    case AcceptPressed =>
      LogFits(u, s.log, [Navigated(AcceptRoute(u, s))]);
    case RejectPressed =>
      if IsOpen(s.ws) { LogFits(u, s.log, [HomeSent(RejectMessage(u, s))]); }
    case CallNowPressed(id, name, posted) =>
      var d := [CallStartPosted(u.id, id, u.username)]
               + (if posted then [Navigated(CallerRoute(u, id, name))] else [HomeAlerted(CouldNotInitiate)]);
      assert t.log == s.log + d;
      LogFits(u, s.log, d);
    case HomeWsOpen =>
      LogFits(u, s.log, [HomeSent(Join(IntString(u.id), u.role))]);
    case HomeWsMessage(m) =>
      if m.CallRejectedIn? { LogFits(u, s.log, [HomeAlerted(CallRejectedAlert)]); }
    case UsersFetchFailed =>
      LogFits(u, s.log, [HomeAlerted(FetchUsersFailed)]);
    case HomeUnmounted =>
      if s.ws.Sock? { LogFits(u, s.log, [HomeSocketClosed]); }
    case HomeWsClose =>
  }

  /** A sequence of events from the mounted screen, the last one last. */
  function HomeRun(u: User, evs: seq<HomeEvent>): Home
    decreases |evs|
  {
    if evs == [] then Mounted(u) else HomeStep(u, HomeRun(u, evs[..|evs| - 1]), evs[|evs| - 1])
  }

  /** Every event of the sequence could be delivered where it occurs. */
  predicate HomeAdmissible(u: User, evs: seq<HomeEvent>)
    decreases |evs|
  {
    evs == [] || (HomeAdmissible(u, evs[..|evs| - 1]) && HomeDelivered(u, HomeRun(u, evs[..|evs| - 1]), evs[|evs| - 1]))
  }

  /**
   * Over any run: Reject never meets a CONNECTING socket, a started call is
   * always a patient calling, an accepted call always joins a named caller
   * as callee, and a rejection always names the caller it rejects.
   */
  lemma {:induction false} HomeRunKeepsInv(u: User, evs: seq<HomeEvent>)
    requires HomeAdmissible(u, evs)
    ensures HomeInv(u, HomeRun(u, evs))
    decreases |evs|
  {
    if evs == [] {
      var s := Mounted(u);
      assert s.log == [UsersRequested(OppositeRole(u.role))];
    } else {
      HomeRunKeepsInv(u, evs[..|evs| - 1]);
      HomeStepKeepsInv(u, HomeRun(u, evs[..|evs| - 1]), evs[|evs| - 1]);
    }
  }
}
