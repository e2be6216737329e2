/**
 * The home screen as the object it is at run time: `incomingCallFrom` and
 * `callerName` are state hooks, `wsRef` a ref, and each handler updates them
 * in place. Each method leaves the screen in the state the value model of
 * its handler gives.
 */
module Home {

  import opened Wrappers
  import opened Signaling
  import opened JsNumbers
  import opened HomeModel

  class HomeScreen {
    /** `route.params`: id, username and role. */
    const user: User
    /** `incomingCallFrom`. */
    var incomingCallFrom: Option<string>
    /** `callerName`. */
    var callerName: string
    /** `wsRef.current`. */
    var ws: Sock
    /** Every effect so far. */
    var log: seq<HomeEffect>

    /** The screen as a value of the model. */
    function State(): Home
      reads this
    {
      Home(incomingCallFrom, callerName, ws, log)
    }

    /** The screen once its mount effect has run: users requested, socket created. */
    constructor(u: User)
      ensures user == u && State() == Mounted(u)
    {
      user := u;
      incomingCallFrom := None;
      callerName := "";
      ws := Sock(Connecting);
      log := [UsersRequested(OppositeRole(u.role))];
    }

    /** `fetchUsers` failing. */
    method UsersFailed()
      modifies this
      ensures State() == HomeModel.UsersFailed(old(State()))
    {
      log := log + [HomeAlerted(FetchUsersFailed)];
    }

    /** `ws.onmessage`. */
    method OnMessage(m: HomeInbound)
      modifies this
      ensures State() == HomeModel.OnMessage(old(State()), m)
    {
      match m
      case HomeUnparsable =>
      case IncomingCall(from, name) =>
        callerName := if name.Some? && name.value != "" then name.value else "Unknown";
        incomingCallFrom := from;
      case CallRejectedIn =>
        log := log + [HomeAlerted(CallRejectedAlert)];
        incomingCallFrom := None;
      case HomeOtherIn =>
    }

    /** `acceptCall`. */
    method AcceptCall()
      modifies this
      ensures State() == HomeModel.AcceptCall(user, old(State()))
    {
      if incomingCallFrom.None? || incomingCallFrom.value == "" {
        return;
      }
      log := log + [Navigated(CallRoute(IntString(user.id), incomingCallFrom.value, false, callerName, Doctor))];
      incomingCallFrom := None;
    }

    /** `rejectCall`; on a CONNECTING socket `send` throws and the method stops there. */
    method RejectCall()
      modifies this
      ensures State() == HomeModel.RejectCall(user, old(State()))
    {
      if ws == Sock(Connecting) {
        return;
      }
      if ws == Sock(Open) {
        log := log + [HomeSent(CallRejected(IntString(user.id), incomingCallFrom))];
      }
      incomingCallFrom := None;
    }

    /** `handleCall`; `posted` is whether the POST to `/api/calls/start` resolved. */
    method HandleCall(receiverId: int, receiverName: string, posted: bool)
      modifies this
      ensures State() == HomeModel.HandleCall(user, old(State()), receiverId, receiverName, posted)
    {
      log := log + [CallStartPosted(user.id, receiverId, user.username)];
      if posted {
        log := log + [Navigated(CallRoute(IntString(user.id), IntString(receiverId), true, receiverName, user.role))];
      } else {
        log := log + [HomeAlerted(CouldNotInitiate)];
      }
    }

    /** `ws.onopen`. */
    method OnOpen()
      modifies this
      ensures State() == HomeModel.OnOpen(user, old(State()))
    {
      ws := Sock(Open);
      log := log + [HomeSent(Join(IntString(user.id), user.role))];
    }

    /** The socket closing: only its ready state changes. */
    method OnClose()
      modifies this
      ensures State() == HomeModel.OnClose(old(State()))
    {
      if ws.Sock? {
        ws := Sock(Closed);
      }
    }

    /** The mount effect's clean-up. */
    method Unmount()
      modifies this
      ensures State() == HomeModel.Unmount(old(State()))
    {
      if ws.Sock? {
        log := log + [HomeSocketClosed];
        ws := Sock(Closed);
      }
    }

    /** Deliver one event; the screen keeps its invariant. */
    method Handle(e: HomeEvent)
      requires HomeInv(user, State()) && HomeDelivered(user, State(), e)
      modifies this
      ensures State() == HomeStep(user, old(State()), e)
      ensures HomeInv(user, State())
    {
      HomeStepKeepsInv(user, State(), e);
      match e
      case HomeWsOpen => OnOpen();
      case HomeWsMessage(m) => OnMessage(m);
      case HomeWsClose => OnClose();
      case UsersFetchFailed => UsersFailed();
      case AcceptPressed => AcceptCall();
      case RejectPressed => RejectCall();
      case CallNowPressed(id, name, posted) => HandleCall(id, name, posted);
      case HomeUnmounted => Unmount();
    }
  }
}
