/**
 * The JSON envelopes the two screens exchange with the signaling server over a
 * raw WebSocket, and the WebSocket handle the screens hold.
 *
 * SDP and ICE payloads are opaque to the application and are left out; every
 * other field of a message is kept.
 */
module Signaling {

  import opened Wrappers

  /** `'DOCTOR' | 'PATIENT'`. */
  datatype Role = Doctor | Patient

  /** Outbound messages, one constructor per `type`. */
  datatype Msg =
    | Join(userId: string, role: Role)
    | CallAccepted(from: string, to: string)
    | CallRejected(from: string, rejectedTo: Option<string>)  // `to` is `incomingCallFrom`, possibly null
    | Offer(target: string)
    | Answer(target: string)
    | Candidate(target: string)
    | EndCall(from: string, to: string, endedBy: Role)
    | MuteStatus(from: string, to: string, isMuted: bool)
    | UnmuteRequest(from: string, to: string)
    | UnmuteResponse(from: string, to: string, accepted: bool)

  /** `WebSocket.readyState`; CLOSING and CLOSED behave alike for everything modelled. */
  datatype ReadyState = Connecting | Open | Closed

  /** A socket ref: `null`, or a socket in some ready state. */
  datatype Sock = NoSocket | Sock(state: ReadyState)

  /** `ws.current && ws.current.readyState === WebSocket.OPEN`. */
  predicate IsOpen(ws: Sock) {
    ws == Sock(Open)
  }
}
