/**
 * The real-time channel as seen from this client: the outbound messages it
 * has emitted, in order. Inbound messages are the handler methods of the
 * canvas and the room controller.
 */
module Messaging {
  import opened Geometry
  import opened Surface

  /** Outbound messages, by event name and payload. */
  datatype Message =
    | JoinedRoom(name: string, roomId: string)
    | Draw(start: Point, end: Point)          // a segment, in unit space
    | UpdateContext(newContext: seq<Entry>)
    | Ready
    | MakeGuess(guess: string)

  class Socket {
    var sent: seq<Message>

    constructor ()
      ensures sent == []
    {
      sent := [];
    }

    method Emit(m: Message)
      modifies this
      ensures sent == old(sent) + [m]
    {
      sent := sent + [m];
    }
  }
}
