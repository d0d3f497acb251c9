/** `Message_dispatcher::process_msg_with`: selects, from the side the engine
    receives from and the wire type of a message, the typed handler to call.

    The message table (`MSG_LIST`) is a parameter: for each side, the set of
    type codes it lists. */
module Dispatch {
  import opened Wrappers
  import opened Protocol

  /** The entries of the message table usable on each side: on the server
      side the codes of server messages, on the client side the codes of
      client messages. */
  datatype MsgTable = MsgTable(server: set<MsgType>, client: set<MsgType>)

  /** The table entries consulted for a valid side: the server messages when
      the engine receives from the server, the client messages otherwise. */
  function Listed(table: MsgTable, side: Side): (types: set<MsgType>)
    requires side.Valid()
    ensures side == Server ==> types == table.server
    ensures side == Client ==> types == table.client
  {
    if side == Server then table.server else table.client
  }

  /** A call of the typed handler `Base::process_msg_with(MSG&, prc)` for the
      message class that the side and type select. */
  datatype HandlerCall<M, P> = HandlerCall(side: Side, msgType: MsgType, msg: M, prc: P)

  /** An unknown side and an unknown type are faults; note that both sides
      report an unknown type with the same text. */
  function ProcessMsgWith<M, P>(side: Side, t: MsgType, msg: M, prc: P, table: MsgTable)
    : (r: Result<HandlerCall<M, P>, Fault>)
    ensures r.Success? <==> side.Valid() && t in Listed(table, side)
    ensures r.Success? ==> r.value == HandlerCall(side, t, msg, prc)
    ensures !side.Valid() ==> r == Failure(Fault("unknown protocol side"))
    ensures side.Valid() && t !in Listed(table, side) ==>
      r == Failure(Fault("unknown server message type"))
  {
    match side
    case Server =>
      if t in table.server then Success(HandlerCall(side, t, msg, prc))
      else Failure(Fault("unknown server message type"))
    case Client =>
      if t in table.client then Success(HandlerCall(side, t, msg, prc))
      else Failure(Fault("unknown server message type"))
    case OutOfRange(_) =>
      Failure(Fault("unknown protocol side"))
  }

  /** A type listed only for the other side is rejected: an engine decodes
      only the messages of the side it receives from. */
  lemma OtherSidesTypesRejected<M, P>(side: Side, t: MsgType, msg: M, prc: P, table: MsgTable)
    requires side.Valid()
    requires t !in Listed(table, side)
    ensures ProcessMsgWith(side, t, msg, prc, table).Failure?
    ensures ProcessMsgWith(OtherSide(side).value, t, msg, prc, table).Success?
        <==> t in Listed(table, OtherSide(side).value)
  {
  }
}
