/** Message-flow policy of a receive operation (`Op_rcv`): which message types
    are expected, whether to read another message, and how errors and notices
    reach the processor. */
module Receive {
  import opened Wrappers
  import opened Protocol
  import Frame

  /** `Op_rcv::Next_msg`. */
  datatype NextMsg = Expected | Unexpected | Stop

  /** The default `do_next_msg`: any message other than an error or a notice
      is unexpected. */
  function DefaultDoNextMsg(t: MsgType): (r: NextMsg)
    ensures r != Expected && r != Stop
  {
    Unexpected
  }

  /** `Op_rcv::next_msg`, with the override point `do_next_msg` as a
      parameter.  Errors and notices are expected whatever the override says. */
  function NextMsgOf(t: MsgType, doNextMsg: MsgType -> NextMsg): (r: NextMsg)
    ensures (t == Error || t == Notice) ==> r == Expected
    ensures t.Other? ==> r == doNextMsg(t)
  {
    match t
    case Error => Expected
    case Notice => Expected
    case Other(_) => doNextMsg(t)
  }

  /** Under the default override, a message is expected exactly when it is an
      error or a notice, and reading never stops at a header. */
  lemma DefaultNextMsg(t: MsgType)
    ensures NextMsgOf(t, DefaultDoNextMsg) == Expected <==> (t == Error || t == Notice)
    ensures NextMsgOf(t, DefaultDoNextMsg) != Stop
  {
  }

  /** The default `do_process_next`: stop after one message. */
  const DefaultDoProcessNext: bool := false

  /** `Op_rcv::process_next`: after a notice read on, after an error stop, and
      otherwise ask the override `doProcessNext`.  It inspects the type of the
      last header read (`m_msg_type`), which must have been set. */
  function ProcessNext<P>(op: RcvOp<P>, doProcessNext: bool): (r: bool)
    requires op.msgType.Some?
    ensures op.msgType == Some(Notice) ==> r
    ensures op.msgType == Some(Error) ==> !r
    ensures op.msgType.value.Other? ==> r == doProcessNext
  {
    match op.msgType.value
    case Notice => true
    case Error => false
    case Other(_) => doProcessNext
  }

  /** With the default override, another message is read exactly after a
      notice, and an error stops the cycle whatever the override says. */
  lemma DefaultProcessNext<P>(op: RcvOp<P>, doProcessNext: bool)
    requires op.msgType.Some?
    ensures ProcessNext(op, DefaultDoProcessNext) <==> op.msgType == Some(Notice)
    ensures op.msgType == Some(Error) ==> !ProcessNext(op, doProcessNext)
  {
  }

  /** `(short)x`: a value truncated to 16 bits and read as two's complement. */
  function ToShort(x: int): (r: int)
    ensures -0x8000 <= r < 0x8000
    ensures (x - r) % 0x1_0000 == 0
  {
    var low := x % 0x1_0000;
    if low < 0x8000 then low else low - 0x1_0000
  }

  /** A value already in the range of `short` is unchanged by the cast. */
  lemma ToShortKeepsShorts(x: int)
    requires -0x8000 <= x < 0x8000
    ensures ToShort(x) == x
  {
  }

  /** A decoded protocol message, as far as the engine looks into it: a notice
      frame (`Mysqlx::Notice::Frame`), an error (`Mysqlx::Error`, whose
      severity is 0 for ERROR and 1 for FATAL), or any other message. */
  datatype Message =
    | NoticeFrame(noticeType: nat, scope: int, payload: seq<Frame.Byte>)
    | ErrorMessage(code: nat, severity: nat, sqlState: string, msg: string)
    | OtherMessage(body: seq<Frame.Byte>)

  /** A call on the processor's `Error_processor` interface. */
  datatype SinkEvent =
    | NoticeEvent(noticeType: nat, scope: int, payload: seq<Frame.Byte>)
    | ErrorEvent(code: nat, severity: int, sqlState: string, msg: string)

  /** What `process_msg` does: call the bound processor, or hand the message
      to the override `do_process_msg`. */
  datatype Effect<P> = SinkCall(to: P, event: SinkEvent) | DoProcessMsg(msgType: MsgType, msg: Message)

  /** The severity reported for every server error: both upstream severities
      are reported as 2 (ERROR). */
  const ReportedSeverity: int := 2

  /** `Op_rcv::process_msg(type, msg)`.  Notices and errors are reported to the
      bound processor; everything else goes to `do_process_msg(type, msg)`.
      The choice is made on the member `m_msg_type`, not on the parameter
      `type`.  The source casts the message (and the processor) to the kind the
      member names, so the caller must pass a message of that kind. */
  function ProcessMsg<P>(op: RcvOp<P>, t: MsgType, msg: Message): (r: seq<Effect<P>>)
    requires op.msgType.Some?
    requires op.msgType == Some(Notice) ==> op.prc.Some? && msg.NoticeFrame?
    requires op.msgType == Some(Error) ==> op.prc.Some? && msg.ErrorMessage?
    ensures |r| == 1
    ensures op.msgType == Some(Notice) ==>
      r[0].SinkCall? && r[0].to == op.prc.value && r[0].event.NoticeEvent?
      && r[0].event.noticeType == msg.noticeType && r[0].event.payload == msg.payload
      && r[0].event.scope == ToShort(msg.scope)
    ensures op.msgType == Some(Error) ==>
      r[0].SinkCall? && r[0].to == op.prc.value && r[0].event.ErrorEvent?
      && r[0].event.code == msg.code && r[0].event.severity == 2
      && r[0].event.sqlState == msg.sqlState && r[0].event.msg == msg.msg
    ensures op.msgType.value.Other? ==> r == [DoProcessMsg(t, msg)]
  {
    match op.msgType.value
    case Notice =>
      [SinkCall(op.prc.value, NoticeEvent(msg.noticeType, ToShort(msg.scope), msg.payload))]
    case Error =>
      [SinkCall(op.prc.value, ErrorEvent(msg.code, ReportedSeverity, msg.sqlState, msg.msg))]
    case Other(_) =>
      [DoProcessMsg(t, msg)]
  }

  /** Only `do_process_msg` is called for a message whose header named another
      type: the processor's error sink never hears of it. */
  lemma OtherMessagesBypassSink<P>(op: RcvOp<P>, t: MsgType, msg: Message)
    requires op.msgType.Some? && op.msgType.value.Other?
    ensures forall i :: 0 <= i < |ProcessMsg(op, t, msg)| ==> !ProcessMsg(op, t, msg)[i].SinkCall?
  {
  }

  /** ERROR and FATAL server errors are indistinguishable to the processor. */
  lemma SeverityCollapsed<P>(op: RcvOp<P>, t: MsgType, code: nat, s1: nat, s2: nat, state: string, text: string)
    requires op.msgType == Some(Error) && op.prc.Some?
    ensures ProcessMsg(op, t, ErrorMessage(code, s1, state, text))
         == ProcessMsg(op, t, ErrorMessage(code, s2, state, text))
  {
  }

  /** The routing follows the member `m_msg_type`: the `type` argument is
      ignored for notices and errors, and is what `do_process_msg` receives
      otherwise.  So a call whose argument disagrees with the member is routed
      by the member. */
  lemma RoutingFollowsMember<P>(op: RcvOp<P>, t1: MsgType, t2: MsgType, msg: Message)
    requires op.msgType == Some(Notice) || op.msgType == Some(Error)
    requires op.msgType == Some(Notice) ==> op.prc.Some? && msg.NoticeFrame?
    requires op.msgType == Some(Error) ==> op.prc.Some? && msg.ErrorMessage?
    ensures ProcessMsg(op, t1, msg) == ProcessMsg(op, t2, msg)
    ensures ProcessMsg(op, t1, msg)[0].SinkCall?
  {
  }

  /** A notice whose header type was recorded as some other type is handed to
      `do_process_msg`, not to the error sink, even though the argument says
      Notice. */
  lemma NoticeArgumentIsNotEnough<P>(op: RcvOp<P>, msg: Message)
    requires op.msgType.Some? && op.msgType.value.Other?
    ensures ProcessMsg(op, Notice, msg) == [DoProcessMsg(Notice, msg)]
  {
  }
}
