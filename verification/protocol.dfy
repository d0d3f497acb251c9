/** Protocol sides and the asynchronous send/receive operations of the X
    protocol engine (`Protocol_impl`, `Op_base`, `Op_snd`, `Op_rcv`).

    The transport and the frame reader/writer are outside the model: where the
    engine asks them something (`wr_cont()`), the answer is a parameter. */
module Protocol {
  import opened Wrappers

  /** `Protocol_side`.  A C++ enum object can hold a value other than its two
      enumerators; `OutOfRange` stands for such a value, which the `default:`
      branches of the source reject. */
  datatype Side = Server | Client | OutOfRange(code: int) {
    predicate Valid() { Server? || Client? }
  }

  /** `other_side`: the opposite role, or the fault for an unknown side. */
  function OtherSide(side: Side): (r: Result<Side, Fault>)
    ensures side.Valid() <==> r.Success?
    ensures r.Success? ==> r.value.Valid() && r.value != side
    ensures r.Failure? ==> r.error == Fault("unknown protocol side")
  {
    match side
    case Server => Success(Client)
    case Client => Success(Server)
    case OutOfRange(_) => Failure(Fault("unknown protocol side"))
  }

  /** Applying `other_side` twice gives back the original side. */
  lemma OtherSideInvolutive(side: Side)
    requires side.Valid()
    ensures OtherSide(side).Success?
    ensures OtherSide(OtherSide(side).value) == Success(side)
  {
  }

  /** The wire code of a message type (`msg_type_t`).  Only the two codes the
      engine handles itself are distinguished; `Other` stands for every other
      code of the message table. */
  datatype MsgType = Error | Notice | Other(code: nat)

  /** The state shared by every operation (`Op_base`): whether the operation
      (or, for a multi-stage operation, its current stage) has completed. */
  datatype OpBase = OpBase(completed: bool)

  /** `Op_base::is_completed`: the flag `m_completed`. */
  predicate IsCompleted(b: OpBase)
    ensures IsCompleted(b) <==> b.completed
  {
    b.completed
  }

  /** `Op_base::is_done` answers with `is_completed()`: whatever the state,
      the two agree. */
  predicate IsDone(b: OpBase)
    ensures IsDone(b) <==> IsCompleted(b)
  {
    IsCompleted(b)
  }

  /** A freshly constructed operation. */
  function NewOpBase(): (b: OpBase)
    ensures !IsCompleted(b) && !IsDone(b)
  {
    OpBase(false)
  }


  // ---------------------------------------------------------------------
  // Sending
  // ---------------------------------------------------------------------

  /** `Op_snd`: a wrapper around the engine's frame writer. */
  datatype SndOp = SndOp(base: OpBase)

  function NewSndOp(): (op: SndOp)
    ensures !IsCompleted(op.base)
  {
    SndOp(NewOpBase())
  }

  /** `Op_snd::do_cont`, where `wrCont` is what the writer's `wr_cont()`
      reported.  Returns the operation after the call and the call's result. */
  function SndCont(op: SndOp, wrCont: bool): (r: (SndOp, bool))
    ensures r.1 == wrCont
    ensures r.1 ==> IsCompleted(r.0.base)
    ensures !r.1 ==> r.0 == op
  {
    if !wrCont then (op, false) else (SndOp(OpBase(true)), true)
  }

  /** `Op_snd::do_wait`: after the writer's blocking wait, the operation is
      completed whatever its state before. */
  function SndWait(op: SndOp): (r: SndOp)
    ensures IsCompleted(r.base)
  {
    SndOp(OpBase(true))
  }

  /** Drives a fresh send operation with `do_cont` once per writer answer in
      `answers`, stopping at the first call that returns true, as a caller of
      the asynchronous interface does.  `polls` is the number of calls made. */
  method PollSend(answers: seq<bool>) returns (op: SndOp, polls: nat)
    ensures polls <= |answers|
    ensures IsCompleted(op.base) <==> true in answers
    ensures IsCompleted(op.base) ==> 0 < polls && answers[polls - 1]
    ensures forall i :: 0 <= i < polls - 1 ==> !answers[i]
    ensures !IsCompleted(op.base) ==> polls == |answers|
  {
    op := NewSndOp();
    polls := 0;
    var done := false;
    while polls < |answers| && !done
      invariant polls <= |answers|
      invariant done == IsCompleted(op.base)
      invariant done ==> 0 < polls && answers[polls - 1]
      invariant forall i :: 0 <= i < polls - 1 ==> !answers[i]
      invariant !done ==> forall i :: 0 <= i < polls ==> !answers[i]
    {
      var (next, result) := SndCont(op, answers[polls]);
      op, done := next, result;
      polls := polls + 1;
    }
  }

  // ---------------------------------------------------------------------
  // Receiving
  // ---------------------------------------------------------------------

  /** Stage of a receive operation (`Op_rcv::m_stage`). */
  datatype Stage = Header | Payload | Done

  /** Which concrete receive operation class (derived from `Op_rcv`) an
      operation object is an instance of. */
  type RcvKind = nat

  /** `Op_rcv`.  `id` is the object's identity, used to tell a resumed
      operation from a new one, and `kind` its concrete class.  `msgType` is
      `m_msg_type`, which the constructor leaves uninitialised (`None`) until a
      header has been read. */
  datatype RcvOp<P> = RcvOp(id: nat, kind: RcvKind, base: OpBase, stage: Stage,
                            prc: Option<P>, msgType: Option<MsgType>)

  /** The `Op_rcv` constructor, for an object of class `kind`. */
  function NewRcvOp<P>(id: nat, kind: RcvKind): (op: RcvOp<P>)
    ensures op.id == id && op.kind == kind
    ensures op.stage == Header && op.prc == None
    ensures !IsCompleted(op.base) && !IsDone(op.base)
  {
    RcvOp(id, kind, NewOpBase(), Header, None, None)
  }

  /** `Op_rcv::read_msg(prc)`: binds `prc` and starts a new message at the
      header stage.  The frame reader's `read_header()` is not modelled. */
  function ReadMsg<P>(op: RcvOp<P>, prc: P): (r: RcvOp<P>)
    ensures r.prc == Some(prc) && r.stage == Header
    ensures r.id == op.id && r.kind == op.kind && r.base == op.base && r.msgType == op.msgType
  {
    op.(prc := Some(prc), stage := Header)
  }

  /** `Op_rcv::read_msg()`: the same with the processor bound last time, which
      must be present. */
  function ReadMsgAgain<P>(op: RcvOp<P>): (r: RcvOp<P>)
    requires op.prc.Some?
    ensures r.prc == op.prc && r.stage == Header
    ensures r.id == op.id && r.kind == op.kind && r.base == op.base && r.msgType == op.msgType
  {
    ReadMsg(op, op.prc.value)
  }

  /** `read_msg()` re-binds the processor of the last `read_msg(prc)`: it
      starts the next message exactly as `read_msg(prc)` would, and the two
      calls together leave the operation as one `read_msg(prc)` does. */
  lemma ReadMsgAgainRepeatsLast<P>(op: RcvOp<P>, prc: P)
    ensures ReadMsgAgain(ReadMsg(op, prc)) == ReadMsg(op, prc)
    ensures ReadMsgAgain(ReadMsg(op, prc)) == ReadMsg(ReadMsg(op, prc), prc)
  {
  }

  /** `Rcv::resume(prc)`, which each concrete receive operation defines: binds
      the processor for the next stage and keeps the progress made so far. */
  function Resume<P>(op: RcvOp<P>, prc: P): (r: RcvOp<P>)
    ensures r.prc == Some(prc)
    ensures r.id == op.id && r.kind == op.kind && r.base == op.base
    ensures r.stage == op.stage && r.msgType == op.msgType
  {
    op.(prc := Some(prc))
  }

  // ---------------------------------------------------------------------
  // The engine
  // ---------------------------------------------------------------------

  /** `Protocol_impl`: the side it receives from, and its current receive
      operation (`m_rcv_op`).  `nextId` is the identity the next newly created
      operation gets. */
  datatype Engine<P> = Engine(side: Side, rcvOp: Option<RcvOp<P>>, nextId: nat) {
    /** Every existing operation was created before `nextId` was handed out. */
    predicate Valid() { rcvOp.Some? ==> rcvOp.value.id < nextId }
  }

  /** `Protocol::Impl` (client side) expects messages from the server. */
  function ClientEngine<P>(): (e: Engine<P>)
    ensures e.side == Server && e.rcvOp.None? && e.Valid()
  {
    Engine(Server, None, 0)
  }

  /** `Protocol_server::Impl` expects messages from the client. */
  function ServerEngine<P>(): (e: Engine<P>)
    ensures e.side == Client && e.rcvOp.None? && e.Valid()
  {
    Engine(Client, None, 0)
  }

  /** The two engine flavours receive from opposite sides. */
  lemma EnginesFaceEachOther<P>()
    ensures OtherSide(ClientEngine<P>().side) == Success(ServerEngine<P>().side)
    ensures OtherSide(ServerEngine<P>().side) == Success(ClientEngine<P>().side)
  {
  }

  /** `Protocol_impl::rcv_start<Rcv>`: a receive operation that is not done is
      resumed with the new processor; a done or absent one is replaced by a new
      operation of class `kind`, which is then resumed.  Afterwards there is
      always a current receive operation, not done and bound to `prc`.  The
      source casts a live operation to `Rcv` without checking its class, so
      the caller must ask for the class of the live operation. */
  function RcvStart<P>(e: Engine<P>, kind: RcvKind, prc: P): (r: Engine<P>)
    requires e.Valid()
    requires e.rcvOp.Some? && !IsDone(e.rcvOp.value.base) ==> e.rcvOp.value.kind == kind
    ensures r.Valid()
    ensures r.side == e.side
    ensures r.rcvOp.Some? && r.rcvOp.value.prc == Some(prc) && r.rcvOp.value.kind == kind
    ensures !IsDone(r.rcvOp.value.base)
    ensures e.rcvOp.Some? && !IsDone(e.rcvOp.value.base) ==>
      var old_ := e.rcvOp.value;
      var new_ := r.rcvOp.value;
      && r.nextId == e.nextId
      && new_.id == old_.id && new_.base == old_.base
      && new_.stage == old_.stage && new_.msgType == old_.msgType
    ensures (e.rcvOp.None? || IsDone(e.rcvOp.value.base)) ==>
      var new_ := r.rcvOp.value;
      && r.nextId == e.nextId + 1
      && new_.id == e.nextId
      && (e.rcvOp.Some? ==> new_.id != e.rcvOp.value.id)
      && new_.stage == Header
  {
    var current := if e.rcvOp.Some? && IsDone(e.rcvOp.value.base) then None else e.rcvOp;
    var created := if current.None? then e.(rcvOp := Some(NewRcvOp(e.nextId, kind)), nextId := e.nextId + 1)
                   else e.(rcvOp := current);
    created.(rcvOp := Some(Resume(created.rcvOp.value, prc)))
  }

  /** At most one receive operation is in flight: starting again before the
      current one is done continues the same operation at the same stage,
      only with the new processor. */
  lemma RcvStartTwiceResumes<P>(e: Engine<P>, kind: RcvKind, p1: P, p2: P)
    requires e.Valid()
    requires e.rcvOp.Some? && !IsDone(e.rcvOp.value.base) ==> e.rcvOp.value.kind == kind
    ensures RcvStart(RcvStart(e, kind, p1), kind, p2).rcvOp.value.id == RcvStart(e, kind, p1).rcvOp.value.id
    ensures RcvStart(RcvStart(e, kind, p1), kind, p2).rcvOp.value.stage == RcvStart(e, kind, p1).rcvOp.value.stage
    ensures RcvStart(RcvStart(e, kind, p1), kind, p2).rcvOp.value.prc == Some(p2)
    ensures RcvStart(RcvStart(e, kind, p1), kind, p2).nextId == RcvStart(e, kind, p1).nextId
  {
  }
}
