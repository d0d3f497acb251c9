/** The callback interfaces through which values and expressions are pushed
    into a consumer (`Scalar_processor`, `Expr_processor`), and the null-safe
    decorators `Safe_prc<...>` over them.

    A processor is modelled as an event recorder: every call on it appends one
    event, naming the processor and the call with its arguments, to a trace.
    The sub-processors that `val`, `op` and `call` return are part of the
    processor's behaviour and are given with it. */
module Processors {
  import opened Wrappers
  import DocPaths
  import Frame

  type Bytes = seq<Frame.Byte>
  type Int64 = x: int | -0x8000_0000_0000_0000 <= x < 0x8000_0000_0000_0000
  type Uint64 = x: int | 0 <= x < 0x1_0000_0000_0000_0000
  /** Collation ids are 64-bit numbers in the protocol. */
  type CharsetId = Uint64

  /** Floating-point arguments are only forwarded, so only their bits matter. */
  datatype Float32 = Float32(bits: bv32)
  datatype Float64 = Float64(bits: bv64)

  /** A call of `Scalar_processor`: one constructor per overload. */
  datatype ScalarCall =
    | Null
    | Str(val: Bytes)
    | StrWithCharset(cs: CharsetId, val: Bytes)
    | NumSigned(i: Int64)
    | NumUnsigned(u: Uint64)
    | NumFloat(f: Float32)
    | NumDouble(d: Float64)
    | YesNo(b: bool)
    | Octets(data: Bytes)

  /** A database object reference (`Db_obj`): a name and an optional schema. */
  datatype DbObj = DbObj(name: string, schema: Option<string>)

  /** A call of one of the `Expr_processor` callbacks that return nothing. */
  datatype ExprCall =
    | Var(name: string)
    | Id(name: string, dbObj: Option<DbObj>)
    | IdWithPath(name: string, dbObj: Option<DbObj>, path: DocPaths.Path)
    | IdOfPath(path: DocPaths.Path)
    | Placeholder
    | NamedPlaceholder(name: string)
    | PositionalPlaceholder(pos: DocPaths.Uint32)

  type PrcId = nat

  /** One call received by the processor `target`. */
  datatype Event =
    | ScalarEvent(target: PrcId, call: ScalarCall)
    | ValEvent(target: PrcId)
    | OpEvent(target: PrcId, name: string)
    | CallEvent(target: PrcId, func: DbObj)
    | ExprEvent(target: PrcId, exprCall: ExprCall)

  type Trace = seq<Event>

  /** A scalar processor, and an argument-list processor (`Args_prc`). */
  datatype ScalarPrc = ScalarPrc(id: PrcId)
  datatype ArgsPrc = ArgsPrc(id: PrcId)

  /** An expression processor, with the sub-processor each of `val`, `op` and
      `call` returns (absent when it declines the sub-value). */
  datatype ExprPrc = ExprPrc(id: PrcId, valReply: Option<ScalarPrc>,
                             opReply: string -> Option<ArgsPrc>,
                             callReply: DbObj -> Option<ArgsPrc>)

  // ---------------------------------------------------------------------
  // Calls on a processor that is present
  // ---------------------------------------------------------------------

  function ScalarApply(p: ScalarPrc, c: ScalarCall, t: Trace): (t': Trace) {
    t + [ScalarEvent(p.id, c)]
  }

  function ValApply(p: ExprPrc, t: Trace): (r: (Option<ScalarPrc>, Trace)) {
    (p.valReply, t + [ValEvent(p.id)])
  }

  function OpApply(p: ExprPrc, name: string, t: Trace): (r: (Option<ArgsPrc>, Trace)) {
    (p.opReply(name), t + [OpEvent(p.id, name)])
  }

  function CallApply(p: ExprPrc, func: DbObj, t: Trace): (r: (Option<ArgsPrc>, Trace)) {
    (p.callReply(func), t + [CallEvent(p.id, func)])
  }

  function ExprApply(p: ExprPrc, c: ExprCall, t: Trace): (t': Trace) {
    t + [ExprEvent(p.id, c)]
  }

  // ---------------------------------------------------------------------
  // Safe_prc<Scalar_processor>
  // ---------------------------------------------------------------------

  /** Any of the nine scalar callbacks through `Safe_prc`: nothing happens when
      the processor is absent; otherwise the processor receives exactly this
      call (same overload, same arguments), once. */
  function SafeScalar(prc: Option<ScalarPrc>, c: ScalarCall, t: Trace): (t': Trace)
    ensures prc.None? ==> t' == t
    ensures prc.Some? ==>
              |t'| == |t| + 1 && t'[..|t|] == t && t'[|t|] == ScalarEvent(prc.value.id, c)
  {
    match prc
    case None => t
    case Some(p) => ScalarApply(p, c, t)
  }

  /** The events a processor receives for a sequence of scalar calls. */
  function ScalarEvents(id: PrcId, calls: seq<ScalarCall>): (es: Trace)
    ensures |es| == |calls|
  {
    if calls == [] then [] else [ScalarEvent(id, calls[0])] + ScalarEvents(id, calls[1..])
  }

  /** Makes the calls `calls`, in order, through `Safe_prc`.  Events are only
      ever appended: what the processor had received before stays as it was. */
  function DriveScalar(prc: Option<ScalarPrc>, calls: seq<ScalarCall>, t: Trace): (t': Trace)
    ensures |t| <= |t'| && t'[..|t|] == t
    decreases |calls|
  {
    if calls == [] then t else DriveScalar(prc, calls[1..], SafeScalar(prc, calls[0], t))
  }

  /** Whatever calls are made through a wrapper of an absent processor, the
      trace does not change. */
  lemma {:induction false} AbsentScalarIsSilent(calls: seq<ScalarCall>, t: Trace)
    ensures DriveScalar(None, calls, t) == t
  {
    if calls != [] {
      AbsentScalarIsSilent(calls[1..], t);
    }
  }

  /** Through a wrapper of a present processor, that processor receives every
      call, in order and unchanged, and nothing else happens. */
  lemma {:induction false} PresentScalarForwardsAll(p: ScalarPrc, calls: seq<ScalarCall>, t: Trace)
    ensures DriveScalar(Some(p), calls, t) == t + ScalarEvents(p.id, calls)
  {
    if calls != [] {
      var e := ScalarEvent(p.id, calls[0]);
      assert SafeScalar(Some(p), calls[0], t) == t + [e];
      assert DriveScalar(Some(p), calls, t) == DriveScalar(Some(p), calls[1..], t + [e]);
      assert ScalarEvents(p.id, calls) == [e] + ScalarEvents(p.id, calls[1..]);
      PresentScalarForwardsAll(p, calls[1..], t + [e]);
      assert t + [e] + ScalarEvents(p.id, calls[1..]) == t + ([e] + ScalarEvents(p.id, calls[1..]));
    }
  }

  // ---------------------------------------------------------------------
  // Safe_prc<Expr_processor>
  // ---------------------------------------------------------------------

  /** `val()` through `Safe_prc`: an absent value processor when the wrapped
      processor is absent; otherwise exactly what the processor returned,
      absent included, after one `val` call. */
  function SafeVal(prc: Option<ExprPrc>, t: Trace): (r: (Option<ScalarPrc>, Trace))
    ensures prc.None? ==> r.0.None? && r.1 == t
    ensures prc.Some? ==> r.0 == prc.value.valReply && r.1 == t + [ValEvent(prc.value.id)]
  {
    match prc
    case None => (None, t)
    case Some(p) => ValApply(p, t)
  }

  /** `op(name)` through `Safe_prc`. */
  function SafeOp(prc: Option<ExprPrc>, name: string, t: Trace): (r: (Option<ArgsPrc>, Trace))
    ensures prc.None? ==> r.0.None? && r.1 == t
    ensures prc.Some? ==> r.0 == prc.value.opReply(name) && r.1 == t + [OpEvent(prc.value.id, name)]
  {
    match prc
    case None => (None, t)
    case Some(p) => OpApply(p, name, t)
  }

  /** `call(func)` through `Safe_prc`. */
  function SafeCall(prc: Option<ExprPrc>, func: DbObj, t: Trace): (r: (Option<ArgsPrc>, Trace))
    ensures prc.None? ==> r.0.None? && r.1 == t
    ensures prc.Some? ==> r.0 == prc.value.callReply(func) && r.1 == t + [CallEvent(prc.value.id, func)]
  {
    match prc
    case None => (None, t)
    case Some(p) => CallApply(p, func, t)
  }

  /** `var`, the three `id` overloads and the three `placeholder` overloads
      through `Safe_prc`. */
  function SafeExpr(prc: Option<ExprPrc>, c: ExprCall, t: Trace): (t': Trace)
    ensures prc.None? ==> t' == t
    ensures prc.Some? ==>
              |t'| == |t| + 1 && t'[..|t|] == t && t'[|t|] == ExprEvent(prc.value.id, c)
  {
    match prc
    case None => t
    case Some(p) => ExprApply(p, c, t)
  }

  /** Every wrapped call on a present processor is the plain call on it. */
  lemma SafeForwards(p: ExprPrc, s: ScalarPrc, c: ScalarCall, e: ExprCall, name: string, func: DbObj, t: Trace)
    ensures SafeScalar(Some(s), c, t) == ScalarApply(s, c, t)
    ensures SafeVal(Some(p), t) == ValApply(p, t)
    ensures SafeOp(Some(p), name, t) == OpApply(p, name, t)
    ensures SafeCall(Some(p), func, t) == CallApply(p, func, t)
    ensures SafeExpr(Some(p), e, t) == ExprApply(p, e, t)
  {
  }

  /** One step of a producer talking to an expression processor: a void
      callback, or `val()` followed by scalar calls on the value processor it
      yields, or `op`/`call` (whose argument processor is not driven here). */
  datatype ExprStep =
    | Plain(call: ExprCall)
    | Literal(scalars: seq<ScalarCall>)
    | Operator(name: string)
    | FunctionCall(func: DbObj)

  /** Makes the steps, in order, through `Safe_prc`; the scalar calls of a
      literal go through the wrapper of whatever `val()` returned.  As with
      scalar calls, events are only ever appended. */
  function DriveExpr(prc: Option<ExprPrc>, steps: seq<ExprStep>, t: Trace): (t': Trace)
    ensures |t| <= |t'| && t'[..|t|] == t
    decreases |steps|
  {
    if steps == [] then t
    else
      var t1 := match steps[0]
        case Plain(c) => SafeExpr(prc, c, t)
        case Literal(scalars) =>
          var (v, tv) := SafeVal(prc, t);
          DriveScalar(v, scalars, tv)
        case Operator(name) => SafeOp(prc, name, t).1
        case FunctionCall(func) => SafeCall(prc, func, t).1;
      DriveExpr(prc, steps[1..], t1)
  }

  /** Null-safety is transitive: through the wrapper of an absent expression
      processor nothing is recorded, not even by the scalar calls on the value
      wrappers it hands out. */
  lemma {:induction false} AbsentExprIsSilent(steps: seq<ExprStep>, t: Trace)
    ensures DriveExpr(None, steps, t) == t
  {
    if steps != [] {
      if steps[0].Literal? {
        AbsentScalarIsSilent(steps[0].scalars, t);
      }
      AbsentExprIsSilent(steps[1..], t);
    }
  }

  /** A value the processor declines is silent: after `val()` returns absent,
      the scalar calls that describe the value leave the trace as `val()` left
      it. */
  lemma DeclinedValueIsSilent(p: ExprPrc, scalars: seq<ScalarCall>, t: Trace)
    requires p.valReply.None?
    ensures DriveExpr(Some(p), [Literal(scalars)], t) == t + [ValEvent(p.id)]
  {
    AbsentScalarIsSilent(scalars, t + [ValEvent(p.id)]);
  }

  /** A value the processor accepts reaches the value processor it returned,
      call for call. */
  lemma AcceptedValueForwards(p: ExprPrc, scalars: seq<ScalarCall>, t: Trace)
    requires p.valReply.Some?
    ensures DriveExpr(Some(p), [Literal(scalars)], t)
         == t + [ValEvent(p.id)] + ScalarEvents(p.valReply.value.id, scalars)
  {
    PresentScalarForwardsAll(p.valReply.value, scalars, t + [ValEvent(p.id)]);
  }
}
