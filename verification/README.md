# X protocol engine core of MySQL Connector/C++ — a Dafny model

This project models three small sequential pieces of the X protocol layer of
MySQL Connector/C++ and proves properties about them.

1. **Receive/send operation control** (`cdk/protocol/mysqlx/protocol.h`):
   * the two protocol sides and `other_side`;
   * the host/wire conversion of the 32-bit frame size (`HTONSIZE`/`NTOHSIZE`) and the header and buffer constants;
   * `Protocol_impl::rcv_start`, which recycles a finished receive operation or resumes a live one;
   * the completion flags of `Op_base` and `Op_snd`;
   * the stage and processor binding of `Op_rcv`;
   * the policy functions `next_msg`, `process_next` and `process_msg`;
   * the side/type switch of `Message_dispatcher::process_msg_with`.
2. **Value/expression callbacks** (`cdk/include/mysql/cdk/protocol/mysqlx_expr.h`):
   * the scalar and expression processor interfaces;
   * the document-path interface and its five step kinds;
   * the null-safe decorators `Safe_prc<Scalar_processor>` and `Safe_prc<Expr_processor>`.
3. **Result ownership** (`include/result.h`):
   * the `BaseResult` default constructor;
   * `BaseResult::init` and the move constructors built on it;
   * `Row::operator[]`.

Modules (one file each):

| file | module | models |
|---|---|---|
| wrappers.dfy | Wrappers | `Option` for pointers that may be NULL, `Result` and `Fault` for `THROW` |
| frame.dfy | Frame | frame size byte order, header length, buffer limits |
| protocol.dfy | Protocol | sides, `Op_base`, `Op_snd`, `Op_rcv` binding, `Protocol_impl::rcv_start` |
| receive.dfy | Receive | `next_msg`, `process_next`, `process_msg` |
| dispatch.dfy | Dispatch | `Message_dispatcher::process_msg_with` |
| docpaths.dfy | DocPaths | `Doc_path` |
| processors.dfy | Processors | `Scalar_processor`, `Expr_processor`, `Safe_prc` |
| results.dfy | Results | `BaseResult`, `RowResult` move constructors, `Row` |

Modelling choices:

- **Abstract message types.** Message types are a datatype with `Error`, `Notice` and `Other(code)`. Decoded messages are an abstract datatype with the fields the engine reads.
- **Opaque engine collaborators.** The frame reader/writer and the transport are opaque. Where the engine consults them, their answer is a parameter: for example, the `wr_cont()` result passed to `Op_snd::do_cont`.
- **Override hooks as parameters.** `do_next_msg`, `do_process_next` and `do_process_msg` are parameters, and their defaults are given.
- **Processors as event recorders.** A call on a processor appends one event, naming the processor, the overload and the arguments, to a trace. `Safe_prc` maps an `Option` processor and a call to a trace update. The sub-processor that `val`, `op` or `call` returns is part of the processor's behaviour.
- **Results in a store.** Result objects live in a store keyed by object identity. This makes visible both the source and the target of a move, and the case where they are the same object.
- **Out-of-range sides.** `Protocol_side` has only the values `SERVER` and `CLIENT`, so the `default: THROW` branches of `other_side` and `process_msg_with` are defensive. `Side.OutOfRange` stands for whatever an invalid cast to `Protocol_side` would produce, and those branches are modelled as `Failure` results.
- **Build-time byte order.** `Frame.Endianness` stands for the `BIG_ENDIAN` build macro (`protocol.h:76`), not for the order of the machine the library runs on. The lemmas that relate the size conversions to the wire's little-endian layout take the two to agree.
- **Receive operation classes.** `rcv_start` is a template over the concrete receive operation class `Rcv`. A receive operation carries its class as `kind`. `rcv_start` casts a live operation to `Rcv` without checking it (a "TODO: operation type check" in the source), so `Protocol.RcvStart` requires that a live operation is of the requested class.
- **Uninitialised `m_msg_type`.** The `Op_rcv` constructor leaves `m_msg_type` uninitialised. It is modelled as `None` until a header has been read, and `process_next`/`process_msg` require it to be set.

Details of the source that the model reproduces as written:

- **`process_msg` routing.** It routes on the member `m_msg_type` and ignores its `type` parameter for errors and notices. `Receive.RoutingFollowsMember` and `Receive.NoticeArgumentIsNotEnough` make this explicit.
- **Unknown-type message.** The dispatcher reports an unknown type with the text "unknown server message type" on the client side as well as on the server side.
- **`next_msg` on both sides.** `next_msg` treats `Error` and `Notice` as expected on both sides, not only for server messages.
- **Self-move loses ownership.** `BaseResult::init` applied to the object itself (self-move) leaves it not owning its implementation. `Results.SelfInitDropsOwnership` states this.

## Model

| member | source | states |
|---|---|---|
| Frame.BufferLimits | cdk/protocol/mysqlx/protocol.h:85-90 | the header is 5 bytes (4 size + 1 type) and both buffer limits are 1 GiB, which fits the 32-bit size field |
| Frame.Bswap32 | cdk/protocol/mysqlx/protocol.h:76-78 | `bswap32` reverses the order of the four bytes of a size |
| Frame.HtonSize | cdk/protocol/mysqlx/protocol.h:76-82 | `HTONSIZE` turns a host-order size into one that the host stores as the size's little-endian bytes, which is the wire order |
| Frame.NtohSize | cdk/protocol/mysqlx/protocol.h:76-82 | `NTOHSIZE` turns a size read in wire order into the little-endian value of the bytes the host holds for it |
| Frame.Bswap32Involutive | cdk/protocol/mysqlx/protocol.h:76-78 | swapping the bytes of a size twice gives back the size |
| Frame.SizeConversionRoundTrip | cdk/protocol/mysqlx/protocol.h:76-82 | `HTONSIZE` and `NTOHSIZE` are the same transformation on either host; host→wire→host and wire→host→wire return the original 32-bit size |
| Frame.HtonSizeStoresLittleEndian | cdk/protocol/mysqlx/protocol.h:63-82 | after `HTONSIZE`, the bytes the host keeps for a size are its little-endian encoding, whatever the host order |
| Frame.NtohSizeLoadsLittleEndian | cdk/protocol/mysqlx/protocol.h:63-82 | four wire bytes loaded by the host and converted by `NTOHSIZE` give their little-endian value, whatever the host order |
| Protocol.OtherSide | cdk/protocol/mysqlx/protocol.h:99-108 | succeeds exactly on the two valid sides and then never returns its argument; an unknown side fails with "unknown protocol side" |
| Protocol.OtherSideInvolutive | cdk/protocol/mysqlx/protocol.h:99-108 | applying `other_side` twice gives back the original side |
| Protocol.EnginesFaceEachOther | cdk/protocol/mysqlx/protocol.h:284-303 | the client engine receives from the server and the server engine from the client, which are each other's `other_side` |
| Protocol.NewOpBase | cdk/protocol/mysqlx/protocol.h:329-332 | a new operation is neither completed nor done |
| Protocol.IsCompleted | cdk/protocol/mysqlx/protocol.h:338 | `is_completed()` is the completion flag `m_completed` |
| Protocol.IsDone | cdk/protocol/mysqlx/protocol.h:334 | `is_done()` equals `is_completed()` in every state |
| Protocol.NewSndOp | cdk/protocol/mysqlx/protocol.h:383-387 | a new send operation is not completed |
| Protocol.SndCont | cdk/protocol/mysqlx/protocol.h:389-395 | `do_cont` returns what `wr_cont()` returned; a true return completes the operation; a false return leaves it unchanged |
| Protocol.SndWait | cdk/protocol/mysqlx/protocol.h:397-401 | after `do_wait` the operation is completed |
| Protocol.PollSend | cdk/protocol/mysqlx/protocol.h:389-395 | calling `do_cont` until it returns true completes the send exactly when the writer reports completion, at the first such report, with every earlier call returning false |
| Protocol.NewRcvOp | cdk/protocol/mysqlx/protocol.h:476-480 | a new receive operation of a given class is at stage HEADER, has no processor and is not done |
| Protocol.ReadMsg | cdk/protocol/mysqlx/protocol.h:487-492 | `read_msg(prc)` binds `prc` and sets the stage to HEADER, keeping identity and completion |
| Protocol.ReadMsgAgain | cdk/protocol/mysqlx/protocol.h:499-503 | `read_msg()` needs a bound processor, re-binds that same processor and sets the stage to HEADER |
| Protocol.ReadMsgAgainRepeatsLast | cdk/protocol/mysqlx/protocol.h:487-503 | `read_msg()` after `read_msg(prc)` starts the next message exactly as a second `read_msg(prc)` would, and leaves the operation as one `read_msg(prc)` does |
| Protocol.Resume | cdk/protocol/mysqlx/protocol.h:270-273 | resuming binds the new processor and keeps the operation's identity, stage and completion |
| Protocol.ClientEngine | cdk/protocol/mysqlx/protocol.h:289-291 | the client-side engine receives from SERVER and has no receive operation |
| Protocol.ServerEngine | cdk/protocol/mysqlx/protocol.h:300-302 | the server-side engine receives from CLIENT and has no receive operation |
| Protocol.RcvStart | cdk/protocol/mysqlx/protocol.h:256-275 | a live receive op, which must be of the requested class, is resumed (same identity, no new op created); a done or absent one is replaced by a new op of the requested class at HEADER with a fresh identity; afterwards an op of that class is present, not done, and bound to the new processor |
| Protocol.RcvStartTwiceResumes | cdk/protocol/mysqlx/protocol.h:256-275 | starting twice without the op finishing continues one operation: same identity, new processor, no op created |
| Receive.DefaultDoNextMsg | cdk/protocol/mysqlx/protocol.h:525 | the default `do_next_msg` never answers EXPECTED or STOP |
| Receive.NextMsgOf | cdk/protocol/mysqlx/protocol.h:524-536 | Error and Notice are EXPECTED whatever the override says; other types get `do_next_msg`'s answer |
| Receive.DefaultNextMsg | cdk/protocol/mysqlx/protocol.h:524-536 | with the default override a type is EXPECTED exactly when it is Error or Notice, and STOP never occurs |
| Receive.ProcessNext | cdk/protocol/mysqlx/protocol.h:557-567 | after a Notice read on, after an Error stop, otherwise `do_process_next()`; decided by `m_msg_type` |
| Receive.DefaultProcessNext | cdk/protocol/mysqlx/protocol.h:557-567 | with the default override another message is read exactly after a Notice, and an Error stops the cycle under any override |
| Receive.ToShort | cdk/protocol/mysqlx/protocol.h:604 | the `(short)` cast yields a 16-bit two's-complement value congruent to its argument modulo 2^16 |
| Receive.ToShortKeepsShorts | cdk/protocol/mysqlx/protocol.h:604 | a scope already in the range of `short` passes the cast unchanged |
| Receive.ProcessMsg | cdk/protocol/mysqlx/protocol.h:595-623 | exactly one effect: a `notice(type, (short)scope, payload)` for a Notice, an `error(code, 2, sqlstate, msg)` for an Error (both to the bound processor), and only `do_process_msg(type, msg)` otherwise; chosen by `m_msg_type` |
| Receive.OtherMessagesBypassSink | cdk/protocol/mysqlx/protocol.h:621-622 | a message of any other type produces no error or notice call |
| Receive.SeverityCollapsed | cdk/protocol/mysqlx/protocol.h:613-618 | ERROR and FATAL server errors produce the same call, with severity 2 |
| Receive.RoutingFollowsMember | cdk/protocol/mysqlx/protocol.h:599-611 | for Notice/Error headers the `type` argument does not affect the outcome, which is a sink call |
| Receive.NoticeArgumentIsNotEnough | cdk/protocol/mysqlx/protocol.h:599-622 | a Notice argument with another type recorded in `m_msg_type` goes to `do_process_msg`, not to the sink |
| Dispatch.Listed | cdk/protocol/mysqlx/protocol.h:660-678 | the server side consults the server-message entries of `MSG_LIST`, the client side the client-message entries |
| Dispatch.ProcessMsgWith | cdk/protocol/mysqlx/protocol.h:649-684 | succeeds exactly when the side is valid and the type is listed for that side, calling that side's handler; an unknown side fails with "unknown protocol side", an unlisted type with "unknown server message type" |
| Dispatch.OtherSidesTypesRejected | cdk/protocol/mysqlx/protocol.h:662-679 | a type not listed for the receiving side is rejected even if listed for the other side |
| DocPaths.TypeCode | cdk/include/mysql/cdk/protocol/mysqlx_expr.h:243-249 | every step kind has a code between 1 and 5 |
| DocPaths.TypeOfCode | cdk/include/mysql/cdk/protocol/mysqlx_expr.h:243-249 | exactly the codes 1..5 name a step kind |
| DocPaths.TypeCodesRoundTrip | cdk/include/mysql/cdk/protocol/mysqlx_expr.h:243-249 | kind→code→kind and code→kind→code are identities: MEMBER=1, MEMBER_ASTERISK=2, ARRAY_INDEX=3, ARRAY_INDEX_ASTERISK=4, DOUBLE_ASTERISK=5 |
| DocPaths.TypeCodesDistinct | cdk/include/mysql/cdk/protocol/mysqlx_expr.h:243-249 | two kinds share a code only if they are the same kind |
| DocPaths.Length | cdk/include/mysql/cdk/protocol/mysqlx_expr.h:253 | `length()` is the number of path elements |
| DocPaths.GetType | cdk/include/mysql/cdk/protocol/mysqlx_expr.h:254 | each position in 0..length()-1 reports the one kind of its element |
| DocPaths.GetName | cdk/include/mysql/cdk/protocol/mysqlx_expr.h:221-227 | a name is reported exactly for MEMBER elements, and it is the element's name |
| DocPaths.GetIndex | cdk/include/mysql/cdk/protocol/mysqlx_expr.h:228-229 | an index is reported exactly for ARRAY_INDEX elements, and it is the element's index |
| DocPaths.ReadBack | cdk/include/mysql/cdk/protocol/mysqlx_expr.h:221-256 | walking positions 0..length()-1 through the accessors alone rebuilds the path exactly, in order |
| DocPaths.ExamplePath | cdk/include/mysql/cdk/protocol/mysqlx_expr.h:221-256 | the path `.x[2].**` reports length 3, MEMBER "x", ARRAY_INDEX 2 and DOUBLE_ASTERISK |
| Processors.SafeScalar | cdk/include/mysql/cdk/protocol/mysqlx_expr.h:285-309 | each of the nine scalar callbacks is a no-op on an absent processor, and otherwise reaches the processor exactly once with the same overload and arguments |
| Processors.DriveScalar | cdk/include/mysql/cdk/protocol/mysqlx_expr.h:285-309 | a sequence of scalar calls through `Safe_prc` only appends to what processors have received |
| Processors.AbsentScalarIsSilent | cdk/include/mysql/cdk/protocol/mysqlx_expr.h:285-309 | any sequence of scalar calls through a wrapper of an absent processor leaves the trace unchanged |
| Processors.PresentScalarForwardsAll | cdk/include/mysql/cdk/protocol/mysqlx_expr.h:285-309 | through a wrapper of a present processor, every call arrives in order and unchanged, and nothing else is recorded |
| Processors.SafeVal | cdk/include/mysql/cdk/protocol/mysqlx_expr.h:334-335 | `val()` yields absent on an absent processor; otherwise exactly what the processor returned, NULL included, after one `val` call |
| Processors.SafeOp | cdk/include/mysql/cdk/protocol/mysqlx_expr.h:337-338 | `op(name)` yields absent on an absent processor; otherwise exactly the processor's answer after one `op(name)` call |
| Processors.SafeCall | cdk/include/mysql/cdk/protocol/mysqlx_expr.h:340-341 | `call(func)` yields absent on an absent processor; otherwise exactly the processor's answer after one `call(func)` call |
| Processors.SafeExpr | cdk/include/mysql/cdk/protocol/mysqlx_expr.h:343-362 | `var`, the three `id` and the three `placeholder` overloads are no-ops on an absent processor and otherwise arrive once, unchanged |
| Processors.SafeForwards | cdk/include/mysql/cdk/protocol/mysqlx_expr.h:285-362 | on a present processor every wrapped call equals the plain call on that processor |
| Processors.DriveExpr | cdk/include/mysql/cdk/protocol/mysqlx_expr.h:334-362 | a sequence of expression callbacks through `Safe_prc`, including the scalar calls on the value wrappers, only appends to what processors have received |
| Processors.AbsentExprIsSilent | cdk/include/mysql/cdk/protocol/mysqlx_expr.h:334-362 | null safety is transitive: no call through an absent expression processor, or through the value wrappers it yields, records anything |
| Processors.DeclinedValueIsSilent | cdk/include/mysql/cdk/protocol/mysqlx_expr.h:186-191 | once `val()` declines (returns NULL), the scalar calls describing the value record nothing |
| Processors.AcceptedValueForwards | cdk/include/mysql/cdk/protocol/mysqlx_expr.h:334-335 | when `val()` returns a processor, the scalar calls reach that processor call for call |
| Results.DefaultResult | include/result.h:50-53 | a default result has no impl, owns it and is at position 0; adding it to a store changes no real impl's owners |
| Results.Init | include/result.h:78-90 | the target gets the other's impl at position 0; ownership moves from the other to the target if the other owned it; otherwise the target does not own and the other is unchanged; the other's impl and position never change, and its flag can only go from true to false; a result initialised from itself ends up not owning |
| Results.InitNeverAddsOwners | include/result.h:79-90 | no impl gains owners through `init`; the new owners are the old ones with the source replaced by the target |
| Results.InitKeepsSingleOwner | include/result.h:79-90 | `init` preserves "every impl has at most one owner" |
| Results.SelfInitDropsOwnership | include/result.h:79-90 | `init` of a result from itself leaves it holding its impl without owning it |
| Results.MoveConstruct | include/result.h:65 | a move-constructed result takes the source's impl and ownership at position 0, and the source no longer owns |
| Results.MoveConstructIsInit | include/result.h:212-218 | the move constructors equal `init` on a new object whatever its uninitialised fields hold |
| Results.MoveConstructKeepsSingleOwner | include/result.h:65 | move construction preserves "every impl has at most one owner" |
| Results.Index | include/result.h:173-175 | `row[pos]` is the value `get(pos)` returns |

## Left out

- Stream I/O is not modelled. The bodies of `read_header`, `read_payload`, `rd_cont`, `rd_wait`, `write_msg`, `wr_cont`, `wr_wait` and `resize_buf` are declared in `protocol.h` but defined elsewhere. Their answers enter the model as parameters (`SndCont`, `PollSend`).
- The wire layout of the frame header is not modelled, because the header reader and writer (`read_header`, `write_msg`) are defined outside `protocol.h`. Only the byte order of the size field and the constants are.
- Protobuf message (de)serialisation and the `MSG_LIST` table are not modelled. The message table is a parameter of `Dispatch.ProcessMsgWith`, and the concrete type codes are abstract.
- The bodies of `Op_rcv::do_read_msg`, `do_cont`, `do_wait`, `process_payload` and `finish` are not modelled, because they are defined outside `protocol.h`. So the multi-message loop that calls `next_msg` and `process_next` is not modelled either, and neither is the code that assigns `m_msg_type`.
- `Protocol.Resume`: `Rcv::resume` belongs to the concrete receive operations, which are not part of this model. It is modelled only as binding the new processor.
- `Protocol.RcvStart`: that a resumed operation keeps its stage, completion and `m_msg_type` is an assumption about `Rcv::resume`, not a property of the source. A `resume` that starts the next message through `read_msg(prc)` would reset the stage to HEADER. The case of a live operation of another class than `Rcv` is excluded by a precondition: the source casts it unchecked, which is undefined behaviour.
- `Protocol.RcvStartTwiceResumes`: the same stage before and after the second start holds only under the assumed `Rcv::resume`, as for `Protocol.RcvStart`.
- `Protocol_impl::snd_start` is not modelled, because its definition is not in `protocol.h`.
- Error capture in `save_error`/`throw_saved_error` is not modelled. It is exception cloning and rethrow, and no modelled operation uses it.
- `do_cancel`, `do_get_result` and `get_event_info` are not modelled. They only throw "not implemented" or return NULL.
- `Processors.SafeOp`, `Processors.SafeCall`: `Safe_prc<Args_prc>`, the wrapper around the argument-list processor that `op` and `call` return, is defined outside `mysqlx_expr.h`. The model gives only the returned handle, not the calls on it.
- The `num(float)` and `num(double)` arguments are carried as opaque bit patterns. They are only forwarded, so floating-point semantics play no part.
- `DocPaths.GetName`, `DocPaths.GetIndex`: the interface does not say what `get_name` and `get_index` return for other element kinds. The model's path returns absent (NULL) for them.
- The `#if 0` `Expr_processor` block at the end of `protocol.h` is not modelled, because it is not compiled.
- `DocResult`'s move constructors are not modelled. They rely on `DocResult::operator=(BaseResult&&)`, which is only declared. The result `Impl`, `fetchOne` and `getColumnCount` are also not modelled, because they are declarations only.
- The `BaseResult` destructor is not modelled, because it is only declared. So nothing states that the target's previously owned impl is released when `init` overwrites it.
- Thread safety is not modelled. Each engine and result object is used by one thread at a time.
