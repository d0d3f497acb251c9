/** Ownership of the implementation object behind a result (`BaseResult`).

    A result holds a pointer to its implementation, a flag telling whether it
    owns (and must eventually release) that implementation, and a row
    position.  Moving a result transfers ownership.  Result objects are kept in
    a store indexed by their identity, so that a move can name its source and
    target, which may be the same object. */
module Results {
  import opened Wrappers

  type ImplId = nat
  type ResultId = nat
  /** `row_count_t` is a 64-bit unsigned integer. */
  type RowCount = x: int | 0 <= x < 0x1_0000_0000_0000_0000

  datatype BaseResult = BaseResult(impl: Option<ImplId>, ownsImpl: bool, pos: RowCount)

  type Store = map<ResultId, BaseResult>

  /** The results that own the implementation `x`. */
  function Owners(s: Store, x: ImplId): (owners: set<ResultId>)
    ensures owners <= s.Keys
  {
    set id | id in s && s[id].impl == Some(x) && s[id].ownsImpl
  }

  /** No implementation object has two owners. */
  ghost predicate AtMostOneOwner(s: Store) {
    forall a, b ::
      (a in s && b in s && s[a].ownsImpl && s[b].ownsImpl && s[a].impl.Some? && s[a].impl == s[b].impl)
      ==> a == b
  }

  /** The default constructor: no implementation, the (empty) ownership flag
      set, at the first row.  Such a result owns nothing real. */
  function DefaultResult(): (r: BaseResult)
    ensures r.impl.None? && r.ownsImpl && r.pos == 0
    ensures forall s: Store, id: ResultId, x: ImplId :: id !in s ==> Owners(s[id := r], x) == Owners(s, x)
  {
    BaseResult(None, true, 0)
  }

  /** `BaseResult::init(other)`, used by the move constructors and the move
      assignments: the target takes the other result's implementation, takes
      over its ownership if it had it, and starts at position 0. */
  function Init(s: Store, dst: ResultId, src: ResultId): (s': Store)
    requires dst in s && src in s
    ensures s'.Keys == s.Keys
    ensures s'[dst].pos == 0 && s'[dst].impl == s[src].impl
    ensures dst != src && s[src].ownsImpl ==> s'[dst].ownsImpl && !s'[src].ownsImpl
    ensures dst != src && !s[src].ownsImpl ==> !s'[dst].ownsImpl && s'[src] == s[src]
    ensures dst != src ==> s'[src].impl == s[src].impl && s'[src].pos == s[src].pos
    ensures s'[src].ownsImpl ==> s[src].ownsImpl
    ensures dst == src ==> !s'[dst].ownsImpl
    ensures forall id :: id in s && id != dst && id != src ==> s'[id] == s[id]
  {
    var other := s[src];
    var moved := s[dst := BaseResult(other.impl, other.ownsImpl, 0)];
    if !other.ownsImpl then moved
    else moved[src := moved[src].(ownsImpl := false)]
  }

  lemma SubsetCard(a: set<ResultId>, b: set<ResultId>)
    requires a <= b
    ensures |a| <= |b|
  {
    assert b == a + (b - a);
  }

  /** After `init` no implementation has more owners than before; the owners
      of the moved implementation are the old ones with the source replaced
      by the target. */
  lemma InitNeverAddsOwners(s: Store, dst: ResultId, src: ResultId, x: ImplId)
    requires dst in s && src in s
    ensures Owners(Init(s, dst, src), x) <= Owners(s, x) - {src} + {dst}
    ensures |Owners(Init(s, dst, src), x)| <= |Owners(s, x)|
  {
    var s' := Init(s, dst, src);
    var before, after := Owners(s, x), Owners(s', x);
    if dst != src && s[src].ownsImpl && s[src].impl == Some(x) {
      assert src in before;
      assert after <= (before - {src}) + {dst};
      SubsetCard(after, (before - {src}) + {dst});
      assert |before - {src}| == |before| - 1;
    } else {
      assert after <= before - {dst};
      SubsetCard(after, before);
    }
  }

  /** `init` keeps the "at most one owner" invariant. */
  lemma InitKeepsSingleOwner(s: Store, dst: ResultId, src: ResultId)
    requires dst in s && src in s
    requires AtMostOneOwner(s)
    ensures AtMostOneOwner(Init(s, dst, src))
  {
  }

  /** Moving a result onto itself drops its ownership: the implementation is
      then owned by nobody. */
  lemma SelfInitDropsOwnership(s: Store, r: ResultId)
    requires r in s && s[r].impl.Some? && s[r].ownsImpl
    ensures Init(s, r, r)[r].impl == s[r].impl
    ensures !Init(s, r, r)[r].ownsImpl
    ensures Owners(Init(s, r, r), s[r].impl.value) == Owners(s, s[r].impl.value) - {r}
  {
  }

  /** The move constructors `BaseResult(BaseResult&&)`, `RowResult(RowResult&&)`
      and `RowResult(BaseResult&&)`: a new result object `target` initialised by
      `init` from `src`. */
  function MoveConstruct(s: Store, target: ResultId, src: ResultId): (s': Store)
    requires target !in s && src in s
    ensures s'.Keys == s.Keys + {target}
    ensures s'[target].impl == s[src].impl && s'[target].pos == 0
    ensures s'[target].ownsImpl <==> s[src].ownsImpl
    ensures !s'[src].ownsImpl && s'[src].impl == s[src].impl && s'[src].pos == s[src].pos
    ensures forall id :: id in s && id != src ==> s'[id] == s[id]
  {
    s[target := BaseResult(s[src].impl, s[src].ownsImpl, 0)][src := s[src].(ownsImpl := false)]
  }

  /** The constructor's result does not depend on the uninitialised fields of
      the new object, because `init` overwrites all of them. */
  lemma MoveConstructIsInit(s: Store, target: ResultId, src: ResultId, garbage: BaseResult)
    requires target !in s && src in s
    ensures MoveConstruct(s, target, src) == Init(s[target := garbage], target, src)
  {
  }

  /** A move construction keeps the "at most one owner" invariant. */
  lemma MoveConstructKeepsSingleOwner(s: Store, target: ResultId, src: ResultId)
    requires target !in s && src in s
    requires AtMostOneOwner(s)
    ensures AtMostOneOwner(MoveConstruct(s, target, src))
  {
    var garbage := BaseResult(None, false, 0);
    var s0 := s[target := garbage];
    assert AtMostOneOwner(s0);
    MoveConstructIsInit(s, target, src, garbage);
    InitKeepsSingleOwner(s0, target, src);
  }

  /** `col_count_t` is a 32-bit unsigned integer. */
  type ColCount = x: int | 0 <= x < 0x1_0000_0000

  /** A row of a row result; `get` is its field accessor. */
  datatype Row<V> = Row(get: ColCount -> V)

  /** `row[pos]`: the same value as `get(pos)`. */
  function Index<V>(row: Row<V>, pos: ColCount): (v: V)
    ensures v == row.get(pos)
  {
    row.get(pos)
  }
}
