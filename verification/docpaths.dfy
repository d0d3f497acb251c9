/** Document paths (`Doc_path`): a sequence of steps from a document root,
    each of one of five kinds, read through the accessors `length`,
    `get_type`, `get_name` and `get_index`. */
module DocPaths {
  import opened Wrappers

  /** `Doc_path::Type`. */
  datatype StepType = Member | MemberAsterisk | ArrayIndex | ArrayIndexAsterisk | DoubleAsterisk

  /** The numeric value of each `Doc_path::Type` enumerator. */
  function TypeCode(k: StepType): (c: int)
    ensures 1 <= c <= 5
  {
    match k
    case Member => 1
    case MemberAsterisk => 2
    case ArrayIndex => 3
    case ArrayIndexAsterisk => 4
    case DoubleAsterisk => 5
  }

  /** The enumerator with a given numeric value, if there is one. */
  function TypeOfCode(c: int): (k: Option<StepType>)
    ensures k.Some? <==> 1 <= c <= 5
  {
    if c == 1 then Some(Member)
    else if c == 2 then Some(MemberAsterisk)
    else if c == 3 then Some(ArrayIndex)
    else if c == 4 then Some(ArrayIndexAsterisk)
    else if c == 5 then Some(DoubleAsterisk)
    else None
  }

  /** The five codes are distinct, and each code names exactly one kind. */
  lemma TypeCodesRoundTrip(k: StepType, c: int)
    ensures TypeOfCode(TypeCode(k)) == Some(k)
    ensures TypeOfCode(c).Some? ==> TypeCode(TypeOfCode(c).value) == c
  {
  }

  lemma TypeCodesDistinct(k1: StepType, k2: StepType)
    ensures TypeCode(k1) == TypeCode(k2) <==> k1 == k2
  {
    TypeCodesRoundTrip(k1, 0);
    TypeCodesRoundTrip(k2, 0);
  }

  type Uint32 = x: int | 0 <= x < 0x1_0000_0000

  /** One path element: `.name`, `.*`, `[k]`, `[*]` or `.**`. */
  datatype Step =
    | MemberStep(name: string)
    | MemberAsteriskStep
    | ArrayIndexStep(index: Uint32)
    | ArrayIndexAsteriskStep
    | DoubleAsteriskStep
  {
    function Type(): StepType {
      match this
      case MemberStep(_) => Member
      case MemberAsteriskStep => MemberAsterisk
      case ArrayIndexStep(_) => ArrayIndex
      case ArrayIndexAsteriskStep => ArrayIndexAsterisk
      case DoubleAsteriskStep => DoubleAsterisk
    }
  }

  /** A path; its length is an `unsigned`. */
  type Path = p: seq<Step> | |p| < 0x1_0000_0000

  /** `length()`. */
  function Length(p: Path): (n: Uint32)
    ensures n == |p|
  {
    |p|
  }

  /** `get_type(pos)`, for a position `0 <= pos < length()`. */
  function GetType(p: Path, pos: Uint32): (k: StepType)
    requires pos < Length(p)
    ensures k == Member <==> p[pos].MemberStep?
    ensures k == MemberAsterisk <==> p[pos] == MemberAsteriskStep
    ensures k == ArrayIndex <==> p[pos].ArrayIndexStep?
    ensures k == ArrayIndexAsterisk <==> p[pos] == ArrayIndexAsteriskStep
    ensures k == DoubleAsterisk <==> p[pos] == DoubleAsteriskStep
  {
    p[pos].Type()
  }

  /** `get_name(pos)`: the name of a MEMBER element, absent for the others. */
  function GetName(p: Path, pos: Uint32): (name: Option<string>)
    requires pos < Length(p)
    ensures name.Some? <==> GetType(p, pos) == Member
    ensures name.Some? ==> p[pos] == MemberStep(name.value)
  {
    if p[pos].MemberStep? then Some(p[pos].name) else None
  }

  /** `get_index(pos)`: the index of an ARRAY_INDEX element, absent for the
      others. */
  function GetIndex(p: Path, pos: Uint32): (index: Option<Uint32>)
    requires pos < Length(p)
    ensures index.Some? <==> GetType(p, pos) == ArrayIndex
    ensures index.Some? ==> p[pos] == ArrayIndexStep(index.value)
  {
    if p[pos].ArrayIndexStep? then Some(p[pos].index) else None
  }

  /** The element a consumer rebuilds from what the accessors report for one
      position: the type, and the name or index when the type carries one. */
  function StepFrom(k: StepType, name: Option<string>, index: Option<Uint32>): (s: Option<Step>)
    ensures s.None? <==> (k == Member && name.None?) || (k == ArrayIndex && index.None?)
    ensures s.Some? ==> s.value.Type() == k
  {
    match k
    case Member => if name.Some? then Some(MemberStep(name.value)) else None
    case MemberAsterisk => Some(MemberAsteriskStep)
    case ArrayIndex => if index.Some? then Some(ArrayIndexStep(index.value)) else None
    case ArrayIndexAsterisk => Some(ArrayIndexAsteriskStep)
    case DoubleAsterisk => Some(DoubleAsteriskStep)
  }

  /** A consumer that walks positions 0 .. length()-1 through the accessors
      alone recovers the path exactly: the interface loses no information and
      keeps the order of traversal. */
  method ReadBack(p: Path) returns (q: seq<Step>)
    ensures q == p
  {
    q := [];
    var i: Uint32 := 0;
    while i < Length(p)
      invariant i <= |p|
      invariant q == p[..i]
    {
      var step := StepFrom(GetType(p, i), GetName(p, i), GetIndex(p, i));
      match step {
        case Some(s) => q := q + [s];
        case None => assert false;
      }
      i := i + 1;
    }
  }

  /** The path `.x[2].**` reports three elements with these accessors. */
  lemma ExamplePath()
    ensures var p: Path := [MemberStep("x"), ArrayIndexStep(2), DoubleAsteriskStep];
      && Length(p) == 3
      && GetType(p, 0) == Member && GetName(p, 0) == Some("x")
      && GetType(p, 1) == ArrayIndex && GetIndex(p, 1) == Some(2)
      && GetType(p, 2) == DoubleAsterisk
      && GetName(p, 2).None? && GetIndex(p, 2).None?
  {
  }
}
