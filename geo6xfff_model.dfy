/**
 * The record of a 6xFFF geometry check. Besides the fields every beam record has,
 * it holds 32 scalar measurements and four leaf maps (MLC leaf offsets and
 * backlash for banks A and B), each created with the keys `Leaf11` .. `Leaf50`.
 * The scalar attributes are held in one map keyed by `Scalar`.
 */
module Geo6xfff {
  import opened Wrappers
  import opened Text
  import opened PyDecimal
  import opened PathMetadata

  /** The scalar measurements, one per `get_X`/`set_X` pair of the class. */
  datatype Scalar =
    | IsoCenterSize | IsoCenterMVOffset | IsoCenterKVOffset
    | RelativeOutput | RelativeUniformity | CenterShift
    | CollimationRotationOffset
    | GantryAbsolute | GantryRelative
    | CouchMaxPositionError | CouchLat | CouchLng | CouchVrt | CouchRtnFine | CouchRtnLarge
    | RotationInducedCouchShiftFullRange
    | MaxOffsetA | MaxOffsetB | MeanOffsetA | MeanOffsetB
    | MLCBacklashMaxA | MLCBacklashMaxB | MLCBacklashMeanA | MLCBacklashMeanB
    | JawX1 | JawX2 | JawY1 | JawY2
    | JawParallelismX1 | JawParallelismX2 | JawParallelismY1 | JawParallelismY2

  const AllScalars: set<Scalar> := {
    IsoCenterSize, IsoCenterMVOffset, IsoCenterKVOffset,
    RelativeOutput, RelativeUniformity, CenterShift,
    CollimationRotationOffset,
    GantryAbsolute, GantryRelative,
    CouchMaxPositionError, CouchLat, CouchLng, CouchVrt, CouchRtnFine, CouchRtnLarge,
    RotationInducedCouchShiftFullRange,
    MaxOffsetA, MaxOffsetB, MeanOffsetA, MeanOffsetB,
    MLCBacklashMaxA, MLCBacklashMaxB, MLCBacklashMeanA, MLCBacklashMeanB,
    JawX1, JawX2, JawY1, JawY2,
    JawParallelismX1, JawParallelismX2, JawParallelismY1, JawParallelismY2 }

  /** The three setters whose later definitions in the class replace the coercing
      ones and store their argument as given. */
  const Unconverted: set<Scalar> := {RelativeOutput, RelativeUniformity, CenterShift}

  /** The four leaf dictionaries. */
  datatype LeafMap = MLCLeavesA | MLCLeavesB | MLCBacklashA | MLCBacklashB

  /** The dictionary key of leaf `i`: `f"Leaf{i}"`. */
  function LeafKey(i: int): string
  {
    "Leaf" + IntToString(i)
  }

  /** The keys every leaf dictionary is created with. */
  const LeafKeys: set<string> := set i | 11 <= i <= 50 :: LeafKey(i)

  /** The fields of a `Geo6xfffModel`, as a value. */
  datatype GeoState = GeoState(
    beamType: string, path: string, date: Option<DateTime>, machineSN: Option<string>,
    scalars: map<Scalar, Decimal>,
    leavesA: map<string, Decimal>, leavesB: map<string, Decimal>,
    backlashA: map<string, Decimal>, backlashB: map<string, Decimal>)

  function Leaves(st: GeoState, m: LeafMap): map<string, Decimal>
  {
    match m
    case MLCLeavesA => st.leavesA
    case MLCLeavesB => st.leavesB
    case MLCBacklashA => st.backlashA
    case MLCBacklashB => st.backlashB
  }

  /** Every scalar is present and every leaf dictionary still holds its initial keys. */
  predicate GoodState(st: GeoState)
  {
    (forall f: Scalar :: f in st.scalars)
    && LeafKeys <= st.leavesA.Keys && LeafKeys <= st.leavesB.Keys
    && LeafKeys <= st.backlashA.Keys && LeafKeys <= st.backlashB.Keys
  }

  const ZeroLeaves: map<string, Decimal> := map k | k in LeafKeys :: Zero

  /** What a fresh `Geo6xfffModel` holds: the inherited fields of a fresh
      `AbstractBeamModel`, every scalar `Decimal('0.0')`, and each leaf dictionary
      `Leaf11` .. `Leaf50` all `Decimal('0.0')`. */
  const Fresh: GeoState := GeoState("", "", None, None, map f | f in AllScalars :: Zero,
                                     ZeroLeaves, ZeroLeaves, ZeroLeaves, ZeroLeaves)

  /** `get_MLCLeafA(i)` and its three siblings: KeyError for a key never set. */
  function LeafGet(st: GeoState, m: LeafMap, i: int): (r: Result<Decimal>)
    ensures r.Ok? <==> LeafKey(i) in Leaves(st, m)
    ensures r.Ok? ==> r.value == Leaves(st, m)[LeafKey(i)]
    ensures r.Err? ==> r.error == KeyError
  {
    if LeafKey(i) in Leaves(st, m) then Ok(Leaves(st, m)[LeafKey(i)]) else Err(KeyError)
  }

  /** `set_MLCLeafA(i, v)` and its three siblings, on the state: store under `Leaf<i>`,
      adding the key when it is new. */
  function WithLeaf(st: GeoState, m: LeafMap, i: int, v: Decimal): (r: GeoState)
    ensures Leaves(r, m) == Leaves(st, m)[LeafKey(i) := v]
    ensures m != MLCLeavesA ==> r.leavesA == st.leavesA
    ensures m != MLCLeavesB ==> r.leavesB == st.leavesB
    ensures m != MLCBacklashA ==> r.backlashA == st.backlashA
    ensures m != MLCBacklashB ==> r.backlashB == st.backlashB
    ensures SameScalars(r, st)
  {
    Store(st, m, LeafKey(i), ViaStr(v))
  }

  /** One leaf dictionary with `k` set to `w`. */
  function Store(st: GeoState, m: LeafMap, k: string, w: Decimal): (r: GeoState)
    ensures Leaves(r, m) == Leaves(st, m)[k := w]
    ensures m != MLCLeavesA ==> r.leavesA == st.leavesA
    ensures m != MLCLeavesB ==> r.leavesB == st.leavesB
    ensures m != MLCBacklashA ==> r.backlashA == st.backlashA
    ensures m != MLCBacklashB ==> r.backlashB == st.backlashB
    ensures SameScalars(r, st)
  {
    match m
    case MLCLeavesA => st.(leavesA := st.leavesA[k := w])
    case MLCLeavesB => st.(leavesB := st.leavesB[k := w])
    case MLCBacklashA => st.(backlashA := st.backlashA[k := w])
    case MLCBacklashB => st.(backlashB := st.backlashB[k := w])
  }

  /** The two states agree on everything but the leaf dictionaries. */
  predicate SameScalars(a: GeoState, b: GeoState)
  {
    a.beamType == b.beamType && a.path == b.path && a.date == b.date
    && a.machineSN == b.machineSN && a.scalars == b.scalars
  }

  /** `set_X(v)` for a scalar: the coercing setters store `Decimal(str(v))`, the
      three overriding ones `v` itself; either way the field then holds `v`. */
  function WithScalar(st: GeoState, f: Scalar, v: Decimal): (r: GeoState)
    ensures r == st.(scalars := st.scalars[f := v])
  {
    st.(scalars := st.scalars[f := if f in Unconverted then v else ViaStr(v)])
  }

  class Geo6xfffModel {
    var beamType: string
    var path: string
    var date: Option<DateTime>
    var machineSN: Option<string>
    var scalars: map<Scalar, Decimal>
    var leavesA: map<string, Decimal>
    var leavesB: map<string, Decimal>
    var backlashA: map<string, Decimal>
    var backlashB: map<string, Decimal>

    function State(): GeoState
      reads this
    {
      GeoState(beamType, path, date, machineSN, scalars, leavesA, leavesB, backlashA, backlashB)
    }

    predicate Valid()
      reads this
    {
      GoodState(State())
    }

    constructor()
      ensures State() == Fresh && Valid()
    {
      beamType, path, date, machineSN := "", "", None, None;
      scalars := map f | f in AllScalars :: Zero;
      leavesA, leavesB, backlashA, backlashB := ZeroLeaves, ZeroLeaves, ZeroLeaves, ZeroLeaves;
      FreshGood();
    }

    function GetType(): string reads this { beamType }
    function GetPath(): string reads this { path }
    function GetDate(): Option<DateTime> reads this { date }
    function GetMachineSN(): Option<string> reads this { machineSN }

    function GetScalar(f: Scalar): Decimal
      reads this
      requires Valid()
    {
      scalars[f]
    }

    function GetLeaf(m: LeafMap, i: int): Result<Decimal>
      reads this
    {
      LeafGet(State(), m, i)
    }

    method SetType(t: string)
      modifies this
      ensures State() == old(State()).(beamType := t)
    {
      beamType := t;
    }

    method SetPath(p: string)
      modifies this
      ensures State() == old(State()).(path := p)
    {
      path := p;
    }

    method SetDate(d: Option<DateTime>)
      modifies this
      ensures State() == old(State()).(date := d)
    {
      date := d;
    }

    method SetMachineSN(sn: Option<string>)
      modifies this
      ensures State() == old(State()).(machineSN := sn)
    {
      machineSN := sn;
    }

    method SetScalar(f: Scalar, v: Decimal)
      modifies this
      ensures State() == WithScalar(old(State()), f, v)
      ensures old(Valid()) ==> Valid() && GetScalar(f) == v
    {
      var w := if f in Unconverted then v else ViaStr(v);
      scalars := scalars[f := w];
    }

    method SetLeaf(m: LeafMap, i: int, v: Decimal)
      modifies this
      ensures State() == WithLeaf(old(State()), m, i, v)
      ensures GetLeaf(m, i) == Ok(v)
      ensures old(Valid()) ==> Valid()
    {
      var k := LeafKey(i);
      match m
      case MLCLeavesA => leavesA := leavesA[k := ViaStr(v)];
      case MLCLeavesB => leavesB := leavesB[k := ViaStr(v)];
      case MLCBacklashA => backlashA := backlashA[k := ViaStr(v)];
      case MLCBacklashB => backlashB := backlashB[k := ViaStr(v)];
    }
  }

  // ---------------------------------------------------------------------------
  // Properties of the leaf dictionaries
  // ---------------------------------------------------------------------------

  /** `Leaf<i>` is one of the initial keys exactly when 11 <= i <= 50. */
  lemma LeafKeyInitial(i: int)
    ensures LeafKey(i) in LeafKeys <==> 11 <= i <= 50
  {
    if LeafKey(i) in LeafKeys {
      var j :| 11 <= j <= 50 && LeafKey(j) == LeafKey(i);
      LeafKeyInjective(i, j);
    }
  }

  lemma LeafKeyInjective(i: int, j: int)
    requires LeafKey(i) == LeafKey(j)
    ensures i == j
  {
    assert IntToString(i) == LeafKey(i)[4..];
    assert IntToString(j) == LeafKey(j)[4..];
    IntToStringInjective(i, j);
  }

  /** The keys of leaves `lo` .. `hi - 1`. */
  function KeysFrom(lo: int, hi: int): set<string>
  {
    set i | lo <= i < hi :: LeafKey(i)
  }

  lemma {:induction false} KeysFromCount(lo: int, hi: int)
    requires lo <= hi
    ensures |KeysFrom(lo, hi)| == hi - lo
    decreases hi - lo
  {
    if lo < hi {
      KeysFromCount(lo + 1, hi);
      assert KeysFrom(lo, hi) == KeysFrom(lo + 1, hi) + {LeafKey(lo)};
      if LeafKey(lo) in KeysFrom(lo + 1, hi) {
        var j :| lo + 1 <= j < hi && LeafKey(j) == LeafKey(lo);
        LeafKeyInjective(j, lo);
      }
    } else {
      assert KeysFrom(lo, hi) == {};
    }
  }

  /** There are exactly 40 initial keys. */
  lemma LeafKeysCount()
    ensures |LeafKeys| == 40
  {
    assert LeafKeys == KeysFrom(11, 51);
    KeysFromCount(11, 51);
  }

  /** A fresh record is well formed; each of its leaf dictionaries has exactly the
      40 keys `Leaf11` .. `Leaf50`, all zero, and every scalar is zero. */
  lemma FreshGood()
    ensures GoodState(Fresh)
    ensures forall m :: Leaves(Fresh, m).Keys == LeafKeys && forall k :: k in Leaves(Fresh, m) ==> Leaves(Fresh, m)[k] == Zero
    ensures |LeafKeys| == 40
    ensures forall f :: Fresh.scalars[f] == Zero
  {
    LeafKeysCount();
    forall f: Scalar ensures f in AllScalars {
      match f {
        case IsoCenterSize =>
        case IsoCenterMVOffset =>
        case IsoCenterKVOffset =>
        case RelativeOutput =>
        case RelativeUniformity =>
        case CenterShift =>
        case CollimationRotationOffset =>
        case GantryAbsolute =>
        case GantryRelative =>
        case CouchMaxPositionError =>
        case CouchLat =>
        case CouchLng =>
        case CouchVrt =>
        case CouchRtnFine =>
        case CouchRtnLarge =>
        case RotationInducedCouchShiftFullRange =>
        case MaxOffsetA =>
        case MaxOffsetB =>
        case MeanOffsetA =>
        case MeanOffsetB =>
        case MLCBacklashMaxA =>
        case MLCBacklashMaxB =>
        case MLCBacklashMeanA =>
        case MLCBacklashMeanB =>
        case JawX1 =>
        case JawX2 =>
        case JawY1 =>
        case JawY2 =>
        case JawParallelismX1 =>
        case JawParallelismX2 =>
        case JawParallelismY1 =>
        case JawParallelismY2 =>
      }
    }
  }

  /** On a fresh record, reading leaf `i` succeeds (with zero) exactly when
      11 <= i <= 50, and raises KeyError otherwise. */
  lemma FreshLeafGet(m: LeafMap, i: int)
    ensures LeafGet(Fresh, m, i) == (if 11 <= i <= 50 then Ok(Zero) else Err(KeyError))
  {
    FreshGood();
    LeafKeyInitial(i);
  }

  /** Setting leaf `i` and reading it back gives the value; every other leaf of every
      dictionary, and every other field, is unchanged. */
  lemma LeafSetGet(st: GeoState, m: LeafMap, i: int, v: Decimal, m': LeafMap, j: int)
    ensures LeafGet(WithLeaf(st, m, i, v), m, i) == Ok(v)
    ensures (m', j) != (m, i) ==> LeafGet(WithLeaf(st, m, i, v), m', j) == LeafGet(st, m', j)
  {
    SetThenGet(st, m, i, v);
    if m' == m {
      if j != i {
        OtherKeyUnchanged(st, m, i, v, j);
      }
    } else {
      OtherMapUnchanged(st, m, i, v, m');
    }
  }

  /** Reading back the leaf just set gives its value. */
  lemma SetThenGet(st: GeoState, m: LeafMap, i: int, v: Decimal)
    ensures LeafGet(WithLeaf(st, m, i, v), m, i) == Ok(v)
  {
  }

  /** Setting leaf `i` leaves every other leaf of the same dictionary as it was. */
  lemma OtherKeyUnchanged(st: GeoState, m: LeafMap, i: int, v: Decimal, j: int)
    requires j != i
    ensures LeafGet(WithLeaf(st, m, i, v), m, j) == LeafGet(st, m, j)
  {
    if LeafKey(j) == LeafKey(i) {
      LeafKeyInjective(i, j);
    }
  }

  /** Setting a leaf of one dictionary leaves the other three as they were. */
  lemma OtherMapUnchanged(st: GeoState, m: LeafMap, i: int, v: Decimal, m': LeafMap)
    requires m' != m
    ensures Leaves(WithLeaf(st, m, i, v), m') == Leaves(st, m')
  {
  }

  /** Setting a leaf outside 11 .. 50 for the first time adds a key: it is not
      rejected, and the dictionary grows by one. */
  lemma LeafSetGrows(st: GeoState, m: LeafMap, i: int, v: Decimal)
    requires LeafKey(i) !in Leaves(st, m)
    ensures |Leaves(WithLeaf(st, m, i, v), m)| == |Leaves(st, m)| + 1
    ensures GoodState(st) ==> i < 11 || i > 50
  {
    LeafKeyInitial(i);
    assert Leaves(WithLeaf(st, m, i, v), m).Keys == Leaves(st, m).Keys + {LeafKey(i)};
  }

  /** Setting a scalar or a leaf keeps a well-formed state well formed. */
  lemma SettersKeepGood(st: GeoState, f: Scalar, m: LeafMap, i: int, v: Decimal)
    requires GoodState(st)
    ensures GoodState(WithScalar(st, f, v)) && GoodState(WithLeaf(st, m, i, v))
  {
  }
}
