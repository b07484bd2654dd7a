/**
 * The getters the extractors' test printers and the uploaders call by name on the
 * record they are given. As with the setters, a getter the record's class does not
 * define raises AttributeError, and a leaf getter raises KeyError for a leaf
 * dictionary key that was never created.
 */
module Getters {
  import opened Wrappers
  import opened PyDecimal
  import opened PathMetadata
  import opened Geo6xfff
  import opened Beams

  /** One getter call, by the Python method it names. */
  datatype Get =
    | GetType                        // get_type
    | GetDate                        // get_date
    | GetPath                        // get_path
    | GetScalar(f: Scalar)           // get_relative_output, get_CouchLat, ...
    | GetRelativeOut                 // EBeamModel.get_relative_out
    | GetLeaf(m: LeafMap, i: int)    // get_MLCLeafA(i), ..., get_MLCBacklashB(i)

  /** What a getter returns: a string, a date or None, or a decimal. */
  datatype Value = StrValue(s: string) | DateValue(d: Option<DateTime>) | DecValue(n: Decimal)

  /** Whether the class named `cls` defines the getter. */
  predicate Offers(cls: string, g: Get)
  {
    match g
    case GetType => true
    case GetDate => true
    case GetPath => cls != "EBeamModel"
    case GetScalar(f) =>
      cls == "Geo6xfffModel" || (cls == "XBeamModel" && f in XScalars) || (cls == "EBeamModel" && f == RelativeUniformity)
    case GetRelativeOut => cls == "EBeamModel"
    case GetLeaf(_, _) => cls == "Geo6xfffModel"
  }

  /** Whether the record's own class defines the getter: `Offers` for its class
      name (`HasOffers`). */
  predicate Has(st: BeamState, g: Get)
  {
    match g
    case GetType => true
    case GetDate => true
    case GetPath => !st.ES?
    case GetScalar(f) => st.GS? || (st.XS? && f in XScalars) || (st.ES? && f == RelativeUniformity)
    case GetRelativeOut => st.ES?
    case GetLeaf(_, _) => st.GS?
  }

  lemma HasOffers(st: BeamState, g: Get)
    ensures Has(st, g) <==> Offers(ClassName(st), g)
  {
  }

  /** What a getter call returns on a record, or the exception it raises. */
  function Query(st: BeamState, g: Get): (r: Result<Value>)
    ensures !Has(st, g) ==> r == Err(AttributeError)
    ensures Has(st, g) && !(st.GS? && (g.GetScalar? || g.GetLeaf?)) ==> r.Ok?
    ensures g.GetScalar? && st.GS? ==> (r.Ok? <==> g.f in st.g.scalars)
    ensures g.GetLeaf? && st.GS? ==> (r.Ok? <==> LeafKey(g.i) in Leaves(st.g, g.m))
    ensures r.Err? ==> r.error == AttributeError || (g.GetLeaf? && r.error == KeyError)
  {
    match g
    case GetType =>
      (match st
       case ES(e) => Ok(StrValue(e.beamType))
       case XS(x) => Ok(StrValue(x.beamType))
       case GS(s) => Ok(StrValue(s.beamType))
       case IS(i) => Ok(StrValue(i.beamType))
       case AS(a) => Ok(StrValue(a.beamType)))
    case GetDate =>
      (match st
       case ES(e) => Ok(DateValue(e.date))
       case XS(x) => Ok(DateValue(x.date))
       case GS(s) => Ok(DateValue(s.date))
       case IS(i) => Ok(DateValue(i.date))
       case AS(a) => Ok(DateValue(a.date)))
    case GetPath => if HasGetPath(st) then Ok(StrValue(PathOf(st))) else Err(AttributeError)
    case GetScalar(f) =>
      (match ScalarOf(st, f)
       case Some(v) => Ok(DecValue(v))
       case None => Err(AttributeError))
    case GetRelativeOut =>
      (match st
       case ES(e) => Ok(DecValue(e.relativeOut))
       case _ => Err(AttributeError))
    case GetLeaf(m, i) =>
      (match st
       case GS(s) =>
         (match LeafGet(s, m, i)
          case Ok(v) => Ok(DecValue(v))
          case Err(e) => Err(e))
       case _ => Err(AttributeError))
  }

  /** Calls one getter on the record, through the class's own getter. */
  function Ask(b: Beam, g: Get): (r: Result<Value>)
    reads Obj(b)
    ensures r == Query(Snapshot(b), g)
  {
    match b
    case EB(e) =>
      (match g
       case GetType => Ok(StrValue(e.GetType()))
       case GetDate => Ok(DateValue(e.GetDate()))
       case GetScalar(f) => if f == RelativeUniformity then Ok(DecValue(e.GetRelativeUniformity())) else Err(AttributeError)
       case GetRelativeOut => Ok(DecValue(e.GetRelativeOut()))
       case _ => Err(AttributeError))
    case XB(x) =>
      (match g
       case GetType => Ok(StrValue(x.GetType()))
       case GetDate => Ok(DateValue(x.GetDate()))
       case GetPath => Ok(StrValue(x.GetPath()))
       case GetScalar(f) =>
         if f == RelativeOutput then Ok(DecValue(x.GetRelativeOutput()))
         else if f == RelativeUniformity then Ok(DecValue(x.GetRelativeUniformity()))
         else if f == CenterShift then Ok(DecValue(x.GetCenterShift()))
         else Err(AttributeError)
       case _ => Err(AttributeError))
    case GB(s) =>
      (match g
       case GetType => Ok(StrValue(s.GetType()))
       case GetDate => Ok(DateValue(s.GetDate()))
       case GetPath => Ok(StrValue(s.GetPath()))
       case GetScalar(f) => if f in s.scalars then Ok(DecValue(s.scalars[f])) else Err(AttributeError)
       case GetLeaf(m, i) =>
         var v := s.GetLeaf(m, i);
         if v.Ok? then Ok(DecValue(v.value)) else Err(v.error)
       case _ => Err(AttributeError))
    case IB(i) =>
      (match g
       case GetType => Ok(StrValue(i.GetType()))
       case GetDate => Ok(DateValue(i.GetDate()))
       case GetPath => Ok(StrValue(i.GetPath()))
       case _ => Err(AttributeError))
    case AB(a) =>
      (match g
       case GetType => Ok(StrValue(a.GetType()))
       case GetDate => Ok(DateValue(a.GetDate()))
       case GetPath => Ok(StrValue(a.GetPath()))
       case _ => Err(AttributeError))
  }

  /** The getter that reads back what a setter stores. */
  function Counterpart(c: Call): (g: Get)
  {
    match c
    case SetPath(_) => GetPath
    case SetType(_) => GetType
    case SetDate(_) => GetDate
    case SetScalar(f, _) => GetScalar(f)
    case SetRelativeOut(_) => GetRelativeOut
    case SetLeaf(m, i, _) => GetLeaf(m, i)
  }

  /** The value a setter is given, as its getter returns it. */
  function Stored(c: Call): Value
  {
    match c
    case SetPath(p) => StrValue(p)
    case SetType(t) => StrValue(t)
    case SetDate(d) => DateValue(d)
    case SetScalar(_, v) => DecValue(v)
    case SetRelativeOut(v) => DecValue(v)
    case SetLeaf(_, _, v) => DecValue(v)
  }

  /** Each class defines a setter exactly when it defines the matching getter. */
  lemma SetterHasGetter(cls: string, c: Call)
    ensures Offers(cls, Counterpart(c)) <==> Defines(cls, c)
  {
  }

  /** A getter returns what its setter last stored. */
  lemma GetAfterSet(st: BeamState, c: Call)
    requires Apply(st, c).Some?
    ensures Query(Apply(st, c).value, Counterpart(c)) == Ok(Stored(c))
  {
    if st.GS? {
      GeoGetAfterSet(st, c);
    }
  }

  lemma GeoGetAfterSet(st: BeamState, c: Call)
    requires st.GS? && Apply(st, c).Some?
    ensures Query(Apply(st, c).value, Counterpart(c)) == Ok(Stored(c))
  {
    var after := Apply(st, c).value;
    match c
    case SetScalar(f, v) =>
      assert after == GS(WithScalar(st.g, f, v));
      ScalarAfterSet(st.g, f, v);
    case SetLeaf(m, i, v) =>
      assert after == GS(WithLeaf(st.g, m, i, v));
      LeafAfterSet(st.g, m, i, v);
    case _ =>
  }

  lemma ScalarAfterSet(s: GeoState, f: Scalar, v: Decimal)
    ensures Query(GS(WithScalar(s, f, v)), GetScalar(f)) == Ok(DecValue(v))
  {
    var s' := WithScalar(s, f, v);
    assert f in s'.scalars && s'.scalars[f] == v;
    assert ScalarOf(GS(s'), f) == Some(s'.scalars[f]);
    QueryScalar(GS(s'), f);
  }

  /** `get_X` returns the field `X`. */
  lemma QueryScalar(st: BeamState, f: Scalar)
    requires ScalarOf(st, f).Some?
    ensures Query(st, GetScalar(f)) == Ok(DecValue(ScalarOf(st, f).value))
  {
  }

  /** On a well-formed record every getter its class defines returns, the leaf
      getters aside. */
  lemma QueryOnGood(st: BeamState, g: Get)
    requires Offers(ClassName(st), g) && Good(st) && !g.GetLeaf?
    ensures Query(st, g).Ok?
  {
  }

  lemma LeafAfterSet(s: GeoState, m: LeafMap, i: int, v: Decimal)
    ensures Query(GS(WithLeaf(s, m, i, v)), GetLeaf(m, i)) == Ok(DecValue(v))
  {
    var s' := WithLeaf(s, m, i, v);
    SetThenGet(s, m, i, v);
    QueryLeaf(s', m, i);
  }

  /** `get_MLCLeafA(i)` and its siblings return the dictionary entry. */
  lemma QueryLeaf(s: GeoState, m: LeafMap, i: int)
    requires LeafGet(s, m, i).Ok?
    ensures Query(GS(s), GetLeaf(m, i)) == Ok(DecValue(LeafGet(s, m, i).value))
  {
  }

  /** A setter changes what no other getter returns. */
  lemma SetKeepsOtherGets(st: BeamState, c: Call, g: Get)
    requires Apply(st, c).Some?
    requires g != Counterpart(c)
    ensures Query(Apply(st, c).value, g) == Query(st, g)
  {
    if st.GS? {
      GeoSetKeepsOtherGets(st, c, g);
    }
  }

  lemma GeoSetKeepsOtherGets(st: BeamState, c: Call, g: Get)
    requires st.GS? && Apply(st, c).Some?
    requires g != Counterpart(c)
    ensures Query(Apply(st, c).value, g) == Query(st, g)
  {
    if g.GetLeaf? && c.SetLeaf? {
      LeafSetGet(st.g, c.m, c.i, c.v, g.m, g.i);
    }
  }

  /** A run of getter calls outside any `try`: the exception the first failing one
      raises, if any. */
  function Printed(st: BeamState, gets: seq<Get>): (r: Option<PyError>)
    ensures r.None? <==> forall k :: 0 <= k < |gets| ==> Query(st, gets[k]).Ok?
    ensures r.Some? ==> exists k :: 0 <= k < |gets| && Query(st, gets[k]) == Err(r.value)
    decreases |gets|
  {
    if gets == [] then None
    else
      match Query(st, gets[0])
      case Err(e) => Some(e)
      case Ok(_) =>
        var rest := Printed(st, gets[1..]);
        assert forall k :: 1 <= k < |gets| ==> gets[k] == gets[1..][k - 1];
        rest
  }

  /** The first getter that raises decides the exception. */
  lemma {:induction false} PrintedFirst(st: BeamState, gets: seq<Get>, k: int)
    requires 0 <= k < |gets|
    requires forall j :: 0 <= j < k ==> Query(st, gets[j]).Ok?
    requires Query(st, gets[k]).Err?
    ensures Printed(st, gets) == Some(Query(st, gets[k]).error)
    decreases k
  {
    if k > 0 {
      assert forall j :: 0 <= j < k - 1 ==> gets[1..][j] == gets[j + 1];
      PrintedFirst(st, gets[1..], k - 1);
    }
  }

  /** Getters that all succeed raise nothing. */
  lemma PrintedCons(st: BeamState, gets: seq<Get>)
    requires forall k :: 0 <= k < |gets| ==> Query(st, gets[k]).Ok?
    ensures Printed(st, gets) == None
  {
  }

}
