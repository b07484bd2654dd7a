/**
 * Python's duck typing over the five record classes. Extractors, the dispatcher and
 * the uploaders call setters by name on whatever record they are given; a method the
 * record's class does not define raises AttributeError. A `Beam` is a reference to
 * a record of one of the classes, a `Call` is one setter call, and `Apply` says what
 * it does to the record's state, or that the class has no such method.
 *
 * The statement sequences of the extractors are described as plans, sequences of
 * `Op`. `Run` executes a plan on a record state up to the first exception, which is
 * how the extractors' outer `try` blocks behave.
 */
module Beams {
  import opened Wrappers
  import opened PyDecimal
  import opened PathMetadata
  import opened AbstractBeam
  import opened XBeam
  import opened EBeam
  import opened Image
  import opened Geo6xfff

  datatype Beam =
    | EB(e: EBeamModel) | XB(x: XBeamModel) | GB(g: Geo6xfffModel) | IB(i: ImageModel) | AB(a: AbstractBeamModel)

  datatype BeamState =
    | ES(e: EState) | XS(x: XState) | GS(g: GeoState) | IS(i: ImageState) | AS(a: AbstractState)

  function Obj(b: Beam): object
  {
    match b
    case EB(e) => e
    case XB(x) => x
    case GB(g) => g
    case IB(i) => i
    case AB(a) => a
  }

  function Snapshot(b: Beam): BeamState
    reads Obj(b)
  {
    match b
    case EB(e) => ES(e.State())
    case XB(x) => XS(x.State())
    case GB(g) => GS(g.State())
    case IB(i) => IS(i.State())
    case AB(a) => AS(a.State())
  }

  /** The record is well formed: a geometry record keeps its scalars and leaf keys. */
  predicate Good(st: BeamState)
  {
    st.GS? ==> GoodState(st.g)
  }

  /** `type(model).__name__`. */
  function ClassName(st: BeamState): string
  {
    match st
    case ES(_) => "EBeamModel"
    case XS(_) => "XBeamModel"
    case GS(_) => "Geo6xfffModel"
    case IS(_) => "ImageModel"
    case AS(_) => "AbstractBeamModel"
  }

  /** Every class but `EBeamModel` defines `get_path`. */
  predicate HasGetPath(st: BeamState)
  {
    !st.ES?
  }

  /** `get_path()` on a class that defines it. */
  function PathOf(st: BeamState): string
    requires HasGetPath(st)
  {
    match st
    case XS(x) => x.path
    case GS(g) => g.path
    case IS(i) => i.path
    case AS(a) => a.path
  }

  /** What `get_type()`, `get_date()` and, where the class has it, `get_path()`
      return. */
  function Header(st: BeamState): (string, Option<DateTime>, Option<string>)
  {
    match st
    case ES(e) => (e.beamType, e.date, None)
    case XS(x) => (x.beamType, x.date, Some(x.path))
    case GS(g) => (g.beamType, g.date, Some(g.path))
    case IS(i) => (i.beamType, i.date, Some(i.path))
    case AS(a) => (a.beamType, a.date, Some(a.path))
  }

  /** One setter call, by the Python method it names. */
  datatype Call =
    | SetPath(p: string)                       // set_path
    | SetType(t: string)                       // set_type
    | SetDate(d: Option<DateTime>)             // set_date
    | SetScalar(f: Scalar, v: Decimal)         // set_relative_output, set_CouchLat, ...
    | SetRelativeOut(v: Decimal)               // EBeamModel.set_relative_out
    | SetLeaf(m: LeafMap, i: int, v: Decimal)  // set_MLCLeafA, ..., set_MLCBacklashB

  /** The scalar setters `XBeamModel` defines. */
  const XScalars: set<Scalar> := {RelativeOutput, RelativeUniformity, CenterShift}

  /** Whether the class named `cls` defines the setter a call names. */
  predicate Defines(cls: string, c: Call)
  {
    match c
    case SetPath(_) => cls != "EBeamModel"
    case SetType(_) => true
    case SetDate(_) => true
    case SetScalar(f, _) =>
      cls == "Geo6xfffModel" || (cls == "XBeamModel" && f in XScalars) || (cls == "EBeamModel" && f == RelativeUniformity)
    case SetRelativeOut(_) => cls == "EBeamModel"
    case SetLeaf(_, _, _) => cls == "Geo6xfffModel"
  }

  /** Whether the record's own class defines the setter: `Defines` for its class
      name (`TakesDefines`). */
  predicate Takes(st: BeamState, c: Call)
  {
    match c
    case SetPath(_) => !st.ES?
    case SetType(_) => true
    case SetDate(_) => true
    case SetScalar(f, _) => st.GS? || (st.XS? && f in XScalars) || (st.ES? && f == RelativeUniformity)
    case SetRelativeOut(_) => st.ES?
    case SetLeaf(_, _, _) => st.GS?
  }

  lemma TakesDefines(st: BeamState, c: Call)
    ensures Takes(st, c) <==> Defines(ClassName(st), c)
  {
  }

  /** What a call does to a record of each class; None when the class has no such
      method (AttributeError). */
  function Apply(st: BeamState, c: Call): (r: Option<BeamState>)
    ensures r.Some? <==> Takes(st, c)
    ensures r.Some? ==> ClassName(r.value) == ClassName(st)
  {
    match c
    case SetPath(p) =>
      (match st
       case ES(_) => None
       case XS(x) => Some(XS(x.(path := p)))
       case GS(g) => Some(GS(g.(path := p)))
       case IS(i) => Some(IS(i.(path := p)))
       case AS(a) => Some(AS(a.(path := p))))
    case SetType(t) =>
      (match st
       case ES(e) => Some(ES(e.(beamType := t)))
       case XS(x) => Some(XS(x.(beamType := t)))
       case GS(g) => Some(GS(g.(beamType := t)))
       case IS(i) => Some(IS(i.(beamType := t)))
       case AS(a) => Some(AS(a.(beamType := t))))
    case SetDate(d) =>
      (match st
       case ES(e) => Some(ES(e.(date := d)))
       case XS(x) => Some(XS(x.(date := d)))
       case GS(g) => Some(GS(g.(date := d)))
       case IS(i) => Some(IS(i.(date := d)))
       case AS(a) => Some(AS(a.(date := d))))
    case SetScalar(f, v) =>
      (match st
       case ES(e) => if f == RelativeUniformity then Some(ES(e.(relativeUniformity := v))) else None
       case XS(x) =>
         if f == RelativeOutput then Some(XS(x.(relativeOutput := v)))
         else if f == RelativeUniformity then Some(XS(x.(relativeUniformity := v)))
         else if f == CenterShift then Some(XS(x.(centerShift := v)))
         else None
       case GS(g) => Some(GS(WithScalar(g, f, v)))
       case _ => None)
    case SetRelativeOut(v) =>
      (match st
       case ES(e) => Some(ES(e.(relativeOut := v)))
       case _ => None)
    case SetLeaf(m, i, v) =>
      (match st
       case GS(g) => Some(GS(WithLeaf(g, m, i, v)))
       case _ => None)
  }

  /** The value a record holds for a scalar, when its class has that field. */
  function ScalarOf(st: BeamState, f: Scalar): Option<Decimal>
  {
    match st
    case ES(e) => if f == RelativeUniformity then Some(e.relativeUniformity) else None
    case XS(x) =>
      if f == RelativeOutput then Some(x.relativeOutput)
      else if f == RelativeUniformity then Some(x.relativeUniformity)
      else if f == CenterShift then Some(x.centerShift)
      else None
    case GS(g) => if f in g.scalars then Some(g.scalars[f]) else None
    case _ => None
  }

  /** Performs one call on the record, through the class's own setter. */
  method Invoke(b: Beam, c: Call) returns (ok: bool)
    modifies Obj(b)
    ensures ok == Apply(old(Snapshot(b)), c).Some?
    ensures Snapshot(b) == if ok then Apply(old(Snapshot(b)), c).value else old(Snapshot(b))
  {
    match b {
      case EB(e) => ok := InvokeE(e, c);
      case XB(x) => ok := InvokeX(x, c);
      case GB(g) => ok := InvokeGeo(g, c);
      case IB(i) => ok := InvokeImage(i, c);
      case AB(a) => ok := InvokeBase(a, c);
    }
  }

  method InvokeE(e: EBeamModel, c: Call) returns (ok: bool)
    modifies e
    ensures ok == Apply(old(ES(e.State())), c).Some?
    ensures ES(e.State()) == if ok then Apply(old(ES(e.State())), c).value else old(ES(e.State()))
  {
    ok := true;
    match c {
      case SetType(t) => e.SetType(t);
      case SetDate(d) => e.SetDate(d);
      case SetScalar(f, v) => if f == RelativeUniformity { e.SetRelativeUniformity(v); } else { ok := false; }
      case SetRelativeOut(v) => e.SetRelativeOut(v);
      case _ => ok := false;
    }
  }

  method InvokeX(x: XBeamModel, c: Call) returns (ok: bool)
    modifies x
    ensures ok == Apply(old(XS(x.State())), c).Some?
    ensures XS(x.State()) == if ok then Apply(old(XS(x.State())), c).value else old(XS(x.State()))
  {
    ok := true;
    match c {
      case SetPath(p) => x.SetPath(p);
      case SetType(t) => x.SetType(t);
      case SetDate(d) => x.SetDate(d);
      case SetScalar(f, v) =>
        if f == RelativeOutput { x.SetRelativeOutput(v); }
        else if f == RelativeUniformity { x.SetRelativeUniformity(v); }
        else if f == CenterShift { x.SetCenterShift(v); }
        else { ok := false; }
      case _ => ok := false;
    }
  }

  method InvokeGeo(g: Geo6xfffModel, c: Call) returns (ok: bool)
    modifies g
    ensures ok == Apply(old(GS(g.State())), c).Some?
    ensures GS(g.State()) == if ok then Apply(old(GS(g.State())), c).value else old(GS(g.State()))
  {
    ok := true;
    match c {
      case SetPath(p) => g.SetPath(p);
      case SetType(t) => g.SetType(t);
      case SetDate(d) => g.SetDate(d);
      case SetScalar(f, v) => g.SetScalar(f, v);
      case SetLeaf(m, i, v) => g.SetLeaf(m, i, v);
      case _ => ok := false;
    }
  }

  method InvokeImage(i: ImageModel, c: Call) returns (ok: bool)
    modifies i
    ensures ok == Apply(old(IS(i.State())), c).Some?
    ensures IS(i.State()) == if ok then Apply(old(IS(i.State())), c).value else old(IS(i.State()))
  {
    ok := true;
    match c {
      case SetPath(p) => i.SetPath(p);
      case SetType(t) => i.SetType(t);
      case SetDate(d) => i.SetDate(d);
      case _ => ok := false;
    }
  }

  method InvokeBase(a: AbstractBeamModel, c: Call) returns (ok: bool)
    modifies a
    ensures ok == Apply(old(AS(a.State())), c).Some?
    ensures AS(a.State()) == if ok then Apply(old(AS(a.State())), c).value else old(AS(a.State()))
  {
    ok := true;
    match c {
      case SetPath(p) => a.SetPath(p);
      case SetType(t) => a.SetType(t);
      case SetDate(d) => a.SetDate(d);
      case _ => ok := false;
    }
  }

  // ---------------------------------------------------------------------------
  // Plans
  // ---------------------------------------------------------------------------

  /** One statement of an extractor: a call whose exception propagates (`Do`), a call
      inside `try: ... except Exception: pass` (`Try`), nothing (`Skip`), or an
      exception raised by the statement itself (`Raise`). */
  datatype Op = Do(c: Call) | Try(c: Call) | Skip | Raise(e: PyError)

  /** The record state after some statements, and the exception that stopped them. */
  datatype Outcome = Outcome(st: BeamState, error: Option<PyError>)

  function Step(st: BeamState, op: Op): (r: Outcome)
    ensures ClassName(r.st) == ClassName(st)
  {
    match op
    case Do(c) => (match Apply(st, c) case Some(s) => Outcome(s, None) case None => Outcome(st, Some(AttributeError)))
    case Try(c) => (match Apply(st, c) case Some(s) => Outcome(s, None) case None => Outcome(st, None))
    case Skip => Outcome(st, None)
    case Raise(e) => Outcome(st, Some(e))
  }

  /** A setter keeps a well-formed record well formed. */
  lemma ApplyKeepsGood(st: BeamState, c: Call)
    requires Good(st) && Apply(st, c).Some?
    ensures Good(Apply(st, c).value)
  {
    if st.GS? {
      match c
      case SetScalar(f, v) => SettersKeepGood(st.g, f, MLCLeavesA, 11, v);
      case SetLeaf(m, i, v) => SettersKeepGood(st.g, RelativeOutput, m, i, v);
      case _ =>
    }
  }

  lemma StepKeepsGood(st: BeamState, op: Op)
    requires Good(st)
    ensures Good(Step(st, op).st)
  {
    if (op.Do? || op.Try?) && Apply(st, op.c).Some? {
      ApplyKeepsGood(st, op.c);
    }
  }

  /** Runs the statements in order and stops at the first exception. */
  function Run(st: BeamState, ops: seq<Op>): (r: Outcome)
    ensures ClassName(r.st) == ClassName(st)
    decreases |ops|
  {
    if ops == [] then Outcome(st, None)
    else
      var o := Step(st, ops[0]);
      if o.error.Some? then o else Run(o.st, ops[1..])
  }

  /** A plan keeps a well-formed record well formed, whether or not it raises. */
  lemma {:induction false} RunKeepsGood(st: BeamState, ops: seq<Op>)
    requires Good(st)
    ensures Good(Run(st, ops).st)
    decreases |ops|
  {
    if ops != [] {
      StepKeepsGood(st, ops[0]);
      RunKeepsGood(Step(st, ops[0]).st, ops[1..]);
    }
  }

  /** Performs one statement on the record. */
  method Perform(b: Beam, op: Op) returns (error: Option<PyError>)
    modifies Obj(b)
    ensures Outcome(Snapshot(b), error) == Step(old(Snapshot(b)), op)
  {
    match op {
      case Do(c) =>
        var ok := Invoke(b, c);
        error := if ok then None else Some(AttributeError);
      case Try(c) =>
        var ok := Invoke(b, c);
        error := None;
      case Skip =>
        error := None;
      case Raise(e) =>
        error := Some(e);
    }
  }

  /** Executes a plan statement by statement, stopping at the first exception; the
      loop of every extractor. */
  method Execute(b: Beam, plan: seq<Op>) returns (error: Option<PyError>)
    modifies Obj(b)
    ensures Outcome(Snapshot(b), error) == Run(old(Snapshot(b)), plan)
  {
    ghost var st := Snapshot(b);
    var i := 0;
    while i < |plan|
      invariant 0 <= i <= |plan|
      invariant Run(st, plan[..i]) == Outcome(Snapshot(b), None)
    {
      error := Perform(b, plan[i]);
      RunPrefix(st, plan, i);
      if error.Some? {
        return;
      }
      i := i + 1;
    }
    assert plan[..i] == plan;
    error := None;
  }

  /** Running two plans one after the other: the second runs from where the first
      stopped, unless the first raised. */
  lemma {:induction false} RunAppend(st: BeamState, a: seq<Op>, b: seq<Op>)
    ensures Run(st, a + b) == if Run(st, a).error.Some? then Run(st, a) else Run(Run(st, a).st, b)
    decreases |a|
  {
    if a == [] {
      assert a + b == b;
    } else {
      assert (a + b)[0] == a[0];
      assert (a + b)[1..] == a[1..] + b;
      var o := Step(st, a[0]);
      if o.error.None? {
        RunAppend(o.st, a[1..], b);
      }
    }
  }

  /** Running one more statement. */
  lemma RunSnoc(st: BeamState, a: seq<Op>, op: Op)
    ensures Run(st, a + [op]) == if Run(st, a).error.Some? then Run(st, a) else Step(Run(st, a).st, op)
  {
    RunAppend(st, a, [op]);
    var o := Step(Run(st, a).st, op);
    assert Run(o.st, []) == Outcome(o.st, None);
  }

  /** The prefix of a plan up to and including statement `i`, when the statements
      before `i` raised nothing; used by the loops that execute a plan. */
  lemma RunPrefix(st: BeamState, ops: seq<Op>, i: nat)
    requires i < |ops| && Run(st, ops[..i]).error.None?
    ensures Run(st, ops[..i + 1]) == Step(Run(st, ops[..i]).st, ops[i])
    ensures Run(st, ops[..i + 1]).error.Some? ==> Run(st, ops) == Run(st, ops[..i + 1])
  {
    PrefixSnoc(ops, i);
    RunSnoc(st, ops[..i], ops[i]);
    RunStops(st, ops, i + 1);
  }

  /** Once a prefix of a plan raises, the whole plan stops there. */
  lemma RunStops(st: BeamState, ops: seq<Op>, n: nat)
    requires n <= |ops|
    ensures Run(st, ops[..n]).error.Some? ==> Run(st, ops) == Run(st, ops[..n])
  {
    SplitAt(ops, n);
    RunAppend(st, ops[..n], ops[n..]);
  }

  lemma PrefixSnoc(ops: seq<Op>, i: nat)
    requires i < |ops|
    ensures ops[..i + 1] == ops[..i] + [ops[i]]
  {
  }

  lemma SplitAt(ops: seq<Op>, n: nat)
    requires n <= |ops|
    ensures ops == ops[..n] + ops[n..]
  {
  }

  /** A plan raises nothing when it has no `Raise` and every `Do` names a setter the
      record's class defines. */
  lemma {:induction false} RunNoError(st: BeamState, ops: seq<Op>)
    requires forall j :: 0 <= j < |ops| ==> !ops[j].Raise?
    requires forall j :: 0 <= j < |ops| ==> ops[j].Do? ==> Defines(ClassName(st), ops[j].c)
    ensures Run(st, ops).error.None?
    decreases |ops|
  {
    if ops != [] {
      if ops[0].Do? {
        TakesDefines(st, ops[0].c);
      }
      var o := Step(st, ops[0]);
      assert o.error.None?;
      assert forall j :: 0 <= j < |ops| - 1 ==> ops[1..][j] == ops[j + 1];
      RunNoError(o.st, ops[1..]);
    }
  }

  /** A statement that writes scalar `f`. */
  predicate Writes(op: Op, f: Scalar)
  {
    (op.Do? || op.Try?) && op.c.SetScalar? && op.c.f == f
  }

  /** Statements that do not write a scalar leave it as it was, whatever happens. */
  lemma {:induction false} RunNoWrite(st: BeamState, ops: seq<Op>, f: Scalar)
    requires forall j :: 0 <= j < |ops| ==> !Writes(ops[j], f)
    ensures ScalarOf(Run(st, ops).st, f) == ScalarOf(st, f)
    decreases |ops|
  {
    if ops != [] {
      StepNoWrite(st, ops[0], f);
      var o := Step(st, ops[0]);
      if o.error.None? {
        RunNoWrite(o.st, ops[1..], f);
      }
    }
  }

  lemma StepNoWrite(st: BeamState, op: Op, f: Scalar)
    requires !Writes(op, f)
    ensures ScalarOf(Step(st, op).st, f) == ScalarOf(st, f)
  {
    if op.Do? || op.Try? {
      ApplyNoWrite(st, op.c, f);
    }
  }

  /** A statement that may only set a measurement, not the type, path or date. */
  predicate MeasurementOnly(op: Op)
  {
    (op.Do? || op.Try?) ==> op.c.SetScalar? || op.c.SetLeaf? || op.c.SetRelativeOut?
  }

  lemma ApplyKeepsHeader(st: BeamState, c: Call)
    requires c.SetScalar? || c.SetLeaf? || c.SetRelativeOut?
    ensures Apply(st, c).Some? ==> Header(Apply(st, c).value) == Header(st)
  {
    if st.GS? && c.SetLeaf? {
      assert SameScalars(Apply(st, c).value.g, st.g);
    }
  }

  /** A plan of measurement setters keeps the type, path and date, whether or not it
      raises. */
  lemma {:induction false} RunKeepsHeader(st: BeamState, ops: seq<Op>)
    requires forall j :: 0 <= j < |ops| ==> MeasurementOnly(ops[j])
    ensures Header(Run(st, ops).st) == Header(st)
    decreases |ops|
  {
    if ops != [] {
      if ops[0].Do? || ops[0].Try? {
        ApplyKeepsHeader(st, ops[0].c);
      }
      var o := Step(st, ops[0]);
      if o.error.None? {
        RunKeepsHeader(o.st, ops[1..]);
      }
    }
  }

  /** A call that is not a setter of `f` leaves `f` as it was. */
  lemma ApplyNoWrite(st: BeamState, c: Call, f: Scalar)
    requires !(c.SetScalar? && c.f == f)
    ensures Apply(st, c).Some? ==> ScalarOf(Apply(st, c).value, f) == ScalarOf(st, f)
  {
    match c
    case SetScalar(g, v) => OtherScalarNoWrite(st, g, v, f);
    case SetLeaf(m, i, v) => LeafNoScalarWrite(st, m, i, v, f);
    case SetRelativeOut(v) =>
    case _ => MetadataNoScalarWrite(st, c, f);
  }

  lemma MetadataNoScalarWrite(st: BeamState, c: Call, f: Scalar)
    requires c.SetPath? || c.SetType? || c.SetDate?
    ensures Apply(st, c).Some? ==> ScalarOf(Apply(st, c).value, f) == ScalarOf(st, f)
  {
    if st.GS? {
      assert Apply(st, c).value.g.scalars == st.g.scalars;
    }
  }

  lemma OtherScalarNoWrite(st: BeamState, g: Scalar, v: Decimal, f: Scalar)
    requires g != f
    ensures Apply(st, SetScalar(g, v)).Some? ==> ScalarOf(Apply(st, SetScalar(g, v)).value, f) == ScalarOf(st, f)
  {
    if st.GS? {
      assert Apply(st, SetScalar(g, v)).value.g.scalars == st.g.scalars[g := v];
    }
  }

  lemma LeafNoScalarWrite(st: BeamState, m: LeafMap, i: int, v: Decimal, f: Scalar)
    ensures Apply(st, SetLeaf(m, i, v)).Some? ==> ScalarOf(Apply(st, SetLeaf(m, i, v)).value, f) == ScalarOf(st, f)
  {
    if st.GS? {
      assert SameScalars(Apply(st, SetLeaf(m, i, v)).value.g, st.g);
    }
  }

  /** Last write wins: when a plan runs to its end, a scalar holds the value of the
      last statement that wrote it, provided that statement was a `Do`. */
  lemma {:induction false} LastWriteWins(st: BeamState, ops: seq<Op>, i: nat, f: Scalar, v: Decimal)
    requires Run(st, ops).error.None?
    requires i < |ops| && ops[i] == Do(SetScalar(f, v))
    requires forall j :: i < j < |ops| ==> !Writes(ops[j], f)
    ensures ScalarOf(Run(st, ops).st, f) == Some(v)
    decreases i
  {
    var s1 := Step(st, ops[0]).st;
    var rest := ops[1..];
    if i == 0 {
      ApplyWrites(st, f, v);
      assert forall j :: 0 <= j < |rest| ==> rest[j] == ops[j + 1];
      RunNoWrite(s1, rest, f);
    } else {
      assert forall j :: i - 1 < j < |rest| ==> rest[j] == ops[j + 1];
      LastWriteWins(s1, rest, i - 1, f, v);
    }
  }

  /** A scalar setter that the class defines stores its value. */
  lemma ApplyWrites(st: BeamState, f: Scalar, v: Decimal)
    ensures Apply(st, SetScalar(f, v)).Some? ==> ScalarOf(Apply(st, SetScalar(f, v)).value, f) == Some(v)
  {
    if st.GS? {
      assert Apply(st, SetScalar(f, v)).value.g.scalars == st.g.scalars[f := v];
    }
  }
  /** What `get_MLCLeafA(i)` and its siblings would return: the leaf's value, KeyError
      for a key never set, AttributeError on a record without leaf maps. */
  function LeafOf(st: BeamState, m: LeafMap, i: int): (r: Result<Decimal>)
    ensures st.GS? ==> r == LeafGet(st.g, m, i)
    ensures !st.GS? ==> r == Err(AttributeError)
  {
    match st
    case GS(g) => LeafGet(g, m, i)
    case _ => Err(AttributeError)
  }

  /** A statement that writes leaf `i` of map `m`. */
  predicate WritesLeaf(op: Op, m: LeafMap, i: int)
  {
    (op.Do? || op.Try?) && op.c.SetLeaf? && op.c.m == m && op.c.i == i
  }

  /** A call that is not a setter of that leaf leaves the leaf as it was. */
  lemma ApplyNoLeafWrite(st: BeamState, c: Call, m: LeafMap, i: int)
    requires !(c.SetLeaf? && c.m == m && c.i == i)
    ensures Apply(st, c).Some? ==> LeafOf(Apply(st, c).value, m, i) == LeafOf(st, m, i)
  {
    if st.GS? {
      match c
      case SetLeaf(m', j, v) => LeafSetGet(st.g, m', j, v, m, i);
      case SetScalar(f, v) => assert Leaves(Apply(st, c).value.g, m) == Leaves(st.g, m);
      case SetPath(_) => assert Leaves(Apply(st, c).value.g, m) == Leaves(st.g, m);
      case SetType(_) => assert Leaves(Apply(st, c).value.g, m) == Leaves(st.g, m);
      case SetDate(_) => assert Leaves(Apply(st, c).value.g, m) == Leaves(st.g, m);
      case SetRelativeOut(_) =>
    }
  }

  lemma StepNoLeafWrite(st: BeamState, op: Op, m: LeafMap, i: int)
    requires !WritesLeaf(op, m, i)
    ensures LeafOf(Step(st, op).st, m, i) == LeafOf(st, m, i)
  {
    if op.Do? || op.Try? {
      ApplyNoLeafWrite(st, op.c, m, i);
    }
  }

  /** Statements that do not write a leaf leave it as it was, whatever happens. */
  lemma {:induction false} RunNoLeafWrite(st: BeamState, ops: seq<Op>, m: LeafMap, i: int)
    requires forall j :: 0 <= j < |ops| ==> !WritesLeaf(ops[j], m, i)
    ensures LeafOf(Run(st, ops).st, m, i) == LeafOf(st, m, i)
    decreases |ops|
  {
    if ops != [] {
      StepNoLeafWrite(st, ops[0], m, i);
      var o := Step(st, ops[0]);
      if o.error.None? {
        RunNoLeafWrite(o.st, ops[1..], m, i);
      }
    }
  }

  /** Last write wins for leaves too: when a plan runs to its end, a leaf holds the
      value of the last statement that wrote it, provided that statement was a `Do`,
      or a `Try` on a geometry record (whose leaf setters cannot fail). */
  lemma {:induction false} LastLeafWriteWins(st: BeamState, ops: seq<Op>, k: nat, m: LeafMap, i: int, v: Decimal)
    requires Run(st, ops).error.None?
    requires k < |ops| && (ops[k] == Do(SetLeaf(m, i, v)) || (st.GS? && ops[k] == Try(SetLeaf(m, i, v))))
    requires forall j :: k < j < |ops| ==> !WritesLeaf(ops[j], m, i)
    ensures LeafOf(Run(st, ops).st, m, i) == Ok(v)
    decreases k
  {
    var s1 := Step(st, ops[0]).st;
    var rest := ops[1..];
    if st.GS? {
      assert ClassName(s1) == ClassName(st);
      assert s1.GS?;
    }
    if k == 0 {
      ApplyLeafWrites(st, m, i, v);
      assert forall j :: 0 <= j < |rest| ==> rest[j] == ops[j + 1];
      RunNoLeafWrite(s1, rest, m, i);
    } else {
      assert forall j :: k - 1 < j < |rest| ==> rest[j] == ops[j + 1];
      LastLeafWriteWins(s1, rest, k - 1, m, i, v);
    }
  }

  /** A leaf setter that the class defines stores its value. */
  lemma ApplyLeafWrites(st: BeamState, m: LeafMap, i: int, v: Decimal)
    ensures Apply(st, SetLeaf(m, i, v)).Some? ==> LeafOf(Apply(st, SetLeaf(m, i, v)).value, m, i) == Ok(v)
  {
    match st
    case GS(g) =>
      assert Apply(st, SetLeaf(m, i, v)) == Some(GS(WithLeaf(g, m, i, v)));
      GeoLeafWrites(g, m, i, v);
    case _ =>
  }

  lemma GeoLeafWrites(g: GeoState, m: LeafMap, i: int, v: Decimal)
    ensures LeafOf(GS(WithLeaf(g, m, i, v)), m, i) == Ok(v)
  {
    SetThenGet(g, m, i, v);
  }
}
