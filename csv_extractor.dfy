/**
 * The CSV field-mapping extractor of ETL/Extractor.py. Each method asks the record
 * for its path, reads that file with `csv.DictReader`, and routes every row through
 * an `if/elif` chain of substring tests on the row's name to one setter. The Python
 * methods catch every exception at the outer `try`, so a failing row ends the scan
 * with the earlier rows' values kept.
 *
 * The file system is a parameter, `files`: the rows `csv.DictReader` yields for each
 * readable path. A path outside it is a FileNotFoundError. The statements the scan
 * executes are a plan (`Beams.Op`), one per row; each method executes its plan with
 * a loop over the rows and is proved to leave the record as `Beams.Run` of the plan.
 */
module CsvExtraction {
  import opened Wrappers
  import opened Text
  import opened TextSplit
  import opened PyDecimal
  import opened Geo6xfff
  import opened Beams

  /** One row of `csv.DictReader`: the `Name [Unit]` and ` Value` cells. None is the
      reader's fill value `None` for a row shorter than the header. */
  datatype Row = Row(name: Option<string>, value: Option<string>)

  /** What the reader yields for each path that can be opened. */
  type Files = map<string, seq<Row>>

  /** `Decimal(value)`, or `Decimal(-1)` when that raises (InvalidOperation for a
      malformed string, TypeError for None). */
  function CellDecimal(v: Option<string>): (r: Decimal)
    ensures v.Some? && Parse(v.value).Some? ==> r == Parse(v.value).value
    ensures v.None? || Parse(v.value).None? ==> r == Sentinel
  {
    match v
    case None => Sentinel
    case Some(s) => ParseOrSentinel(s)
  }

  /** An empty or all-blank cell is not a number. */
  lemma BlankIsNotDecimal(s: string)
    requires Strip(s) == []
    ensures Parse(s) == None
  {
    assert SplitSign(Strip(s)) == (false, []);
    assert LeadingDigits([]) == 0;
  }

  // ---------------------------------------------------------------------------
  // Electron and photon beams
  // ---------------------------------------------------------------------------

  /** The field an e-beam (or, with `withShift`, an x-beam) row is routed to: the
      first of `BeamOutputChange`, `BeamUniformityChange` (and `BeamCenterShift`)
      that occurs in the stripped name. */
  function BeamRowField(name: string, withShift: bool): (r: Option<Scalar>)
    ensures r == Some(RelativeOutput) <==> Contains(Strip(name), "BeamOutputChange")
    ensures r == Some(RelativeUniformity) <==>
      !Contains(Strip(name), "BeamOutputChange") && Contains(Strip(name), "BeamUniformityChange")
    ensures r == Some(CenterShift) <==>
      withShift && !Contains(Strip(name), "BeamOutputChange") && !Contains(Strip(name), "BeamUniformityChange")
      && Contains(Strip(name), "BeamCenterShift")
    ensures r.Some? ==> r.value in XScalars
  {
    var n := Strip(name);
    if Contains(n, "BeamOutputChange") then Some(RelativeOutput)
    else if Contains(n, "BeamUniformityChange") then Some(RelativeUniformity)
    else if withShift && Contains(n, "BeamCenterShift") then Some(CenterShift)
    else None
  }

  /** The statement one row executes: `.strip()` of a missing name raises
      AttributeError; a routed row calls its setter with the cell's decimal. */
  function BeamRowOp(row: Row, withShift: bool): Op
  {
    match row.name
    case None => Raise(AttributeError)
    case Some(n) =>
      match BeamRowField(n, withShift)
      case None => Skip
      case Some(f) => Do(SetScalar(f, CellDecimal(row.value)))
  }

  function BeamPlan(rows: seq<Row>, withShift: bool): (r: seq<Op>)
    ensures |r| == |rows|
  {
    seq(|rows|, i requires 0 <= i < |rows| => BeamRowOp(rows[i], withShift))
  }

  /** The record after `eModelExtraction` (`withShift` false) or `xModelExtraction`
      (`withShift` true): unchanged when the class has no `get_path` or the file
      cannot be read, otherwise the plan of the file's rows run on it. */
  function BeamExtraction(st: BeamState, files: Files, withShift: bool): BeamState
  {
    if !HasGetPath(st) || PathOf(st) !in files then st
    else Run(st, BeamPlan(files[PathOf(st)], withShift)).st
  }

  /** The row loop shared by `eModelExtraction` and `xModelExtraction`. */
  method ScanBeamRows(b: Beam, files: Files, withShift: bool)
    modifies Obj(b)
    ensures Snapshot(b) == BeamExtraction(old(Snapshot(b)), files, withShift)
  {
    var st := Snapshot(b);
    if !HasGetPath(st) || PathOf(st) !in files {
      return;
    }
    var _ := Execute(b, BeamPlan(files[PathOf(st)], withShift));
  }

  /** `eModelExtraction`. */
  method EModelExtraction(b: Beam, files: Files)
    modifies Obj(b)
    ensures Snapshot(b) == BeamExtraction(old(Snapshot(b)), files, false)
  {
    ScanBeamRows(b, files, false);
  }

  /** `testeModelExtraction`: the same scan; the getters it then prints are inside
      the same `try`, so it has the same effect on the record. */
  method TestEModelExtraction(b: Beam, files: Files)
    modifies Obj(b)
    ensures Snapshot(b) == BeamExtraction(old(Snapshot(b)), files, false)
  {
    ScanBeamRows(b, files, false);
  }

  /** `xModelExtraction`. */
  method XModelExtraction(b: Beam, files: Files)
    modifies Obj(b)
    ensures Snapshot(b) == BeamExtraction(old(Snapshot(b)), files, true)
  {
    ScanBeamRows(b, files, true);
  }

  /** The scan sets measurements only: type, path and date stay as they were. */
  lemma BeamExtractionKeepsHeader(st: BeamState, files: Files, withShift: bool)
    ensures Header(BeamExtraction(st, files, withShift)) == Header(st)
  {
    if HasGetPath(st) && PathOf(st) in files {
      var plan := BeamPlan(files[PathOf(st)], withShift);
      forall j | 0 <= j < |plan| ensures MeasurementOnly(plan[j]) {
      }
      RunKeepsHeader(st, plan);
    }
  }

  /** An `EBeamModel` has no `get_path`: e- and x-extraction leave it as it was. */
  lemma EBeamUntouched(st: BeamState, files: Files, withShift: bool)
    requires st.ES?
    ensures BeamExtraction(st, files, withShift) == st
  {
  }

  lemma BeamWrites(row: Row, withShift: bool, f: Scalar)
    ensures Writes(BeamRowOp(row, withShift), f) <==> row.name.Some? && BeamRowField(row.name.value, withShift) == Some(f)
  {
  }

  /** A row scan on a record whose class has the three setters never aborts when every
      row has a name. */
  lemma BeamPlanNoError(st: BeamState, rows: seq<Row>, withShift: bool)
    requires st.XS? || st.GS?
    requires forall j :: 0 <= j < |rows| ==> rows[j].name.Some?
    ensures Run(st, BeamPlan(rows, withShift)).error.None?
  {
    var plan := BeamPlan(rows, withShift);
    forall j | 0 <= j < |plan|
      ensures !plan[j].Raise?
      ensures plan[j].Do? ==> Defines(ClassName(st), plan[j].c)
    {
      assert plan[j] == BeamRowOp(rows[j], withShift);
    }
    RunNoError(st, plan);
  }

  /** Last row wins: on an x-beam or geometry record, when every row has a name, each
      of the three fields ends with the decimal of the last row routed to it (the
      sentinel -1 when that row's value is missing or malformed). */
  lemma BeamLastRowWins(st: BeamState, rows: seq<Row>, withShift: bool, i: nat, f: Scalar)
    requires st.XS? || st.GS?
    requires forall j :: 0 <= j < |rows| ==> rows[j].name.Some?
    requires i < |rows| && BeamRowField(rows[i].name.value, withShift) == Some(f)
    requires forall j :: i < j < |rows| ==> BeamRowField(rows[j].name.value, withShift) != Some(f)
    ensures ScalarOf(Run(st, BeamPlan(rows, withShift)).st, f) == Some(CellDecimal(rows[i].value))
  {
    var plan := BeamPlan(rows, withShift);
    BeamPlanNoError(st, rows, withShift);
    assert plan[i] == BeamRowOp(rows[i], withShift);
    forall j | i < j < |plan|
      ensures !Writes(plan[j], f)
    {
      assert plan[j] == BeamRowOp(rows[j], withShift);
      BeamWrites(rows[j], withShift, f);
    }
    LastWriteWins(st, plan, i, f, CellDecimal(rows[i].value));
  }

  /** A field no row is routed to keeps its value, whatever the rows raise. */
  lemma BeamUnroutedKept(st: BeamState, rows: seq<Row>, withShift: bool, f: Scalar)
    requires forall j :: 0 <= j < |rows| ==> rows[j].name.Some? ==> BeamRowField(rows[j].name.value, withShift) != Some(f)
    ensures ScalarOf(Run(st, BeamPlan(rows, withShift)).st, f) == ScalarOf(st, f)
  {
    var plan := BeamPlan(rows, withShift);
    forall j | 0 <= j < |plan|
      ensures !Writes(plan[j], f)
    {
      assert plan[j] == BeamRowOp(rows[j], withShift);
      BeamWrites(rows[j], withShift, f);
    }
    RunNoWrite(st, plan, f);
  }

  // ---------------------------------------------------------------------------
  // Geometry beams
  // ---------------------------------------------------------------------------

  /** Where a geometry row goes: a scalar setter, or one of the four leaf maps. */
  datatype Target = ToScalar(f: Scalar) | ToLeaf(m: LeafMap)

  /** The `if/elif` chain of `geoModelExtraction`: each branch's substring and the
      setter it calls, in the order they are tested. */
  const GeoRoutes: seq<(string, Target)> := [
    ("IsoCenterSize", ToScalar(IsoCenterSize)),
    ("IsoCenterMVOffset", ToScalar(IsoCenterMVOffset)),
    ("IsoCenterKVOffset", ToScalar(IsoCenterKVOffset)),
    ("BeamOutputChange", ToScalar(RelativeOutput)),
    ("BeamUniformityChange", ToScalar(RelativeUniformity)),
    ("BeamCenterShift", ToScalar(CenterShift)),
    ("CollimationRotationOffset", ToScalar(CollimationRotationOffset)),
    ("GantryAbsolute", ToScalar(GantryAbsolute)),
    ("GantryRelative", ToScalar(GantryRelative)),
    ("CouchMaxPositionError", ToScalar(CouchMaxPositionError)),
    ("CouchLat", ToScalar(CouchLat)),
    ("CouchLng", ToScalar(CouchLng)),
    ("CouchVrt", ToScalar(CouchVrt)),
    ("CouchRtnFine", ToScalar(CouchRtnFine)),
    ("CouchRtnLarge", ToScalar(CouchRtnLarge)),
    ("RotationInducedCouchShiftFullRange", ToScalar(RotationInducedCouchShiftFullRange)),
    ("MLCLeavesA/MLCLeaf", ToLeaf(MLCLeavesA)),
    ("MLCLeavesB/MLCLeaf", ToLeaf(MLCLeavesB)),
    ("MaxOffsetA", ToScalar(MaxOffsetA)),
    ("MaxOffsetB", ToScalar(MaxOffsetB)),
    ("MeanOffsetA", ToScalar(MeanOffsetA)),
    ("MeanOffsetB", ToScalar(MeanOffsetB)),
    ("MLCBacklashLeavesA/MLCBacklashLeaf", ToLeaf(MLCBacklashA)),
    ("MLCBacklashLeavesB/MLCBacklashLeaf", ToLeaf(MLCBacklashB)),
    ("MLCBacklashMaxA", ToScalar(MLCBacklashMaxA)),
    ("MLCBacklashMaxB", ToScalar(MLCBacklashMaxB)),
    ("MLCBacklashMeanA", ToScalar(MLCBacklashMeanA)),
    ("MLCBacklashMeanB", ToScalar(MLCBacklashMeanB)),
    ("JawX1", ToScalar(JawX1)),
    ("JawX2", ToScalar(JawX2)),
    ("JawY1", ToScalar(JawY1)),
    ("JawY2", ToScalar(JawY2)),
    ("JawParallelismX1", ToScalar(JawParallelismX1)),
    ("JawParallelismX2", ToScalar(JawParallelismX2)),
    ("JawParallelismY1", ToScalar(JawParallelismY1)),
    ("JawParallelismY2", ToScalar(JawParallelismY2))
  ]

  /** An `if/elif` chain of substring tests: the target of the first branch whose
      pattern occurs in the name. */
  function FirstHit(n: string, routes: seq<(string, Target)>): Option<Target>
    decreases |routes|
  {
    if routes == [] then None
    else if Contains(n, routes[0].0) then Some(routes[0].1)
    else FirstHit(n, routes[1..])
  }

  /** Branch `k` is the first whose pattern occurs in the name. */
  predicate FirstHitAt(n: string, routes: seq<(string, Target)>, k: int)
  {
    0 <= k < |routes| && Contains(n, routes[k].0) && forall j :: 0 <= j < k ==> !Contains(n, routes[j].0)
  }

  /** The chain picks the target of the first branch whose pattern occurs, and picks
      nothing exactly when no pattern occurs. */
  lemma {:induction false} FirstHitLeftmost(n: string, routes: seq<(string, Target)>)
    ensures FirstHit(n, routes).Some? ==>
      exists k :: FirstHitAt(n, routes, k) && routes[k].1 == FirstHit(n, routes).value
    ensures FirstHit(n, routes).None? <==> forall j :: 0 <= j < |routes| ==> !Contains(n, routes[j].0)
    decreases |routes|
  {
    if routes != [] {
      if Contains(n, routes[0].0) {
        assert FirstHitAt(n, routes, 0);
      } else {
        var rest := routes[1..];
        FirstHitLeftmost(n, rest);
        assert forall j :: 0 <= j < |rest| ==> rest[j] == routes[j + 1];
        if FirstHit(n, rest).Some? {
          var k :| FirstHitAt(n, rest, k) && rest[k].1 == FirstHit(n, rest).value;
          assert FirstHitAt(n, routes, k + 1);
        }
      }
    }
  }

  /** The separator whose `split(...)[1]` holds a leaf row's index. */
  function LeafSep(m: LeafMap): string
  {
    match m
    case MLCLeavesA => "MLCLeaf"
    case MLCLeavesB => "MLCLeaf"
    case MLCBacklashA => "MLCBacklashLeaf"
    case MLCBacklashB => "MLCBacklashLeaf"
  }

  /** `int(name.split(sep)[1].split()[0])`; None for any of the three exceptions it
      can raise (IndexError twice, ValueError). */
  function LeafIndex(name: string, sep: string): (r: Option<int>)
    requires sep != []
    ensures r.Some? ==> Contains(name, sep)
  {
    match SecondPiece(name, sep)
    case None => None
    case Some(p) =>
      var ws := Tokens(p);
      if ws == [] then None else ParseInt(ws[0])
  }

  /** The characters of `str(k)`: digits, after a '-' for a negative `k`. */
  lemma IntToStringChars(k: int)
    ensures forall j :: 0 <= j < |IntToString(k)| ==> IsDigit(IntToString(k)[j]) || IntToString(k)[j] == '-'
  {
    if k < 0 {
      var t := NatToString(-k);
      assert forall j :: 1 <= j < |IntToString(k)| ==> IntToString(k)[j] == t[j - 1];
    }
  }

  /** A number cannot hold a separator that starts with neither a digit nor '-', so
      one after it can only lie in what follows. */
  lemma NumberHoldsNoSep(k: int, rest: string, sep: string)
    requires sep != [] && !IsDigit(sep[0]) && sep[0] != '-'
    requires !Contains(rest, sep)
    ensures !Contains(IntToString(k) + rest, sep)
  {
    var w := IntToString(k);
    var t := w + rest;
    IntToStringChars(k);
    if Contains(t, sep) {
      var j := IndexOf(t, sep).value;
      assert t[j] == t[j..j + |sep|][0] == sep[0];
      if j >= |w| {
        assert t[|w|..] == rest;
        assert t[|w|..][j - |w|..j - |w| + |sep|] == t[j..j + |sep|];
        ContainsIff(rest, sep);
        assert MatchAt(rest, sep, j - |w|);
      }
    }
  }

  /** A leaf row's name carries its index right after the separator: the text before
      it holding no earlier separator, the index written as `str(k)` and followed by
      whitespace or nothing, and no separator after it, the index parses back to `k`. */
  lemma LeafIndexOf(prefix: string, m: LeafMap, k: int, rest: string)
    requires forall j :: 0 <= j < |prefix| ==> !MatchAt(prefix + LeafSep(m), LeafSep(m), j)
    requires !Contains(rest, LeafSep(m))
    requires rest == [] || IsSpace(rest[0])
    ensures LeafIndex(prefix + LeafSep(m) + IntToString(k) + rest, LeafSep(m)) == Some(k)
  {
    var sep := LeafSep(m);
    var w := IntToString(k);
    var t := w + rest;
    NumberHoldsNoSep(k, rest, sep);
    SecondPieceOf(prefix, sep, t);
    assert prefix + sep + w + rest == prefix + sep + t;
    IntToStringChars(k);
    assert IsToken(w);
    var blank: string := [];
    TokensCons(blank, w, rest);
    assert blank + w == w;
    assert Tokens(t)[0] == w;
    ParseIntOfString(k);
  }

  /** The statement one geometry row executes. Both cells are stripped first, so a
      missing one raises AttributeError. */
  function GeoRowOp(row: Row): (r: Op)
    ensures r.Raise? <==> row.name.None? || row.value.None?
    ensures r.Raise? ==> r.e == AttributeError
  {
    match row.name
    case None => Raise(AttributeError)
    case Some(n) =>
      match row.value
      case None => Raise(AttributeError)
      case Some(v) => GeoCellsOp(Strip(n), Strip(v))
  }

  /** The statement for a row whose stripped cells are `n` and `v`: a blank name or
      value skips the row; the value is parsed once, with the -1 fallback; a leaf
      row's setter runs inside its own `try`, and an index that does not parse
      skips it. */
  function GeoCellsOp(n: string, v: string): (r: Op)
    ensures !r.Raise?
    ensures n == [] || v == [] ==> r == Skip
    ensures r.Do? ==> r.c.SetScalar? && r.c.v == ParseOrSentinel(v)
    ensures r.Try? ==> r.c.SetLeaf? && r.c.v == ParseOrSentinel(v)
  {
    if n == [] || v == [] then Skip
    else
      var d := ParseOrSentinel(v);
      match FirstHit(n, GeoRoutes)
      case None => Skip
      case Some(ToScalar(f)) => Do(SetScalar(f, d))
      case Some(ToLeaf(m)) =>
        match LeafIndex(n, LeafSep(m))
        case None => Skip
        case Some(i) => Try(SetLeaf(m, i, d))
  }

  /** A geometry row calls the setter of the first branch of the chain whose pattern
      occurs in its stripped name; a leaf row writes the index parsed from the name
      after its map's separator. */
  lemma GeoCellsRouted(n: string, v: string)
    ensures GeoCellsOp(n, v).Do? ==>
      exists k :: FirstHitAt(n, GeoRoutes, k) && GeoRoutes[k].1 == ToScalar(GeoCellsOp(n, v).c.f)
    ensures GeoCellsOp(n, v).Try? ==>
      (exists k :: FirstHitAt(n, GeoRoutes, k) && GeoRoutes[k].1 == ToLeaf(GeoCellsOp(n, v).c.m))
      && LeafIndex(n, LeafSep(GeoCellsOp(n, v).c.m)) == Some(GeoCellsOp(n, v).c.i)
  {
    FirstHitLeftmost(n, GeoRoutes);
  }

  /** A row whose stripped name matches no branch changes nothing. */
  lemma GeoCellsUnrouted(n: string, v: string)
    requires forall j :: 0 <= j < |GeoRoutes| ==> !Contains(n, GeoRoutes[j].0)
    ensures GeoCellsOp(n, v) == Skip
  {
    FirstHitLeftmost(n, GeoRoutes);
  }

  function GeoPlan(rows: seq<Row>): (r: seq<Op>)
    ensures |r| == |rows|
  {
    seq(|rows|, i requires 0 <= i < |rows| => GeoRowOp(rows[i]))
  }

  /** The record after `geoModelExtraction`. */
  function GeoExtraction(st: BeamState, files: Files): BeamState
  {
    if !HasGetPath(st) || PathOf(st) !in files then st
    else Run(st, GeoPlan(files[PathOf(st)])).st
  }

  /** `geoModelExtraction`. */
  method GeoModelExtraction(b: Beam, files: Files)
    modifies Obj(b)
    ensures Snapshot(b) == GeoExtraction(old(Snapshot(b)), files)
  {
    var st := Snapshot(b);
    if !HasGetPath(st) || PathOf(st) !in files {
      return;
    }
    var _ := Execute(b, GeoPlan(files[PathOf(st)]));
  }

  /** `testGeoModelExtraction`: the extraction, then getters inside a `try` that only
      print. */
  method TestGeoModelExtraction(b: Beam, files: Files)
    modifies Obj(b)
    ensures Snapshot(b) == GeoExtraction(old(Snapshot(b)), files)
  {
    GeoModelExtraction(b, files);
  }

  /** On a geometry record, a scan whose rows all have both cells never aborts, and
      it keeps the record well formed. */
  lemma GeoPlanNoError(st: BeamState, rows: seq<Row>)
    requires st.GS?
    requires forall j :: 0 <= j < |rows| ==> rows[j].name.Some? && rows[j].value.Some?
    ensures Run(st, GeoPlan(rows)).error.None?
    ensures Good(st) ==> Good(Run(st, GeoPlan(rows)).st)
  {
    var plan := GeoPlan(rows);
    forall j | 0 <= j < |plan|
      ensures !plan[j].Raise?
      ensures plan[j].Do? ==> Defines(ClassName(st), plan[j].c)
    {
      assert plan[j] == GeoRowOp(rows[j]);
    }
    RunNoError(st, plan);
    if Good(st) {
      RunKeepsGood(st, plan);
    }
  }

  /** Last row wins for every scalar of a geometry record: the field ends with the
      stripped value's decimal of the last row that writes it. */
  lemma GeoLastRowWins(st: BeamState, rows: seq<Row>, i: nat, f: Scalar)
    requires st.GS?
    requires forall j :: 0 <= j < |rows| ==> rows[j].name.Some? && rows[j].value.Some?
    requires i < |rows| && Writes(GeoRowOp(rows[i]), f)
    requires forall j :: i < j < |rows| ==> !Writes(GeoRowOp(rows[j]), f)
    ensures ScalarOf(Run(st, GeoPlan(rows)).st, f) == Some(ParseOrSentinel(Strip(rows[i].value.value)))
  {
    var plan := GeoPlan(rows);
    GeoPlanNoError(st, rows);
    assert GeoRowOp(rows[i]) == GeoCellsOp(Strip(rows[i].name.value), Strip(rows[i].value.value));
    LastWriteWins(st, plan, i, f, ParseOrSentinel(Strip(rows[i].value.value)));
  }

  /** Last row wins for every leaf of a geometry record: the leaf ends with the
      stripped value's decimal of the last row that writes it, the per-row `try`
      around the setter notwithstanding. */
  lemma GeoLastLeafRowWins(st: BeamState, rows: seq<Row>, i: nat, m: LeafMap, idx: int)
    requires st.GS?
    requires forall j :: 0 <= j < |rows| ==> rows[j].name.Some? && rows[j].value.Some?
    requires i < |rows| && WritesLeaf(GeoRowOp(rows[i]), m, idx)
    requires forall j :: i < j < |rows| ==> !WritesLeaf(GeoRowOp(rows[j]), m, idx)
    ensures LeafOf(Run(st, GeoPlan(rows)).st, m, idx) == Ok(ParseOrSentinel(Strip(rows[i].value.value)))
  {
    var plan := GeoPlan(rows);
    GeoPlanNoError(st, rows);
    var v := ParseOrSentinel(Strip(rows[i].value.value));
    assert plan[i] == GeoRowOp(rows[i]) == GeoCellsOp(Strip(rows[i].name.value), Strip(rows[i].value.value));
    assert plan[i] == Try(SetLeaf(m, idx, v));
    LastLeafWriteWins(st, plan, i, m, idx, v);
  }

  /** The geometry scan sets measurements only: type, path and date stay as they
      were. */
  lemma GeoExtractionKeepsHeader(st: BeamState, files: Files)
    ensures Header(GeoExtraction(st, files)) == Header(st)
  {
    if HasGetPath(st) && PathOf(st) in files {
      var plan := GeoPlan(files[PathOf(st)]);
      forall j | 0 <= j < |plan| ensures MeasurementOnly(plan[j]) {
      }
      RunKeepsHeader(st, plan);
    }
  }
}
