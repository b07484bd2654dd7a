/**
 * The upload side of ETL/Uploader.py: the conversion of a record's values for JSON,
 * the validation of the beam type, the choice of the target table and the row
 * each of the three uploaders hands to the database client. The client itself is
 * an abstract sink: an `Uploader` keeps the list of (table, row) pairs it was
 * given. A row is keyed by `Column`, whose `ColumnName` is the key the source
 * writes. Every getter is called by name on whatever record the uploader receives,
 * so a record of another class raises AttributeError; each uploader re-raises every
 * exception after printing it, and nothing is inserted then.
 *
 * `datetime.now().isoformat()`, the upload stamp, is a parameter (`now`).
 */
module Uploading {
  import opened Wrappers
  import opened Text
  import opened PyDecimal
  import opened PathMetadata
  import opened Geo6xfff
  import opened XBeam
  import opened Beams
  import opened Getters

  /** A row value. A float made from a decimal is kept as that decimal. `JLeaves`
      is `json.dumps` of a leaf dictionary, kept as the dictionary and keyed by leaf
      number: the source's key for leaf `i` is `LeafName(i)`, and distinct leaves
      have distinct keys (`LeafNameInjective`). */
  datatype Json = JStr(s: string) | JFloat(d: Decimal) | JNull | JLeaves(leaves: map<int, Json>)

  /** `datetime.isoformat()`. A Python datetime always names a real date and time;
      for a model value that does not, the text is empty. */
  function IsoText(d: DateTime): (s: string)
    ensures ValidDateTime(d) ==> s == IsoFormat(d) && |s| == 19
  {
    if ValidDateTime(d) then IsoFormat(d) else ""
  }

  /** `_convert_decimal_to_float`: a decimal becomes a float, a date its ISO text,
      and anything else (a string, None) is passed through. */
  function ConvertValue(v: Value): (r: Json)
    ensures r.JFloat? <==> v.DecValue?
    ensures v.DecValue? ==> r.d == v.n
    ensures v.DateValue? && v.d.Some? ==> r == JStr(IsoText(v.d.value))
    ensures v.DateValue? && v.d.None? ==> r == JNull
    ensures v.StrValue? ==> r == JStr(v.s)
  {
    match v
    case DecValue(n) => JFloat(n)
    case DateValue(d) => (match d case Some(t) => JStr(IsoText(t)) case None => JNull)
    case StrValue(s) => JStr(s)
  }

  // ---------------------------------------------------------------------------
  // Rows
  // ---------------------------------------------------------------------------

  /** A column of an uploaded row. */
  datatype Column =
    | BeamTypeColumn | MeasurementDate | FilePath | UploadedAt
    | Measurement(f: Scalar)
    | LeavesA | LeavesB | BacklashA | BacklashB

  /** The key under which the source stores a column. */
  function ColumnName(c: Column): string
  {
    match c
    case BeamTypeColumn => "beam_type"
    case MeasurementDate => "measurement_date"
    case FilePath => "file_path"
    case UploadedAt => "uploaded_at"
    case Measurement(f) => MeasurementName(f)
    case LeavesA => "mlc_leaves_a"
    case LeavesB => "mlc_leaves_b"
    case BacklashA => "mlc_backlash_a"
    case BacklashB => "mlc_backlash_b"
  }

  function MeasurementName(f: Scalar): string
  {
    match f
    case IsoCenterSize => "isocenter_size"
    case IsoCenterMVOffset => "isocenter_mv_offset"
    case IsoCenterKVOffset => "isocenter_kv_offset"
    case RelativeOutput => "relative_output"
    case RelativeUniformity => "relative_uniformity"
    case CenterShift => "center_shift"
    case CollimationRotationOffset => "collimation_rotation_offset"
    case GantryAbsolute => "gantry_absolute"
    case GantryRelative => "gantry_relative"
    case CouchMaxPositionError => "couch_max_position_error"
    case CouchLat => "couch_lat"
    case CouchLng => "couch_lng"
    case CouchVrt => "couch_vrt"
    case CouchRtnFine => "couch_rtn_fine"
    case CouchRtnLarge => "couch_rtn_large"
    case RotationInducedCouchShiftFullRange => "rotation_induced_couch_shift_full_range"
    case MaxOffsetA => "mlc_max_offset_a"
    case MaxOffsetB => "mlc_max_offset_b"
    case MeanOffsetA => "mlc_mean_offset_a"
    case MeanOffsetB => "mlc_mean_offset_b"
    case MLCBacklashMaxA => "mlc_backlash_max_a"
    case MLCBacklashMaxB => "mlc_backlash_max_b"
    case MLCBacklashMeanA => "mlc_backlash_mean_a"
    case MLCBacklashMeanB => "mlc_backlash_mean_b"
    case JawX1 => "jaw_x1"
    case JawX2 => "jaw_x2"
    case JawY1 => "jaw_y1"
    case JawY2 => "jaw_y2"
    case JawParallelismX1 => "jaw_parallelism_x1"
    case JawParallelismX2 => "jaw_parallelism_x2"
    case JawParallelismY1 => "jaw_parallelism_y1"
    case JawParallelismY2 => "jaw_parallelism_y2"
  }

  type Row = map<Column, Json>

  /** One insert: the table name and the row. */
  datatype Upload = Upload(table: string, row: Row)

  // ---------------------------------------------------------------------------
  // Dictionary literals of getter calls
  // ---------------------------------------------------------------------------

  /** The columns of a list of entries from `i` on. */
  function Names<X>(es: seq<(Column, X)>, i: nat): (r: set<Column>)
    decreases |es| - i
  {
    if i >= |es| then {} else {es[i].0} + Names(es, i + 1)
  }

  /** A column is among the names exactly when some entry from `i` on carries it. */
  lemma {:induction false} NamesMember<X>(es: seq<(Column, X)>, i: nat, c: Column)
    ensures c in Names(es, i) <==> exists j :: i <= j < |es| && es[j].0 == c
    decreases |es| - i
  {
    if i < |es| {
      NamesMember(es, i + 1, c);
    }
  }

  /** The getter calls of a literal, each with what it returns on the record. */
  function Evaluate(st: BeamState, gets: seq<(Column, Get)>): (r: seq<(Column, Result<Value>)>)
    ensures |r| == |gets|
    ensures forall k :: 0 <= k < |gets| ==> r[k] == (gets[k].0, Query(st, gets[k].1))
  {
    seq(|gets|, k requires 0 <= k < |gets| => (gets[k].0, Query(st, gets[k].1)))
  }

  /** Evaluating the getters keeps the columns. */
  lemma {:induction false} EvaluateNames(st: BeamState, gets: seq<(Column, Get)>, i: nat)
    ensures Names(Evaluate(st, gets), i) == Names(gets, i)
    decreases |gets| - i
  {
    if i < |gets| {
      EvaluateNames(st, gets, i + 1);
    }
  }

  /** A dictionary literal `{key: convert(model.getter()), ...}` over its evaluated
      entries, from entry `i` on: the entries are evaluated in order, so the first
      getter that raises decides the exception. (The source does not pass
      `file_path` through the conversion; the conversion leaves a string as it
      is.) */
  function Literal(es: seq<(Column, Result<Value>)>, i: nat): (r: Result<Row>)
    ensures r.Ok? ==> r.value.Keys == Names(es, i)
    decreases |es| - i
  {
    if i >= |es| then Ok(map[])
    else
      match es[i].1
      case Err(e) => Err(e)
      case Ok(v) =>
        match Literal(es, i + 1)
        case Err(e) => Err(e)
        case Ok(m) => Ok(map[es[i].0 := ConvertValue(v)] + m)
  }

  /** The literal of a list of getter entries, on a record. */
  function Fields(st: BeamState, gets: seq<(Column, Get)>): Result<Row>
  {
    Literal(Evaluate(st, gets), 0)
  }

  /** A literal whose getters all return builds its dictionary. */
  lemma {:induction false} LiteralOk(es: seq<(Column, Result<Value>)>, i: nat)
    requires forall k :: i <= k < |es| ==> es[k].1.Ok?
    ensures Literal(es, i).Ok?
    decreases |es| - i
  {
    if i < |es| {
      LiteralOk(es, i + 1);
    }
  }

  /** The exception of a failing literal is that of its first failing getter. */
  lemma {:induction false} LiteralFirstError(es: seq<(Column, Result<Value>)>, i: nat, k: nat)
    requires i <= k < |es| && es[k].1.Err?
    requires forall j :: i <= j < k ==> es[j].1.Ok?
    ensures Literal(es, i) == Err(es[k].1.error)
    decreases k - i
  {
    if i < k {
      LiteralFirstError(es, i + 1, k);
    }
  }

  /** Each column holds the converted value of its own getter (the last entry with
      that column wins, as in a Python dictionary literal). */
  lemma {:induction false} LiteralValue(es: seq<(Column, Result<Value>)>, i: nat, k: nat)
    requires Literal(es, i).Ok?
    requires i <= k < |es|
    requires es[k].0 !in Names(es, k + 1)
    ensures es[k].1.Ok?
    ensures es[k].0 in Literal(es, i).value
    ensures Literal(es, i).value[es[k].0] == ConvertValue(es[k].1.value)
    decreases k - i
  {
    if i < k {
      LiteralValue(es, i + 1, k);
    }
  }

  /** The entries of a group of scalar measurements: each column holds its getter. */
  function ScalarEntries(fs: seq<Scalar>): (r: seq<(Column, Get)>)
    ensures |r| == |fs|
    ensures forall k :: 0 <= k < |fs| ==> r[k] == (Measurement(fs[k]), GetScalar(fs[k]))
  {
    seq(|fs|, k requires 0 <= k < |fs| => (Measurement(fs[k]), GetScalar(fs[k])))
  }

  /** A group of scalar measurements never raises on a well-formed geometry record. */
  lemma ScalarEntriesOnGeo(st: BeamState, fs: seq<Scalar>)
    requires st.GS? && forall f: Scalar :: f in st.g.scalars
    ensures Fields(st, ScalarEntries(fs)).Ok?
  {
    var es := Evaluate(st, ScalarEntries(fs));
    forall k | 0 <= k < |es| ensures es[k].1.Ok? {
      assert es[k].1 == Query(st, GetScalar(fs[k]));
    }
    LiteralOk(es, 0);
  }

  /** A group of scalar measurements fills measurement columns only. */
  lemma ScalarEntriesColumns(st: BeamState, fs: seq<Scalar>)
    requires Fields(st, ScalarEntries(fs)).Ok?
    ensures forall c :: c in Fields(st, ScalarEntries(fs)).value ==> c.Measurement?
  {
    EvaluateNames(st, ScalarEntries(fs), 0);
    forall c | c in Names(ScalarEntries(fs), 0) ensures c.Measurement? {
      NamesMember(ScalarEntries(fs), 0, c);
    }
  }

  // ---------------------------------------------------------------------------
  // Electron and photon uploads
  // ---------------------------------------------------------------------------

  const ETypes: seq<string> := ["6e", "9e", "12e", "16e"]
  const XTypes: seq<string> := ["10x", "15x"]

  /** The entries of the electron row that call getters, in the source's order. */
  const EGets: seq<(Column, Get)> := [
    (MeasurementDate, GetDate), (FilePath, GetPath),
    (Measurement(RelativeUniformity), GetScalar(RelativeUniformity)),
    (Measurement(RelativeOutput), GetScalar(RelativeOutput))]

  /** The photon row has `center_shift` as well. */
  const XGets: seq<(Column, Get)> := [
    (MeasurementDate, GetDate), (FilePath, GetPath),
    (Measurement(RelativeUniformity), GetScalar(RelativeUniformity)),
    (Measurement(RelativeOutput), GetScalar(RelativeOutput)),
    (Measurement(CenterShift), GetScalar(CenterShift))]

  const EColumns: set<Column> := {
    BeamTypeColumn, MeasurementDate, FilePath, Measurement(RelativeUniformity), Measurement(RelativeOutput), UploadedAt}
  const XColumns: set<Column> := EColumns + {Measurement(CenterShift)}

  /** `get_type()` is checked against the valid types, the table is `beam_<type>`,
      and the row is `beam_type`, the getter entries and `uploaded_at`. */
  function BeamUpload(st: BeamState, valid: seq<string>, gets: seq<(Column, Get)>, now: string): Result<Upload>
  {
    var t := Header(st).0;
    if t !in valid then Err(ValueError)
    else
      match Fields(st, gets)
      case Err(e) => Err(e)
      case Ok(m) => Ok(Upload("beam_" + t, map[BeamTypeColumn := JStr(t)] + m + map[UploadedAt := JStr(now)]))
  }

  /** `EBeamUploader` up to the insert. */
  function EUpload(st: BeamState, now: string): Result<Upload>
  {
    BeamUpload(st, ETypes, EGets, now)
  }

  /** `XBeamUploader` up to the insert. */
  function XUpload(st: BeamState, now: string): Result<Upload>
  {
    BeamUpload(st, XTypes, XGets, now)
  }

  /** A type outside the list raises ValueError before any getter is called. */
  lemma InvalidTypeRejected(st: BeamState, now: string)
    ensures Header(st).0 !in ETypes ==> EUpload(st, now) == Err(ValueError)
    ensures Header(st).0 !in XTypes ==> XUpload(st, now) == Err(ValueError)
  {
  }

  lemma EColumnsOfGets()
    ensures Names(EGets, 0) == {MeasurementDate, FilePath, Measurement(RelativeUniformity), Measurement(RelativeOutput)}
  {
    assert Names(EGets, 0) == {MeasurementDate, FilePath, Measurement(RelativeUniformity), Measurement(RelativeOutput)};
  }

  lemma XColumnsOfGets()
    ensures Names(XGets, 0) == {
      MeasurementDate, FilePath, Measurement(RelativeUniformity), Measurement(RelativeOutput), Measurement(CenterShift)}
  {
    assert Names(XGets, 0) == {
      MeasurementDate, FilePath, Measurement(RelativeUniformity), Measurement(RelativeOutput), Measurement(CenterShift)};
  }

  /** The electron row's keys: `beam_type`, the getters' columns and `uploaded_at`. */
  lemma ERowKeys()
    ensures BeamTypeColumn !in Names(EGets, 0)
    ensures {BeamTypeColumn} + Names(EGets, 0) + {UploadedAt} == EColumns
  {
    EColumnsOfGets();
  }

  /** The photon row's keys: `beam_type`, the getters' columns and `uploaded_at`. */
  lemma XRowKeys()
    ensures BeamTypeColumn !in Names(XGets, 0)
    ensures {BeamTypeColumn} + Names(XGets, 0) + {UploadedAt} == XColumns
  {
    XColumnsOfGets();
  }

  /** An accepted row goes to `beam_<type>` and holds `beam_type`, the getters'
      columns and `uploaded_at`. */
  lemma BeamUploadShape(st: BeamState, valid: seq<string>, gets: seq<(Column, Get)>, now: string)
    requires BeamUpload(st, valid, gets, now).Ok?
    requires BeamTypeColumn !in Names(gets, 0)
    ensures Header(st).0 in valid
    ensures BeamUpload(st, valid, gets, now).value.table == "beam_" + Header(st).0
    ensures BeamUpload(st, valid, gets, now).value.row.Keys == {BeamTypeColumn} + Names(gets, 0) + {UploadedAt}
    ensures BeamUpload(st, valid, gets, now).value.row[BeamTypeColumn] == JStr(Header(st).0)
    ensures BeamUpload(st, valid, gets, now).value.row[UploadedAt] == JStr(now)
  {
    var m := Fields(st, gets).value;
    EvaluateNames(st, gets, 0);
    assert m.Keys == Names(gets, 0);
    assert BeamUpload(st, valid, gets, now).value.row == map[BeamTypeColumn := JStr(Header(st).0)] + m + map[UploadedAt := JStr(now)];
  }

  /** An accepted electron row goes to `beam_<type>` with exactly the six columns,
      its type and its upload stamp. */
  lemma EUploadShape(st: BeamState, now: string)
    requires EUpload(st, now).Ok?
    ensures Header(st).0 in ETypes
    ensures EUpload(st, now).value.table == "beam_" + Header(st).0
    ensures EUpload(st, now).value.row.Keys == EColumns
    ensures EUpload(st, now).value.row[BeamTypeColumn] == JStr(Header(st).0)
    ensures EUpload(st, now).value.row[UploadedAt] == JStr(now)
  {
    ERowKeys();
    BeamUploadShape(st, ETypes, EGets, now);
  }

  /** An accepted photon row goes to `beam_<type>` with the six columns and
      `center_shift`. */
  lemma XUploadShape(st: BeamState, now: string)
    requires XUpload(st, now).Ok?
    ensures Header(st).0 in XTypes
    ensures XUpload(st, now).value.table == "beam_" + Header(st).0
    ensures XUpload(st, now).value.row.Keys == XColumns
    ensures XUpload(st, now).value.row[BeamTypeColumn] == JStr(Header(st).0)
    ensures XUpload(st, now).value.row[UploadedAt] == JStr(now)
  {
    XRowKeys();
    BeamUploadShape(st, XTypes, XGets, now);
  }

  /** `EBeamUploader` cannot upload an `EBeamModel`: with a valid type, `get_path`
      raises AttributeError. */
  lemma EUploadOnEBeam(st: BeamState, now: string)
    requires st.ES? && Header(st).0 in ETypes
    ensures EUpload(st, now) == Err(AttributeError)
  {
    var es := Evaluate(st, EGets);
    assert es[0].1 == Query(st, GetDate) && es[1].1 == Query(st, GetPath);
    LiteralFirstError(es, 0, 1);
  }

  /** What the photon getters return on an `XBeamModel`'s fields. */
  function XValues(x: XState): seq<(Column, Result<Value>)>
  {
    [(MeasurementDate, Ok(DateValue(x.date))), (FilePath, Ok(StrValue(x.path))),
     (Measurement(RelativeUniformity), Ok(DecValue(x.relativeUniformity))),
     (Measurement(RelativeOutput), Ok(DecValue(x.relativeOutput))),
     (Measurement(CenterShift), Ok(DecValue(x.centerShift)))]
  }

  lemma XEntries(st: BeamState)
    requires st.XS?
    ensures Evaluate(st, XGets) == XValues(st.x)
  {
    var es := Evaluate(st, XGets);
    assert XGets[4].1 == GetScalar(CenterShift);
    QueryScalar(st, RelativeUniformity);
    QueryScalar(st, RelativeOutput);
    QueryScalar(st, CenterShift);
    assert es[0] == XValues(st.x)[0];
    assert es[1] == XValues(st.x)[1];
    assert es[2] == XValues(st.x)[2];
    assert es[3] == XValues(st.x)[3];
    assert es[4] == XValues(st.x)[4];
  }

  /** The row of an `XBeamModel`'s fields: its date, its path and its three
      measurements as floats. */
  function XRow(x: XState): Row
  {
    map[MeasurementDate := ConvertValue(DateValue(x.date)), FilePath := JStr(x.path),
        Measurement(RelativeUniformity) := JFloat(x.relativeUniformity),
        Measurement(RelativeOutput) := JFloat(x.relativeOutput),
        Measurement(CenterShift) := JFloat(x.centerShift)]
  }

  /** The photon row's literal on those values. */
  lemma XLiteral(x: XState)
    ensures Literal(XValues(x), 0).Ok?
    ensures Literal(XValues(x), 0).value == XRow(x)
  {
    var es := XValues(x);
    var m4 := map[Measurement(CenterShift) := JFloat(x.centerShift)];
    var m3 := map[Measurement(RelativeOutput) := JFloat(x.relativeOutput)] + m4;
    var m2 := map[Measurement(RelativeUniformity) := JFloat(x.relativeUniformity)] + m3;
    var m1 := map[FilePath := JStr(x.path)] + m2;
    assert Literal(es, 5) == Ok(map[]);
    assert Literal(es, 4).value == m4;
    assert Literal(es, 3).value == m3;
    assert Literal(es, 2).value == m2;
    assert Literal(es, 1).value == m1;
    assert Literal(es, 0).value == map[MeasurementDate := ConvertValue(DateValue(x.date))] + m1;
  }

  /** An `XBeamModel` with a valid type uploads `beam_type`, its date, its path, its
      three measurements as floats and `uploaded_at`, to `beam_<type>`. */
  lemma XUploadOnXBeam(st: BeamState, now: string)
    requires st.XS? && Header(st).0 in XTypes
    ensures XUpload(st, now).Ok?
    ensures XUpload(st, now).value.table == "beam_" + st.x.beamType
    ensures XUpload(st, now).value.row ==
      map[BeamTypeColumn := JStr(st.x.beamType)] + XRow(st.x) + map[UploadedAt := JStr(now)]
  {
    XEntries(st);
    XLiteral(st.x);
  }

  // ---------------------------------------------------------------------------
  // Geometry upload
  // ---------------------------------------------------------------------------

  /** The key of leaf `i` in the uploaded leaf dictionaries: `f"leaf_{i}"`. */
  function LeafName(i: int): string
  {
    "leaf_" + IntToString(i)
  }

  /** Distinct leaves have distinct keys. */
  lemma LeafNameInjective(i: int, j: int)
    requires LeafName(i) == LeafName(j)
    ensures i == j
  {
    assert IntToString(i) == LeafName(i)[5..];
    assert IntToString(j) == LeafName(j)[5..];
    IntToStringInjective(i, j);
  }

  /** The keys of the leaves `lo` .. `hi - 1`. */
  function LeafNames(lo: int, hi: int): set<string>
  {
    set i | lo <= i < hi :: LeafName(i)
  }

  lemma {:induction false} LeafNamesCount(lo: int, hi: int)
    requires lo <= hi
    ensures |LeafNames(lo, hi)| == hi - lo
    decreases hi - lo
  {
    if lo < hi {
      LeafNamesCount(lo + 1, hi);
      assert LeafNames(lo, hi) == LeafNames(lo + 1, hi) + {LeafName(lo)};
      if LeafName(lo) in LeafNames(lo + 1, hi) {
        var j :| lo + 1 <= j < hi && LeafName(j) == LeafName(lo);
        LeafNameInjective(j, lo);
      }
    } else {
      assert LeafNames(lo, hi) == {};
    }
  }

  /** Each uploaded dictionary has 40 distinct keys, and the key of a leaf outside
      11 .. 50 is never among them. */
  lemma UploadLeafKeysExact(i: int)
    ensures |LeafNames(11, 51)| == 40
    ensures LeafName(i) in LeafNames(11, 51) <==> 11 <= i <= 50
  {
    LeafNamesCount(11, 51);
    if LeafName(i) in LeafNames(11, 51) {
      var j :| 11 <= j < 51 && LeafName(j) == LeafName(i);
      LeafNameInjective(i, j);
    }
  }

  /** The leaf getters of a record: `read(m, i)` is `get_MLCLeafA(i)` and its
      siblings, by dictionary. */
  type Reader = (LeafMap, int) -> Result<Value>

  function LeafReader(st: BeamState): Reader
  {
    (m: LeafMap, i: int) => Query(st, GetLeaf(m, i))
  }

  /** The two `for i in range(11, 51)` loops, up to leaf `n - 1`: at each leaf the
      getter of the first dictionary, then that of the second. */
  function LeafDicts(read: Reader, m1: LeafMap, m2: LeafMap, n: int): (r: Result<(map<int, Json>, map<int, Json>)>)
    requires 11 <= n <= 51
    decreases n
  {
    if n == 11 then Ok((map[], map[]))
    else
      match LeafDicts(read, m1, m2, n - 1)
      case Err(e) => Err(e)
      case Ok(p) =>
        match LeafPair(read, m1, m2, n - 1)
        case Err(e) => Err(e)
        case Ok(q) => Ok((p.0[n - 1 := q.0], p.1[n - 1 := q.1]))
  }

  /** One turn of the loops: leaf `i` of the first dictionary, then of the second,
      each converted. */
  function LeafPair(read: Reader, m1: LeafMap, m2: LeafMap, i: int): (r: Result<(Json, Json)>)
    ensures r.Ok? <==> read(m1, i).Ok? && read(m2, i).Ok?
    ensures r.Ok? ==> r.value == (ConvertValue(read(m1, i).value), ConvertValue(read(m2, i).value))
    ensures r.Err? ==> r.error == if read(m1, i).Err? then read(m1, i).error else read(m2, i).error
  {
    match read(m1, i)
    case Err(e) => Err(e)
    case Ok(a) =>
      match read(m2, i)
      case Err(e) => Err(e)
      case Ok(b) => Ok((ConvertValue(a), ConvertValue(b)))
  }

  /** Once a getter has raised, the loop's outcome is that exception. */
  lemma {:induction false} LeafDictsErrorStays(read: Reader, m1: LeafMap, m2: LeafMap, n: int, n': int)
    requires 11 <= n <= n' <= 51
    requires LeafDicts(read, m1, m2, n).Err?
    ensures LeafDicts(read, m1, m2, n') == LeafDicts(read, m1, m2, n)
    decreases n' - n
  {
    if n < n' {
      LeafDictsErrorStays(read, m1, m2, n, n' - 1);
    }
  }

  /** The dictionaries hold exactly the leaves 11 .. `n - 1`. */
  lemma {:induction false} LeafDictsKeys(read: Reader, m1: LeafMap, m2: LeafMap, n: int)
    requires 11 <= n <= 51
    requires LeafDicts(read, m1, m2, n).Ok?
    ensures forall i :: i in LeafDicts(read, m1, m2, n).value.0 <==> 11 <= i < n
    ensures forall i :: i in LeafDicts(read, m1, m2, n).value.1 <==> 11 <= i < n
    decreases n
  {
    if n > 11 {
      LeafDictsKeys(read, m1, m2, n - 1);
    }
  }

  /** Each leaf holds the converted value its getter returns. */
  lemma {:induction false} LeafDictsValues(read: Reader, m1: LeafMap, m2: LeafMap, n: int, i: int)
    requires 11 <= i < n <= 51
    requires LeafDicts(read, m1, m2, n).Ok?
    ensures read(m1, i).Ok? && read(m2, i).Ok?
    ensures i in LeafDicts(read, m1, m2, n).value.0 && i in LeafDicts(read, m1, m2, n).value.1
    ensures LeafDicts(read, m1, m2, n).value.0[i] == ConvertValue(read(m1, i).value)
    ensures LeafDicts(read, m1, m2, n).value.1[i] == ConvertValue(read(m2, i).value)
    decreases n
  {
    if i < n - 1 {
      LeafDictsValues(read, m1, m2, n - 1, i);
    }
  }

  /** One turn of the loop: the outcome once leaf `i` has been read into both
      dictionaries, or the exception of the getter that raised. */
  lemma LeafDictsStep(read: Reader, m1: LeafMap, m2: LeafMap, i: int, la: map<int, Json>, lb: map<int, Json>)
    requires 11 <= i < 51
    requires LeafDicts(read, m1, m2, i) == Ok((la, lb))
    ensures LeafPair(read, m1, m2, i).Err? ==> LeafDicts(read, m1, m2, 51) == Err(LeafPair(read, m1, m2, i).error)
    ensures LeafPair(read, m1, m2, i).Ok? ==>
      LeafDicts(read, m1, m2, i + 1) == Ok((la[i := LeafPair(read, m1, m2, i).value.0], lb[i := LeafPair(read, m1, m2, i).value.1]))
  {
    var q := LeafPair(read, m1, m2, i);
    if q.Err? {
      assert LeafDicts(read, m1, m2, i + 1) == Err(q.error);
      LeafDictsErrorStays(read, m1, m2, i + 1, 51);
    } else {
      assert LeafDicts(read, m1, m2, i + 1) == Ok((la[i := q.value.0], lb[i := q.value.1]));
    }
  }

  /** Getters that all return fill both dictionaries. */
  lemma {:induction false} LeafDictsOk(read: Reader, m1: LeafMap, m2: LeafMap, n: int)
    requires 11 <= n <= 51
    requires forall i :: 11 <= i < n ==> read(m1, i).Ok? && read(m2, i).Ok?
    ensures LeafDicts(read, m1, m2, n).Ok?
    decreases n
  {
    if n > 11 {
      LeafDictsOk(read, m1, m2, n - 1);
    }
  }

  /** On a well-formed geometry record no leaf getter of 11 .. 50 raises. */
  lemma LeafReaderOnGood(st: BeamState, m: LeafMap, i: int)
    requires st.GS? && Good(st) && 11 <= i <= 50
    ensures LeafReader(st)(m, i).Ok?
  {
    LeafKeyInitial(i);
  }

  /** So on such a record both loops run to the end. */
  lemma LeafDictsOnGood(st: BeamState, m1: LeafMap, m2: LeafMap)
    requires st.GS? && Good(st)
    ensures LeafDicts(LeafReader(st), m1, m2, 51).Ok?
  {
    forall i | 11 <= i < 51
      ensures LeafReader(st)(m1, i).Ok? && LeafReader(st)(m2, i).Ok?
    {
      LeafReaderOnGood(st, m1, i);
      LeafReaderOnGood(st, m2, i);
    }
    LeafDictsOk(LeafReader(st), m1, m2, 51);
  }

  /** The scalar groups of the geometry row evaluated before the leaf loop:
      iso-centre, beam, collimation, gantry and couch. */
  const HeadScalars: seq<Scalar> := [
    IsoCenterSize, IsoCenterMVOffset, IsoCenterKVOffset,
    RelativeOutput, RelativeUniformity, CenterShift,
    CollimationRotationOffset,
    GantryAbsolute, GantryRelative,
    CouchMaxPositionError, CouchLat, CouchLng, CouchVrt, CouchRtnFine, CouchRtnLarge,
    RotationInducedCouchShiftFullRange]

  /** The MLC offsets, between the two loops. */
  const OffsetScalars: seq<Scalar> := [MaxOffsetA, MaxOffsetB, MeanOffsetA, MeanOffsetB]

  /** Backlash summary, jaws and jaw parallelism, after the backlash loop. */
  const TailScalars: seq<Scalar> := [
    MLCBacklashMaxA, MLCBacklashMaxB, MLCBacklashMeanA, MLCBacklashMeanB,
    JawX1, JawX2, JawY1, JawY2,
    JawParallelismX1, JawParallelismX2, JawParallelismY1, JawParallelismY2]

  /** The entries of the final literal that call getters: the source calls
      `get_date` and `get_path` only there, after everything else. */
  const GeoMeta: seq<(Column, Get)> := [(MeasurementDate, GetDate), (FilePath, GetPath)]

  /** The two columns a leaf loop fills: both dictionaries, as `json.dumps`. */
  function LeafPart(read: Reader, m1: LeafMap, m2: LeafMap, c1: Column, c2: Column): (r: Result<Row>)
    ensures r.Ok? ==> r.value.Keys == {c1, c2}
  {
    match LeafDicts(read, m1, m2, 51)
    case Err(e) => Err(e)
    case Ok(d) => Ok(map[c1 := JLeaves(d.0), c2 := JLeaves(d.1)])
  }

  /** The row `GeoBeamUploader` builds, part by part in the source's order, the
      leaf loops reading through `read`; the first getter that raises ends it.
      (The source calls `get_date` and `get_path` only in the final literal, after
      every other getter.) */
  function GeoRow(st: BeamState, read: Reader): (r: Result<Row>)
  {
    match Fields(st, ScalarEntries(HeadScalars))
    case Err(e) => Err(e)
    case Ok(head) =>
      match LeafPart(read, MLCLeavesA, MLCLeavesB, LeavesA, LeavesB)
      case Err(e) => Err(e)
      case Ok(leaves) =>
        match Fields(st, ScalarEntries(OffsetScalars))
        case Err(e) => Err(e)
        case Ok(offsets) =>
          match LeafPart(read, MLCBacklashA, MLCBacklashB, BacklashA, BacklashB)
          case Err(e) => Err(e)
          case Ok(backlash) =>
            match Fields(st, ScalarEntries(TailScalars))
            case Err(e) => Err(e)
            case Ok(tail) =>
              match Fields(st, GeoMeta)
              case Err(e) => Err(e)
              case Ok(meta) => Ok(head + leaves + offsets + backlash + tail + meta)
  }

  /** `GeoBeamUploader` up to the insert: the table is always `beam_6x` and the type
      is not checked. */
  function GeoUpload(st: BeamState, now: string): Result<Upload>
  {
    match GeoRow(st, LeafReader(st))
    case Err(e) => Err(e)
    case Ok(m) => Ok(Upload("beam_6x", map[BeamTypeColumn := JStr(Header(st).0)] + m + map[UploadedAt := JStr(now)]))
  }

  /** On a geometry record that has all its scalars, and whose leaf getters of
      11 .. 50 all return, the row is built. */
  lemma GeoRowOk(st: BeamState, read: Reader)
    requires st.GS? && forall f: Scalar :: f in st.g.scalars
    requires forall m, i :: 11 <= i < 51 ==> read(m, i).Ok?
    ensures GeoRow(st, read).Ok?
  {
    ScalarEntriesOnGeo(st, HeadScalars);
    ScalarEntriesOnGeo(st, OffsetScalars);
    ScalarEntriesOnGeo(st, TailScalars);
    MetaOnGeo(st);
    LeafDictsOk(read, MLCLeavesA, MLCLeavesB, 51);
    LeafDictsOk(read, MLCBacklashA, MLCBacklashB, 51);
  }

  /** A built row holds, in each leaf column, what its leaf loop produced: no later
      part fills that column. */
  lemma GeoRowLeafColumns(st: BeamState, read: Reader)
    requires GeoRow(st, read).Ok?
    ensures LeafPart(read, MLCLeavesA, MLCLeavesB, LeavesA, LeavesB).Ok?
    ensures LeafPart(read, MLCBacklashA, MLCBacklashB, BacklashA, BacklashB).Ok?
    ensures {LeavesA, LeavesB, BacklashA, BacklashB} <= GeoRow(st, read).value.Keys
    ensures GeoRow(st, read).value[LeavesA] == LeafPart(read, MLCLeavesA, MLCLeavesB, LeavesA, LeavesB).value[LeavesA]
    ensures GeoRow(st, read).value[LeavesB] == LeafPart(read, MLCLeavesA, MLCLeavesB, LeavesA, LeavesB).value[LeavesB]
    ensures GeoRow(st, read).value[BacklashA] == LeafPart(read, MLCBacklashA, MLCBacklashB, BacklashA, BacklashB).value[BacklashA]
    ensures GeoRow(st, read).value[BacklashB] == LeafPart(read, MLCBacklashA, MLCBacklashB, BacklashA, BacklashB).value[BacklashB]
  {
    var head := Fields(st, ScalarEntries(HeadScalars));
    var leaves := LeafPart(read, MLCLeavesA, MLCLeavesB, LeavesA, LeavesB);
    var offsets := Fields(st, ScalarEntries(OffsetScalars));
    var backlash := LeafPart(read, MLCBacklashA, MLCBacklashB, BacklashA, BacklashB);
    var tail := Fields(st, ScalarEntries(TailScalars));
    var meta := Fields(st, GeoMeta);
    assert head.Ok? && leaves.Ok? && offsets.Ok? && backlash.Ok? && tail.Ok? && meta.Ok?;
    assert GeoRow(st, read).value == head.value + leaves.value + offsets.value + backlash.value + tail.value + meta.value;
    ScalarEntriesColumns(st, OffsetScalars);
    ScalarEntriesColumns(st, TailScalars);
    MetaColumns(st);
    MergeLeafColumns(head.value, leaves.value, offsets.value, backlash.value, tail.value, meta.value);
  }

  /** Joining the six parts keeps the leaf columns of the two loops. */
  lemma MergeLeafColumns(head: Row, leaves: Row, offsets: Row, backlash: Row, tail: Row, meta: Row)
    requires leaves.Keys == {LeavesA, LeavesB} && backlash.Keys == {BacklashA, BacklashB}
    requires forall c :: c in offsets ==> c.Measurement?
    requires forall c :: c in tail ==> c.Measurement?
    requires meta.Keys == {MeasurementDate, FilePath}
    ensures {LeavesA, LeavesB, BacklashA, BacklashB} <= (head + leaves + offsets + backlash + tail + meta).Keys
    ensures (head + leaves + offsets + backlash + tail + meta)[LeavesA] == leaves[LeavesA]
    ensures (head + leaves + offsets + backlash + tail + meta)[LeavesB] == leaves[LeavesB]
    ensures (head + leaves + offsets + backlash + tail + meta)[BacklashA] == backlash[BacklashA]
    ensures (head + leaves + offsets + backlash + tail + meta)[BacklashB] == backlash[BacklashB]
  {
  }

  /** A well-formed geometry record has every scalar, and every leaf getter of
      11 .. 50 returns. */
  lemma GoodGeo(st: BeamState)
    requires st.GS? && Good(st)
    ensures forall f: Scalar :: f in st.g.scalars
    ensures forall m, i :: 11 <= i < 51 ==> LeafReader(st)(m, i).Ok?
  {
    forall m, i | 11 <= i < 51 ensures LeafReader(st)(m, i).Ok? {
      LeafReaderOnGood(st, m, i);
    }
  }

  /** `get_date` and `get_path` raise nothing on a geometry record. */
  lemma MetaOnGeo(st: BeamState)
    requires st.GS?
    ensures Fields(st, GeoMeta).Ok?
    ensures Fields(st, GeoMeta).value.Keys == {MeasurementDate, FilePath}
  {
    var es := Evaluate(st, GeoMeta);
    assert es[0].1 == Query(st, GetDate) && es[1].1 == Query(st, GetPath);
    LiteralOk(es, 0);
    EvaluateNames(st, GeoMeta, 0);
    assert Names(GeoMeta, 0) == {MeasurementDate, FilePath};
  }

  /** The final literal fills the date and path columns only. */
  lemma MetaColumns(st: BeamState)
    requires Fields(st, GeoMeta).Ok?
    ensures Fields(st, GeoMeta).value.Keys == {MeasurementDate, FilePath}
  {
    EvaluateNames(st, GeoMeta, 0);
    assert Names(GeoMeta, 0) == {MeasurementDate, FilePath};
  }

  /** A well-formed geometry record always uploads, whatever its type, to
      `beam_6x`; each of its four leaf columns is `json.dumps` of the dictionary
      its loop read. */
  lemma GeoUploadOnGeo(st: BeamState, now: string)
    requires st.GS? && Good(st)
    ensures GeoUpload(st, now).Ok?
    ensures GeoUpload(st, now).value.table == "beam_6x"
    ensures LeafDicts(LeafReader(st), MLCLeavesA, MLCLeavesB, 51).Ok?
    ensures LeafDicts(LeafReader(st), MLCBacklashA, MLCBacklashB, 51).Ok?
    ensures {LeavesA, LeavesB, BacklashA, BacklashB} <= GeoUpload(st, now).value.row.Keys
    ensures GeoUpload(st, now).value.row[LeavesA] == JLeaves(LeafDicts(LeafReader(st), MLCLeavesA, MLCLeavesB, 51).value.0)
    ensures GeoUpload(st, now).value.row[LeavesB] == JLeaves(LeafDicts(LeafReader(st), MLCLeavesA, MLCLeavesB, 51).value.1)
    ensures GeoUpload(st, now).value.row[BacklashA] == JLeaves(LeafDicts(LeafReader(st), MLCBacklashA, MLCBacklashB, 51).value.0)
    ensures GeoUpload(st, now).value.row[BacklashB] == JLeaves(LeafDicts(LeafReader(st), MLCBacklashA, MLCBacklashB, 51).value.1)
  {
    GoodGeo(st);
    GeoUploadOnReady(st, now);
  }

  /** The same, for a geometry record with all its scalars whose leaf getters of
      11 .. 50 all return. */
  lemma GeoUploadOnReady(st: BeamState, now: string)
    requires st.GS? && forall f: Scalar :: f in st.g.scalars
    requires forall m, i :: 11 <= i < 51 ==> LeafReader(st)(m, i).Ok?
    ensures GeoUpload(st, now).Ok?
    ensures GeoUpload(st, now).value.table == "beam_6x"
    ensures LeafDicts(LeafReader(st), MLCLeavesA, MLCLeavesB, 51).Ok?
    ensures LeafDicts(LeafReader(st), MLCBacklashA, MLCBacklashB, 51).Ok?
    ensures {LeavesA, LeavesB, BacklashA, BacklashB} <= GeoUpload(st, now).value.row.Keys
    ensures GeoUpload(st, now).value.row[LeavesA] == JLeaves(LeafDicts(LeafReader(st), MLCLeavesA, MLCLeavesB, 51).value.0)
    ensures GeoUpload(st, now).value.row[LeavesB] == JLeaves(LeafDicts(LeafReader(st), MLCLeavesA, MLCLeavesB, 51).value.1)
    ensures GeoUpload(st, now).value.row[BacklashA] == JLeaves(LeafDicts(LeafReader(st), MLCBacklashA, MLCBacklashB, 51).value.0)
    ensures GeoUpload(st, now).value.row[BacklashB] == JLeaves(LeafDicts(LeafReader(st), MLCBacklashA, MLCBacklashB, 51).value.1)
  {
    var read := LeafReader(st);
    GeoRowOk(st, read);
    GeoRowLeafColumns(st, read);
    LeafPartValue(read, MLCLeavesA, MLCLeavesB, LeavesA, LeavesB);
    LeafPartValue(read, MLCBacklashA, MLCBacklashB, BacklashA, BacklashB);
    GeoUploadRow(st, now);
    FrameLeafColumns(Header(st).0, GeoRow(st, read).value, now);
  }

  /** The columns a leaf loop fills hold its two dictionaries. */
  lemma LeafPartValue(read: Reader, m1: LeafMap, m2: LeafMap, c1: Column, c2: Column)
    requires LeafPart(read, m1, m2, c1, c2).Ok?
    ensures LeafDicts(read, m1, m2, 51).Ok?
    ensures c1 in LeafPart(read, m1, m2, c1, c2).value && c2 in LeafPart(read, m1, m2, c1, c2).value
    ensures c1 != c2 ==> LeafPart(read, m1, m2, c1, c2).value[c1] == JLeaves(LeafDicts(read, m1, m2, 51).value.0)
    ensures LeafPart(read, m1, m2, c1, c2).value[c2] == JLeaves(LeafDicts(read, m1, m2, 51).value.1)
  {
  }

  /** A built row is uploaded to `beam_6x` between `beam_type` and `uploaded_at`. */
  lemma GeoUploadRow(st: BeamState, now: string)
    requires GeoRow(st, LeafReader(st)).Ok?
    ensures GeoUpload(st, now).Ok?
    ensures GeoUpload(st, now).value.table == "beam_6x"
    ensures GeoUpload(st, now).value.row ==
      map[BeamTypeColumn := JStr(Header(st).0)] + GeoRow(st, LeafReader(st)).value + map[UploadedAt := JStr(now)]
  {
  }

  /** The type and the upload stamp around a row leave its leaf columns alone. */
  lemma FrameLeafColumns(t: string, m: Row, now: string)
    requires {LeavesA, LeavesB, BacklashA, BacklashB} <= m.Keys
    ensures {LeavesA, LeavesB, BacklashA, BacklashB} <= (map[BeamTypeColumn := JStr(t)] + m + map[UploadedAt := JStr(now)]).Keys
    ensures (map[BeamTypeColumn := JStr(t)] + m + map[UploadedAt := JStr(now)])[LeavesA] == m[LeavesA]
    ensures (map[BeamTypeColumn := JStr(t)] + m + map[UploadedAt := JStr(now)])[LeavesB] == m[LeavesB]
    ensures (map[BeamTypeColumn := JStr(t)] + m + map[UploadedAt := JStr(now)])[BacklashA] == m[BacklashA]
    ensures (map[BeamTypeColumn := JStr(t)] + m + map[UploadedAt := JStr(now)])[BacklashB] == m[BacklashB]
  {
  }

  /** The uploaded leaf dictionaries of a well-formed geometry record hold exactly
      the leaves 11 .. 50. */
  lemma GeoLeavesOnGeo(st: BeamState, m1: LeafMap, m2: LeafMap)
    requires st.GS? && Good(st)
    ensures LeafDicts(LeafReader(st), m1, m2, 51).Ok?
    ensures forall i :: i in LeafDicts(LeafReader(st), m1, m2, 51).value.0 <==> 11 <= i <= 50
    ensures forall i :: i in LeafDicts(LeafReader(st), m1, m2, 51).value.1 <==> 11 <= i <= 50
  {
    LeafDictsOnGood(st, m1, m2);
    LeafDictsKeys(LeafReader(st), m1, m2, 51);
  }

  /** Any other record raises AttributeError at the first getter,
      `get_IsoCenterSize`. */
  lemma GeoUploadOnOther(st: BeamState, now: string)
    requires !st.GS?
    ensures GeoUpload(st, now) == Err(AttributeError)
  {
    var es := Evaluate(st, ScalarEntries(HeadScalars));
    assert es[0].1 == Query(st, GetScalar(IsoCenterSize));
    LiteralFirstError(es, 0, 0);
  }

  /** The inserts an outcome leads to. */
  function Inserts(r: Result<Upload>): seq<Upload>
  {
    if r.Ok? then [r.value] else []
  }

  function Raised(r: Result<Upload>): Option<PyError>
  {
    if r.Err? then Some(r.error) else None
  }

  /** One turn of a leaf loop on the record. */
  method ReadLeafPair(b: Beam, m1: LeafMap, m2: LeafMap, i: int) returns (r: Result<(Json, Json)>)
    ensures r == LeafPair(LeafReader(Snapshot(b)), m1, m2, i)
  {
    ghost var read := LeafReader(Snapshot(b));
    var x := Ask(b, GetLeaf(m1, i));
    assert x == read(m1, i);
    if x.Err? {
      return Err(x.error);
    }
    var y := Ask(b, GetLeaf(m2, i));
    assert y == read(m2, i);
    if y.Err? {
      return Err(y.error);
    }
    r := Ok((ConvertValue(x.value), ConvertValue(y.value)));
  }

  /** One turn of the leaf loop: the dictionaries for leaves 11 .. `i`, or the
      exception that ends the loop. */
  method ExtendLeaves(b: Beam, m1: LeafMap, m2: LeafMap, i: int, la: map<int, Json>, lb: map<int, Json>)
    returns (r: Result<(map<int, Json>, map<int, Json>)>)
    requires 11 <= i < 51
    requires LeafDicts(LeafReader(Snapshot(b)), m1, m2, i) == Ok((la, lb))
    ensures r.Err? ==> r == LeafDicts(LeafReader(Snapshot(b)), m1, m2, 51)
    ensures r.Ok? ==> r == LeafDicts(LeafReader(Snapshot(b)), m1, m2, i + 1)
  {
    ghost var read := LeafReader(Snapshot(b));
    LeafDictsStep(read, m1, m2, i, la, lb);
    var q := ReadLeafPair(b, m1, m2, i);
    if q.Err? {
      return Err(q.error);
    }
    r := Ok((la[i := q.value.0], lb[i := q.value.1]));
  }

  /** The leaf loop of `GeoBeamUploader` for one pair of dictionaries. */
  method CollectLeaves(b: Beam, m1: LeafMap, m2: LeafMap) returns (r: Result<(map<int, Json>, map<int, Json>)>)
    ensures r == LeafDicts(LeafReader(Snapshot(b)), m1, m2, 51)
  {
    var la: map<int, Json>, lb: map<int, Json> := map[], map[];
    var i := 11;
    while i < 51
      invariant 11 <= i <= 51
      invariant LeafDicts(LeafReader(Snapshot(b)), m1, m2, i) == Ok((la, lb))
    {
      var q := ExtendLeaves(b, m1, m2, i, la, lb);
      if q.Err? {
        return q;
      }
      la, lb := q.value.0, q.value.1;
      i := i + 1;
    }
    r := Ok((la, lb));
  }

  /** A leaf loop and the two columns it fills. */
  method LeafColumns(b: Beam, m1: LeafMap, m2: LeafMap, c1: Column, c2: Column) returns (r: Result<Row>)
    ensures r == LeafPart(LeafReader(Snapshot(b)), m1, m2, c1, c2)
  {
    var d := CollectLeaves(b, m1, m2);
    if d.Err? {
      return Err(d.error);
    }
    r := Ok(map[c1 := JLeaves(d.value.0), c2 := JLeaves(d.value.1)]);
  }

  /** The body of `GeoBeamUploader`'s `try` up to the insert: the parts in the
      source's order, each ending the upload when a getter raises. */
  method BuildGeoRow(b: Beam) returns (r: Result<Row>)
    ensures r == GeoRow(Snapshot(b), LeafReader(Snapshot(b)))
  {
    var scalars := Fields(Snapshot(b), ScalarEntries(HeadScalars));
    if scalars.Err? {
      return Err(scalars.error);
    }
    var leaves := LeafColumns(b, MLCLeavesA, MLCLeavesB, LeavesA, LeavesB);
    if leaves.Err? {
      return Err(leaves.error);
    }
    var offsets := Fields(Snapshot(b), ScalarEntries(OffsetScalars));
    if offsets.Err? {
      return Err(offsets.error);
    }
    var backlash := LeafColumns(b, MLCBacklashA, MLCBacklashB, BacklashA, BacklashB);
    if backlash.Err? {
      return Err(backlash.error);
    }
    var summary := Fields(Snapshot(b), ScalarEntries(TailScalars));
    if summary.Err? {
      return Err(summary.error);
    }
    var meta := Fields(Snapshot(b), GeoMeta);
    if meta.Err? {
      return Err(meta.error);
    }
    r := Ok(scalars.value + leaves.value + offsets.value + backlash.value + summary.value + meta.value);
  }

  // ---------------------------------------------------------------------------
  // The uploader object
  // ---------------------------------------------------------------------------

  class Uploader {
    /** What the database client was asked to insert, in order. */
    var inserted: seq<Upload>

    /** `__init__`, with the client's connection left out. */
    constructor()
      ensures inserted == []
    {
      inserted := [];
    }

    /** `EBeamUploader`. */
    method EBeamUploader(b: Beam, now: string) returns (error: Option<PyError>)
      modifies this
      ensures error == Raised(EUpload(old(Snapshot(b)), now))
      ensures inserted == old(inserted) + Inserts(EUpload(old(Snapshot(b)), now))
    {
      var r := EUpload(Snapshot(b), now);
      if r.Err? {
        return Some(r.error);
      }
      inserted := inserted + [r.value];
      error := None;
    }

    /** `XBeamUploader`. */
    method XBeamUploader(b: Beam, now: string) returns (error: Option<PyError>)
      modifies this
      ensures error == Raised(XUpload(old(Snapshot(b)), now))
      ensures inserted == old(inserted) + Inserts(XUpload(old(Snapshot(b)), now))
    {
      var r := XUpload(Snapshot(b), now);
      if r.Err? {
        return Some(r.error);
      }
      inserted := inserted + [r.value];
      error := None;
    }

    /** `GeoBeamUploader`: the parts of the row in the order the source computes
        them, with the two leaf loops among them; the first exception ends the
        upload. */
    method GeoBeamUploader(b: Beam, now: string) returns (error: Option<PyError>)
      modifies this
      ensures error == Raised(GeoUpload(old(Snapshot(b)), now))
      ensures inserted == old(inserted) + Inserts(GeoUpload(old(Snapshot(b)), now))
    {
      var t := Header(Snapshot(b)).0;
      var row := BuildGeoRow(b);
      if row.Err? {
        return Some(row.error);
      }
      inserted := inserted + [Upload("beam_6x", map[BeamTypeColumn := JStr(t)] + row.value + map[UploadedAt := JStr(now)])];
      error := None;
    }
  }
}
