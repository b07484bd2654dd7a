/**
 * The beam-type dispatcher of ETL/DataProcessor.py. It is built with a folder and
 * stores the folder's `Results.csv` path (joined with a backslash). `Run` tests the
 * whole stored path for the tokens 6e, 9e, 12e, 16e, 10x, 15x and 6x in that order;
 * the first one found picks a record class, which is created, given the path, a
 * type and a date, and handed to the CSV extractor of ETL/Extractor.py. Nothing in
 * `Run` catches an exception, so one raised by a record method reaches the caller.
 *
 * The records `Run` builds are local to it in Python; the model returns the one it
 * built, with the exception that ended `Run`, if any.
 */
module Processing {
  import opened Wrappers
  import opened Text
  import opened PathMetadata
  import EBeam
  import XBeam
  import Geo6xfff
  import opened Beams
  import opened CsvExtraction

  /** What the constructor appends to the folder: a backslash and `Results.csv`. */
  const ResultsSuffix: string := "\\Results.csv"

  /** The tokens of the `if/elif` chain, in the order it tests them. */
  const BeamTokens: seq<string> := ["6e", "9e", "12e", "16e", "10x", "15x", "6x"]

  /** The position of the first token, at or after `from`, that occurs in the path. */
  function FirstToken(path: string, from: nat): (r: Option<nat>)
    ensures r.Some? ==> from <= r.value < |BeamTokens| && Contains(path, BeamTokens[r.value])
    ensures r.Some? ==> forall j :: from <= j < r.value ==> !Contains(path, BeamTokens[j])
    ensures r.None? <==> forall j :: from <= j < |BeamTokens| ==> !Contains(path, BeamTokens[j])
    decreases |BeamTokens| - from
  {
    if from >= |BeamTokens| then None
    else if Contains(path, BeamTokens[from]) then Some(from)
    else FirstToken(path, from + 1)
  }

  /** The branch of the chain a path takes. */
  datatype Kind = Electron(t: string) | Photon(t: string) | Geometry | Unknown

  function KindOf(path: string): Kind
  {
    match FirstToken(path, 0)
    case None => Unknown
    case Some(k) =>
      if k < 4 then Electron(BeamTokens[k])
      else if k < 6 then Photon(BeamTokens[k])
      else Geometry
  }

  /** The first token found wins: a path takes the branch of token `k` exactly when
      it holds that token and none tested before it. */
  lemma FirstTokenWins(path: string, k: nat)
    requires k < |BeamTokens|
    ensures FirstToken(path, 0) == Some(k) <==>
      Contains(path, BeamTokens[k]) && forall j :: 0 <= j < k ==> !Contains(path, BeamTokens[j])
  {
  }

  /** Every path holding `16e` holds `6e`, which is tested first: the 16e branch is
      never taken. */
  lemma SixteenEUnreachable(path: string)
    ensures FirstToken(path, 0) != Some(3)
    ensures KindOf(path) != Electron("16e")
  {
    if Contains(path, "16e") {
      assert MatchAt("16e", "6e", 1);
      ContainsIff("16e", "6e");
      ContainsTransitive(path, "16e", "6e");
    }
  }

  /** A path with none of the tokens takes no branch. */
  lemma NoTokenUnknown(path: string)
    requires forall j :: 0 <= j < |BeamTokens| ==> !Contains(path, BeamTokens[j])
    ensures KindOf(path) == Unknown
  {
  }

  /** What `Run` leaves: the record it built, if any, and the exception that stopped
      it, if any. */
  datatype RunResult = RunResult(built: Option<BeamState>, error: Option<PyError>)

  /** The effect of `Run` on the stored path, with `files` the rows the CSV reader
      yields for each readable path. */
  function Processed(path: string, files: Files): RunResult
  {
    Dispatch(KindOf(path), path, files)
  }

  /** The branch of kind `kind` run on the path. */
  function Dispatch(kind: Kind, path: string, files: Files): RunResult
  {
    match kind
    case Electron(t) => ElectronRun()
    case Photon(t) => PhotonRun(path, t, files)
    case Geometry => GeometryRun(path, files)
    case Unknown => RunResult(None, None)
  }

  /** An electron branch: `set_path` is its first call, and `EBeamModel` has no such
      method. */
  function ElectronRun(): RunResult
  {
    RunResult(Some(ES(EBeam.Fresh)), Some(AttributeError))
  }

  /** A photon branch: path, type, the stub date, then `xModelExtraction`. */
  function PhotonRun(path: string, t: string, files: Files): RunResult
  {
    var st := XS(XBeam.Fresh.(path := path, beamType := t, date := XBeam.DateFromPathName(path)));
    RunResult(Some(BeamExtraction(st, files, true)), None)
  }

  /** The geometry branch: path, the type "15x", the date parsed from the path, then
      `testGeoModelExtraction`. */
  function GeometryRun(path: string, files: Files): RunResult
  {
    var g := Geo6xfff.Fresh.(path := path, beamType := "15x");
    match DateFromPath(path)
    case Err(e) => RunResult(Some(GS(g)), Some(e))
    case Ok(d) => RunResult(Some(GeoExtraction(GS(g.(date := Some(d))), files)), None)
  }

  method RunElectron(path: string) returns (built: Option<BeamState>, error: Option<PyError>)
    ensures RunResult(built, error) == ElectronRun()
  {
    var e := new EBeam.EBeamModel();
    var ok := Invoke(EB(e), SetPath(path));
    built := Some(Snapshot(EB(e)));
    error := if ok then None else Some(AttributeError);
  }

  method RunPhoton(path: string, t: string, files: Files) returns (built: Option<BeamState>, error: Option<PyError>)
    ensures RunResult(built, error) == PhotonRun(path, t, files)
  {
    var x := new XBeam.XBeamModel();
    x.SetPath(path);
    x.SetType(t);
    x.SetDate(XBeam.DateFromPathName(path));
    CsvExtraction.XModelExtraction(XB(x), files);
    built := Some(Snapshot(XB(x)));
    error := None;
  }

  method RunGeometry(path: string, files: Files) returns (built: Option<BeamState>, error: Option<PyError>)
    ensures RunResult(built, error) == GeometryRun(path, files)
  {
    var g := new Geo6xfff.Geo6xfffModel();
    g.SetPath(path);
    g.SetType("15x");
    var d := DateFromPath(path);
    if d.Err? {
      built := Some(Snapshot(GB(g)));
      error := Some(d.error);
      return;
    }
    g.SetDate(Some(d.value));
    CsvExtraction.TestGeoModelExtraction(GB(g), files);
    built := Some(Snapshot(GB(g)));
    error := None;
  }

  class DataProcessor {
    var path: string

    /** `__init__`: the folder with `\Results.csv` appended. */
    constructor(folder: string)
      ensures path == folder + ResultsSuffix
    {
      path := folder + ResultsSuffix;
    }

    /** `Run`: classify the path, then build and fill the record of that branch. */
    method Run(files: Files) returns (built: Option<BeamState>, error: Option<PyError>)
      ensures RunResult(built, error) == Processed(path, files)
    {
      built, error := RunBranch(KindOf(path), path, files);
    }
  }

  /** The branch of the chain `Run` takes. */
  method RunBranch(kind: Kind, path: string, files: Files) returns (built: Option<BeamState>, error: Option<PyError>)
    ensures RunResult(built, error) == Dispatch(kind, path, files)
  {
    match kind {
      case Electron(t) =>
        built, error := RunElectron(path);
      case Photon(t) =>
        built, error := RunPhoton(path, t, files);
      case Geometry =>
        built, error := RunGeometry(path, files);
      case Unknown =>
        built, error := None, None;
    }
  }

  /** Electron paths build an `EBeamModel` and stop with AttributeError at
      `set_path`, before its type or date is set. */
  lemma ElectronRaises(path: string, files: Files)
    requires KindOf(path).Electron?
    ensures Processed(path, files) == RunResult(Some(ES(EBeam.Fresh)), Some(AttributeError))
  {
  }

  /** 10x and 15x paths build an `XBeamModel` whose type is the token found and
      whose path is the stored path; its date stays None; nothing is raised. */
  lemma PhotonTyped(path: string, files: Files)
    requires KindOf(path).Photon?
    ensures Processed(path, files).error == None
    ensures Processed(path, files).built.Some? && Processed(path, files).built.value.XS?
    ensures Header(Processed(path, files).built.value) == (KindOf(path).t, None, Some(path))
  {
    PhotonRunTyped(path, KindOf(path).t, files);
  }

  lemma PhotonRunTyped(path: string, t: string, files: Files)
    ensures PhotonRun(path, t, files).error == None
    ensures PhotonRun(path, t, files).built.Some? && PhotonRun(path, t, files).built.value.XS?
    ensures Header(PhotonRun(path, t, files).built.value) == (t, None, Some(path))
  {
    var st := XS(XBeam.Fresh.(path := path, beamType := t, date := XBeam.DateFromPathName(path)));
    BeamExtractionKeepsHeader(st, files, true);
  }

  /** A 6x path builds a `Geo6xfffModel` typed "15x", not "6x". With a timestamp in
      the path the record is dated by it and filled, and nothing is raised. */
  lemma GeometryDated(path: string, files: Files)
    requires KindOf(path) == Geometry && DateFromPath(path).Ok?
    ensures Processed(path, files).error == None
    ensures Processed(path, files).built.Some? && Processed(path, files).built.value.GS?
    ensures Header(Processed(path, files).built.value) == ("15x", Some(DateFromPath(path).value), Some(path))
  {
    GeometryDatedRun(path, files);
  }

  lemma GeometryDatedRun(path: string, files: Files)
    requires DateFromPath(path).Ok?
    ensures GeometryRun(path, files).error == None
    ensures GeometryRun(path, files).built.Some? && GeometryRun(path, files).built.value.GS?
    ensures Header(GeometryRun(path, files).built.value) == ("15x", Some(DateFromPath(path).value), Some(path))
  {
    var g := Geo6xfff.Fresh.(path := path, beamType := "15x", date := Some(DateFromPath(path).value));
    GeoExtractionKeepsHeader(GS(g), files);
  }

  /** Without a timestamp in the path the date parser's ValueError stops `Run` after
      the path and the type "15x" are set. */
  lemma GeometryUndated(path: string, files: Files)
    requires KindOf(path) == Geometry && DateFromPath(path).Err?
    ensures Processed(path, files).error == Some(ValueError)
    ensures Processed(path, files).built == Some(GS(Geo6xfff.Fresh.(path := path, beamType := "15x")))
  {
  }

  /** A path with no token builds nothing and raises nothing. */
  lemma UnknownBuildsNothing(path: string, files: Files)
    requires forall j :: 0 <= j < |BeamTokens| ==> !Contains(path, BeamTokens[j])
    ensures Processed(path, files) == RunResult(None, None)
  {
  }
}
