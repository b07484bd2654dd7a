/**
 * The CSV extractor of ETL/data_extractor.py. Its three extraction methods run the
 * same row scans as ETL/Extractor.py (module `CsvExtraction`). Its test methods
 * differ: `testeModelExtraction` and `testxModelExtraction` call the extraction and
 * then call getters outside any `try`, so a record lacking one of those getters
 * raises AttributeError out of the test method. The printing itself is not modelled;
 * only the getter calls are.
 */
module DataExtractor {
  import opened Wrappers
  import opened Geo6xfff
  import opened Beams
  import opened Getters
  import opened CsvExtraction

  /** The getters `testeModelExtraction` prints, in order. */
  const EPrinted: seq<Get> := [GetDate, GetScalar(RelativeUniformity), GetScalar(RelativeOutput)]

  /** The getters `testxModelExtraction` prints, in order. */
  const XPrinted: seq<Get> := [GetDate, GetScalar(RelativeUniformity), GetScalar(RelativeOutput), GetScalar(CenterShift)]

  /** `eModelExtraction`. */
  method EModelExtraction(b: Beam, files: Files)
    modifies Obj(b)
    ensures Snapshot(b) == BeamExtraction(old(Snapshot(b)), files, false)
  {
    CsvExtraction.EModelExtraction(b, files);
  }

  /** `xModelExtraction`. */
  method XModelExtraction(b: Beam, files: Files)
    modifies Obj(b)
    ensures Snapshot(b) == BeamExtraction(old(Snapshot(b)), files, true)
  {
    CsvExtraction.XModelExtraction(b, files);
  }

  /** `geoModelExtraction`. */
  method GeoModelExtraction(b: Beam, files: Files)
    modifies Obj(b)
    ensures Snapshot(b) == GeoExtraction(old(Snapshot(b)), files)
  {
    CsvExtraction.GeoModelExtraction(b, files);
  }

  /** The getters `testeModelExtraction` prints after the extraction, in
      order; the first exception propagates. */
  method EPrintGetters(b: Beam) returns (error: Option<PyError>)
    ensures error == Printed(Snapshot(b), EPrinted)
  {
    ghost var st := Snapshot(b);
    error := None;
    var r := Ask(b, GetDate);
    r := Ask(b, GetScalar(RelativeUniformity));
    if r.Err? {
      PrintedFirst(st, EPrinted, 1);
      error := Some(r.error);
      return;
    }
    r := Ask(b, GetScalar(RelativeOutput));
    if r.Err? {
      PrintedFirst(st, EPrinted, 2);
      error := Some(r.error);
      return;
    }
    PrintedCons(st, EPrinted);
  }

  /** `testeModelExtraction`: the extraction, then three getters whose exception
      propagates to the caller. */
  method TestEModelExtraction(b: Beam, files: Files) returns (error: Option<PyError>)
    modifies Obj(b)
    ensures Snapshot(b) == BeamExtraction(old(Snapshot(b)), files, false)
    ensures error == Printed(Snapshot(b), EPrinted)
  {
    EModelExtraction(b, files);
    error := EPrintGetters(b);
  }

  /** The getters `testxModelExtraction` prints after the extraction, in
      order; the first exception propagates. */
  method XPrintGetters(b: Beam) returns (error: Option<PyError>)
    ensures error == Printed(Snapshot(b), XPrinted)
  {
    ghost var st := Snapshot(b);
    error := None;
    var r := Ask(b, GetDate);
    r := Ask(b, GetScalar(RelativeUniformity));
    if r.Err? {
      PrintedFirst(st, XPrinted, 1);
      error := Some(r.error);
      return;
    }
    r := Ask(b, GetScalar(RelativeOutput));
    if r.Err? {
      PrintedFirst(st, XPrinted, 2);
      error := Some(r.error);
      return;
    }
    r := Ask(b, GetScalar(CenterShift));
    if r.Err? {
      PrintedFirst(st, XPrinted, 3);
      error := Some(r.error);
      return;
    }
    PrintedCons(st, XPrinted);
  }

  /** `testxModelExtraction`: the extraction, then four getters whose exception
      propagates to the caller. */
  method TestXModelExtraction(b: Beam, files: Files) returns (error: Option<PyError>)
    modifies Obj(b)
    ensures Snapshot(b) == BeamExtraction(old(Snapshot(b)), files, true)
    ensures error == Printed(Snapshot(b), XPrinted)
  {
    XModelExtraction(b, files);
    error := XPrintGetters(b);
  }

  /** `testGeoModelExtraction`: the extraction, then getters inside a `try` that
      catches everything, so nothing propagates. */
  method TestGeoModelExtraction(b: Beam, files: Files)
    modifies Obj(b)
    ensures Snapshot(b) == GeoExtraction(old(Snapshot(b)), files)
  {
    GeoModelExtraction(b, files);
  }

  /** Only an x-ray or a geometry record gets through the e-test's getters: an
      `EBeamModel` has no `get_relative_output`, the image and base records no
      `get_relative_uniformity`. */
  lemma ETestOutcome(st: BeamState)
    requires Good(st)
    ensures Printed(st, EPrinted) == if st.XS? || st.GS? then None else Some(AttributeError)
  {
    if st.XS? || st.GS? {
      forall k | 0 <= k < |EPrinted| ensures Query(st, EPrinted[k]).Ok? {
        QueryOnGood(st, EPrinted[k]);
      }
    } else {
      var k :| 0 <= k < |EPrinted| && Query(st, EPrinted[k]) == Err(Printed(st, EPrinted).value);
    }
  }

  /** The x-test's getters likewise pass exactly on x-ray and geometry records. */
  lemma XTestOutcome(st: BeamState)
    requires Good(st)
    ensures Printed(st, XPrinted) == if st.XS? || st.GS? then None else Some(AttributeError)
  {
    if st.XS? || st.GS? {
      forall k | 0 <= k < |XPrinted| ensures Query(st, XPrinted[k]).Ok? {
        QueryOnGood(st, XPrinted[k]);
      }
    } else {
      var k :| 0 <= k < |XPrinted| && Query(st, XPrinted[k]) == Err(Printed(st, XPrinted).value);
    }
  }

  /** Run on an `EBeamModel`, `testeModelExtraction` leaves the record as it was and
      raises AttributeError. */
  lemma ETestOnEBeam(st: BeamState, files: Files)
    requires st.ES?
    ensures BeamExtraction(st, files, false) == st
    ensures Printed(BeamExtraction(st, files, false), EPrinted) == Some(AttributeError)
  {
    ETestOutcome(st);
  }
}
