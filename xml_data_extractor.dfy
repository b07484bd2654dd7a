/**
 * The XML extractor of ETL/xml_data_extractor.py. It reads a check folder's
 * Results.xml (and, for a geometry check, its SetBeam-*.xml) and calls the record's
 * setters for the values it finds:
 *   - every `BeamProfileCheck` element's `RelativeOutput`, `RelativeUniformity` and
 *     (x-ray and geometry) `BeamCenterShift` children;
 *   - the first `CouchReference` element's couch children, with `CouchRtn` split
 *     into the fine and the large rotation at 360;
 *   - the first `Cp` control point with `WorkObjectID` Linac in the SetBeam file:
 *     gantry and collimator rotation, the four jaws, and up to 60 leaf positions per
 *     MLC bank.
 * Every exception is caught inside the methods, so each leaves the record with the
 * values set before the failure. The parsed files are a parameter (`XmlFiles`, by
 * path; a path outside it does not exist), and so is the folder listing `os.listdir`
 * returns.
 */
module XmlExtraction {
  import opened Wrappers
  import opened Text
  import opened PyDecimal
  import opened Geo6xfff
  import opened Beams
  import opened Getters
  import opened XmlTree

  /** A file that exists: unreadable as XML (ParseError), or its root element. */
  datatype XmlFile = Malformed | Parsed(root: Element)

  type XmlFiles = map<string, XmlFile>

  /** `os.listdir`: the entries of each existing folder, in the order it returns them. */
  type Listing = map<string, seq<string>>

  /** `os.path.join(folder, name)` (POSIX): an absolute name stands alone; otherwise
      the folder, a '/' unless the folder is empty or already ends with one, then the
      name. */
  function Join(folder: string, name: string): (r: string)
    ensures EndsWith(r, name)
    ensures StartsWith(name, "/") || folder == [] ==> r == name
    ensures !StartsWith(name, "/") && folder != [] ==>
      StartsWith(r, folder) && EndsWith(r[..|r| - |name|], "/")
      && (|r| == |folder| + |name| || |r| == |folder| + 1 + |name|)
  {
    if StartsWith(name, "/") || folder == [] then name
    else if EndsWith(folder, "/") then folder + name
    else folder + "/" + name
  }

  /** `os.path.basename(os.path.join(folder, name))` gives back a name without '/'. */
  lemma JoinBasename(folder: string, name: string)
    requires forall i :: 0 <= i < |name| ==> name[i] != '/'
    ensures Basename(Join(folder, name)) == name
  {
    var p := Join(folder, name);
    assert !StartsWith(name, "/") by {
      if name != [] {
        assert name[..1][0] == name[0] != '/';
      }
    }
    if folder == [] {
      assert p == name;
      assert LastIndexOf(p, '/').None?;
    } else {
      var q := |p| - |name| - 1;
      var head := p[..|p| - |name|];
      assert EndsWith(head, "/");
      assert head[|head| - 1] == p[q];
      assert forall j :: q < j < |p| ==> p[j] == name[j - q - 1];
      BasenameAfter(p, q);
    }
  }

  /** `_parse_xml_value` with its default: -1 for a missing element, an element
      without text or text that is not a decimal, else `Decimal(text.strip())`. */
  function ParseXmlValue(e: Option<Element>): (r: Decimal)
    ensures e.None? || e.value.text.None? ==> r == Sentinel
    ensures e.Some? && e.value.text.Some? && Parse(e.value.text.value).Some? ==> r == Parse(e.value.text.value).value
    ensures e.Some? && e.value.text.Some? && Parse(e.value.text.value).None? ==> r == Sentinel
  {
    match e
    case None => Sentinel
    case Some(el) =>
      match el.text
      case None => Sentinel
      case Some(t) =>
        StripIdempotent(t);
        ParseOrSentinel(Strip(t))
  }

  // ---------------------------------------------------------------------------
  // Results.xml: beam profile checks
  // ---------------------------------------------------------------------------

  /** The children of each element in turn. */
  function ChildrenOf(es: seq<Element>): (r: seq<Element>)
  {
    if es == [] then [] else es[0].children + ChildrenOf(es[1..])
  }

  /** The children of every `BeamProfileCheck` element, in document order. */
  function ProfileChildren(root: Element): seq<Element>
  {
    ChildrenOf(OfType(Iter(root), "BeamProfileCheck"))
  }

  /** The local names of the `BeamProfileCheck` children an extraction reads. */
  predicate ProfileField(name: string, withShift: bool)
  {
    name == "RelativeOutput" || name == "RelativeUniformity" || (withShift && name == "BeamCenterShift")
  }

  /** The setter one `BeamProfileCheck` child calls, by its local name; the center
      shift only in the x-ray and geometry extractions. */
  function ProfileOp(child: Element, withShift: bool): (r: Op)
    ensures r.Do? || r.Skip?
    ensures r.Do? ==> r.c.SetScalar? && r.c.f in XScalars && r.c.v == ParseXmlValue(Some(child))
    ensures r.Do? && r.c.f == CenterShift ==> withShift
    ensures r.Do? <==> ProfileField(LocalName(child.tag), withShift)
  {
    var name := LocalName(child.tag);
    var v := ParseXmlValue(Some(child));
    if name == "RelativeOutput" then Do(SetScalar(RelativeOutput, v))
    else if name == "RelativeUniformity" then Do(SetScalar(RelativeUniformity, v))
    else if withShift && name == "BeamCenterShift" then Do(SetScalar(CenterShift, v))
    else Skip
  }

  function ProfileOps(kids: seq<Element>, withShift: bool): (r: seq<Op>)
    ensures |r| == |kids|
  {
    seq(|kids|, i requires 0 <= i < |kids| => ProfileOp(kids[i], withShift))
  }

  function ProfilePlan(root: Element, withShift: bool): seq<Op>
  {
    ProfileOps(ProfileChildren(root), withShift)
  }

  /** The record after `eModelExtraction` (`withShift` false) or `xModelExtraction`
      (true): unchanged when the record has no `get_path` or Results.xml is missing
      or malformed. */
  function BeamXmlExtraction(st: BeamState, xml: XmlFiles, withShift: bool): BeamState
  {
    if !HasGetPath(st) then st
    else
      var p := Join(PathOf(st), "Results.xml");
      if p in xml && xml[p].Parsed? then Run(st, ProfilePlan(xml[p].root, withShift)).st else st
  }

  /** `eModelExtraction` (`withShift` false) and `xModelExtraction` (true). */
  method ScanProfiles(b: Beam, xml: XmlFiles, withShift: bool)
    modifies Obj(b)
    ensures Snapshot(b) == BeamXmlExtraction(old(Snapshot(b)), xml, withShift)
  {
    var st := Snapshot(b);
    if !HasGetPath(st) {
      return;
    }
    var resultsPath := Join(PathOf(st), "Results.xml");
    if resultsPath !in xml || xml[resultsPath].Malformed? {
      return;
    }
    var checks := FindElementsByType(xml[resultsPath].root, "BeamProfileCheck");
    var _ := Execute(b, ProfileOps(ChildrenOf(checks), withShift));
  }

  method EModelExtraction(b: Beam, xml: XmlFiles)
    modifies Obj(b)
    ensures Snapshot(b) == BeamXmlExtraction(old(Snapshot(b)), xml, false)
  {
    ScanProfiles(b, xml, false);
  }

  method XModelExtraction(b: Beam, xml: XmlFiles)
    modifies Obj(b)
    ensures Snapshot(b) == BeamXmlExtraction(old(Snapshot(b)), xml, true)
  {
    ScanProfiles(b, xml, true);
  }

  /** The profile statements never raise on an x-ray or a geometry record. */
  lemma ProfileNoError(st: BeamState, kids: seq<Element>, withShift: bool)
    requires st.XS? || st.GS?
    ensures Run(st, ProfileOps(kids, withShift)).error.None?
  {
    var plan := ProfileOps(kids, withShift);
    forall j | 0 <= j < |plan|
      ensures !plan[j].Raise?
      ensures plan[j].Do? ==> Defines(ClassName(st), plan[j].c)
    {
      assert plan[j] == ProfileOp(kids[j], withShift);
    }
    RunNoError(st, plan);
  }

  /** The last `BeamProfileCheck` child that names a field sets it, across all the
      checks: on an x-ray or geometry record the field ends with that child's value. */
  lemma ProfileLastWins(st: BeamState, root: Element, withShift: bool, i: nat, f: Scalar)
    requires st.XS? || st.GS?
    requires i < |ProfileChildren(root)| && Writes(ProfileOp(ProfileChildren(root)[i], withShift), f)
    requires forall j :: i < j < |ProfileChildren(root)| ==> !Writes(ProfileOp(ProfileChildren(root)[j], withShift), f)
    ensures ScalarOf(Run(st, ProfilePlan(root, withShift)).st, f) == Some(ParseXmlValue(Some(ProfileChildren(root)[i])))
  {
    var kids := ProfileChildren(root);
    var plan := ProfilePlan(root, withShift);
    ProfileNoError(st, kids, withShift);
    assert plan[i] == ProfileOp(kids[i], withShift);
    forall j | i < j < |plan|
      ensures !Writes(plan[j], f)
    {
      assert plan[j] == ProfileOp(kids[j], withShift);
    }
    LastWriteWins(st, plan, i, f, ParseXmlValue(Some(kids[i])));
  }

  /** The e-beam extraction never writes the center shift. */
  lemma EProfileKeepsShift(st: BeamState, root: Element)
    ensures ScalarOf(Run(st, ProfilePlan(root, false)).st, CenterShift) == ScalarOf(st, CenterShift)
  {
    var kids := ProfileChildren(root);
    var plan := ProfilePlan(root, false);
    forall j | 0 <= j < |plan|
      ensures !Writes(plan[j], CenterShift)
    {
      assert plan[j] == ProfileOp(kids[j], false);
    }
    RunNoWrite(st, plan, CenterShift);
  }

  // ---------------------------------------------------------------------------
  // Results.xml: couch reference
  // ---------------------------------------------------------------------------

  /** The couch fields a child of `CouchReference` can set. */
  const CouchFields: set<Scalar> := {CouchLat, CouchLng, CouchVrt, CouchRtnFine, CouchRtnLarge}

  /** The setter one `CouchReference` child calls, by its local name; a rotation
      below 360 in magnitude is the fine one, any other the large one. */
  function CouchOp(child: Element): (r: Op)
    ensures r.Do? || r.Skip?
    ensures r.Do? ==> r.c.SetScalar? && r.c.f in CouchFields && r.c.v == ParseXmlValue(Some(child))
    ensures r.Do? <==> LocalName(child.tag) in {"CouchLat", "CouchLng", "CouchVrt", "CouchRtn"}
    ensures Writes(r, CouchRtnFine) ==> Magnitude(r.c.v) < 360.0
    ensures Writes(r, CouchRtnLarge) ==> Magnitude(r.c.v) >= 360.0
    ensures LocalName(child.tag) == "CouchRtn" ==>
              Writes(r, if Magnitude(ParseXmlValue(Some(child))) < 360.0 then CouchRtnFine else CouchRtnLarge)
  {
    var name := LocalName(child.tag);
    var v := ParseXmlValue(Some(child));
    if name == "CouchLat" then Do(SetScalar(CouchLat, v))
    else if name == "CouchLng" then Do(SetScalar(CouchLng, v))
    else if name == "CouchVrt" then Do(SetScalar(CouchVrt, v))
    else if name == "CouchRtn" then
      if Magnitude(v) < 360.0 then Do(SetScalar(CouchRtnFine, v)) else Do(SetScalar(CouchRtnLarge, v))
    else Skip
  }

  /** The statements of a `CouchReference` element: one per child, in order. */
  function CouchOps(ref: Element): (r: seq<Op>)
    ensures |r| == |ref.children|
  {
    seq(|ref.children|, i requires 0 <= i < |ref.children| => CouchOp(ref.children[i]))
  }

  /** The statements of the first `CouchReference` element in document order, the
      root included; none when there is no such element. */
  function CouchPlan(root: Element): (r: seq<Op>)
    ensures (forall k :: 0 <= k < |Iter(root)| ==> LocalName(Iter(root)[k].tag) != "CouchReference") ==> r == []
  {
    match FirstLocal(Iter(root), "CouchReference")
    case None => []
    case Some(ref) => CouchOps(ref)
  }

  /** The `break` after the first match: when element `k` of `root.iter()` is the first
      `CouchReference`, its children, and only its, are read. */
  lemma CouchFromFirstReference(root: Element, k: nat)
    requires k < |Iter(root)| && LocalName(Iter(root)[k].tag) == "CouchReference"
    requires forall j :: 0 <= j < k ==> LocalName(Iter(root)[j].tag) != "CouchReference"
    ensures CouchPlan(root) == CouchOps(Iter(root)[k])
    ensures forall i :: 0 <= i < |CouchPlan(root)| ==> CouchPlan(root)[i] == CouchOp(Iter(root)[k].children[i])
  {
    var es := Iter(root);
    var ref := FirstLocal(es, "CouchReference").value;
    var m :| 0 <= m < |es| && es[m] == ref && LocalName(ref.tag) == "CouchReference"
      && forall j :: 0 <= j < m ==> LocalName(es[j].tag) != "CouchReference";
    assert m == k;
  }

  // ---------------------------------------------------------------------------
  // SetBeam-*.xml: the Linac control point
  // ---------------------------------------------------------------------------

  /** A listing entry of the form `SetBeam*.xml`. */
  predicate IsSetBeamName(f: string)
  {
    StartsWith(f, "SetBeam") && EndsWith(f, ".xml")
  }

  /** The entries named `SetBeam*.xml`, in listing order. */
  function SetBeamFiles(entries: seq<string>): (r: seq<string>)
    ensures forall f :: f in r <==> f in entries && IsSetBeamName(f)
  {
    if entries == [] then []
    else
      var rest := SetBeamFiles(entries[1..]);
      assert forall f :: f in entries <==> f == entries[0] || f in entries[1..];
      if IsSetBeamName(entries[0]) then [entries[0]] + rest else rest
  }

  /** The list comprehension keeps listing order: the files from a first part of the
      listing come before those from the rest. */
  lemma {:induction false} SetBeamFilesAppend(a: seq<string>, b: seq<string>)
    ensures SetBeamFiles(a + b) == SetBeamFiles(a) + SetBeamFiles(b)
    decreases |a|
  {
    if a == [] {
      assert a + b == b;
    } else {
      assert (a + b)[0] == a[0];
      assert (a + b)[1..] == a[1..] + b;
      SetBeamFilesAppend(a[1..], b);
    }
  }

  /** `setbeam_files[0]` is the first SetBeam entry of the listing. */
  lemma {:induction false} SetBeamFilesFirst(entries: seq<string>, k: nat)
    requires k < |entries| && IsSetBeamName(entries[k])
    requires forall j :: 0 <= j < k ==> !IsSetBeamName(entries[j])
    ensures SetBeamFiles(entries) != [] && SetBeamFiles(entries)[0] == entries[k]
    decreases k
  {
    if k > 0 {
      SetBeamFilesFirst(entries[1..], k - 1);
    }
  }

  /** A control point whose `WorkObjectID` child has the text Linac. */
  predicate IsLinac(cp: Element)
  {
    var w := FindChild(cp, "WorkObjectID");
    w.Some? && w.value.text == Some("Linac")
  }

  /** `x` is the control point at some position of `cps` that is a Linac one, and no
      earlier one is. */
  predicate IsFirstLinac(cps: seq<Element>, x: Element)
  {
    exists k :: 0 <= k < |cps| && cps[k] == x && IsLinac(x) && forall j :: 0 <= j < k ==> !IsLinac(cps[j])
  }

  /** The first Linac control point; the loop's `break`. */
  function FirstLinac(cps: seq<Element>): (r: Option<Element>)
    ensures r.Some? ==> r.value in cps && IsLinac(r.value)
    ensures r.Some? ==> IsFirstLinac(cps, r.value)
    ensures r.None? <==> forall k :: 0 <= k < |cps| ==> !IsLinac(cps[k])
  {
    match LinacIndex(cps)
    case None => None
    case Some(k) =>
      LinacIndexFirst(cps);
      assert IsFirstLinac(cps, cps[k]);
      Some(cps[k])
  }

  /** The position of the first Linac control point. */
  function LinacIndex(cps: seq<Element>): (r: Option<nat>)
    ensures r.Some? ==> r.value < |cps| && IsLinac(cps[r.value])
    ensures r.None? <==> forall k :: 0 <= k < |cps| ==> !IsLinac(cps[k])
  {
    if cps == [] then None
    else if IsLinac(cps[0]) then Some(0)
    else
      match LinacIndex(cps[1..])
      case None => None
      case Some(k) => Some(k + 1)
  }

  /** No control point before the one found is a Linac one. */
  lemma {:induction false} LinacIndexFirst(cps: seq<Element>)
    requires LinacIndex(cps).Some?
    ensures forall j :: 0 <= j < LinacIndex(cps).value ==> !IsLinac(cps[j])
  {
    if !IsLinac(cps[0]) {
      LinacIndexFirst(cps[1..]);
      assert forall j :: 1 <= j < |cps| ==> cps[j] == cps[1..][j - 1];
    }
  }

  /** When control point `k` is the first Linac one, it is the one read. */
  lemma FirstLinacAt(cps: seq<Element>, k: nat)
    requires k < |cps| && IsLinac(cps[k])
    requires forall j :: 0 <= j < k ==> !IsLinac(cps[j])
    ensures FirstLinac(cps) == Some(cps[k])
  {
    var m := LinacIndex(cps).value;
    LinacIndexFirst(cps);
    assert m == k;
  }

  /** A scalar set from an optional child: nothing when the child is missing. */
  function ChildScalar(cp: Element, tag: string, f: Scalar): (r: seq<Op>)
    ensures |r| <= 1
    ensures forall k :: 0 <= k < |r| ==> r[k] == Do(SetScalar(f, ParseXmlValue(FindChild(cp, tag))))
    ensures |r| == 1 <==> FindChild(cp, tag).Some?
  {
    match FindChild(cp, tag)
    case None => []
    case Some(e) => [Do(SetScalar(f, ParseXmlValue(Some(e))))]
  }

  /** The children of the Linac control point that are read, in the method's order,
      with the field each one sets. */
  const LinacFields: seq<(string, Scalar)> := [
    ("GantryRtn", GantryAbsolute), ("CollRtn", CollimationRotationOffset),
    ("X1", JawX1), ("X2", JawX2), ("Y1", JawY1), ("Y2", JawY2)]

  /** No two entries set the same field. */
  predicate DistinctFields(fs: seq<(string, Scalar)>)
  {
    forall a, b :: 0 <= a < b < |fs| ==> fs[a].1 != fs[b].1
  }

  /** The statements for the fields in turn: one for each child that is present. */
  function FieldOps(cp: Element, fs: seq<(string, Scalar)>): seq<Op>
  {
    if fs == [] then [] else ChildScalar(cp, fs[0].0, fs[0].1) + FieldOps(cp, fs[1..])
  }

  /** `min(len(tokens), 60)`: `enumerate(leaf_values[:60], start=1)`. */
  function BankSize(tokens: seq<string>): (n: nat)
    ensures n <= 60 && n <= |tokens|
    ensures n == 60 || n == |tokens|
  {
    if |tokens| < 60 then |tokens| else 60
  }

  /** The tokens of the `Mlc` child `A` or `B` of a control point: its stripped text
      split at whitespace, or none when `Mlc`, the bank or its text is missing or the
      text is empty. */
  function BankTokens(cp: Element, bank: string): (r: seq<string>)
    ensures (FindChild(cp, "Mlc").None? || FindChild(FindChild(cp, "Mlc").value, bank).None?) ==> r == []
  {
    match FindChild(cp, "Mlc")
    case None => []
    case Some(mlc) =>
      match FindChild(mlc, bank)
      case None => []
      case Some(e) =>
        match e.text
        case None => []
        case Some(t) => if t == [] then [] else Tokens(Strip(t))
  }

  /** `for idx, val_str in enumerate(tokens[:60], start=1)`, with the failing
      `Decimal(val_str)` skipped. */
  function TokenOps(toks: seq<string>, m: LeafMap): (r: seq<Op>)
    ensures |r| == BankSize(toks)
  {
    seq(BankSize(toks), k requires 0 <= k < BankSize(toks) => TokenOp(toks[k], m, k + 1))
  }

  /** Token `k` of the first 60 handles leaf `k + 1`. */
  lemma TokenOpsAt(toks: seq<string>, m: LeafMap)
    ensures forall k :: 0 <= k < |TokenOps(toks, m)| ==> TokenOps(toks, m)[k] == TokenOp(toks[k], m, k + 1)
  {
  }

  /** One token's statement: set leaf `idx` to its value, or skip it. */
  function TokenOp(tok: string, m: LeafMap, idx: int): (r: Op)
    ensures r.Do? <==> Parse(tok).Some?
    ensures r.Do? ==> r.c == SetLeaf(m, idx, Parse(tok).value)
    ensures r.Skip? <==> Parse(tok).None?
  {
    match Parse(tok)
    case None => Skip
    case Some(d) => Do(SetLeaf(m, idx, d))
  }

  /** Token `i - 1` of the bank sets leaf `i`. */
  predicate TokenSets(toks: seq<string>, i: int)
  {
    1 <= i <= BankSize(toks) && Parse(toks[i - 1]).Some?
  }

  /** Bank A's leaves, then bank B's. */
  function MlcOps(cp: Element): seq<Op>
  {
    TokenOps(BankTokens(cp, "A"), MLCLeavesA) + TokenOps(BankTokens(cp, "B"), MLCLeavesB)
  }

  /** What one Linac control point sets, in the method's order. */
  function LinacOps(cp: Element): seq<Op>
  {
    FieldOps(cp, LinacFields) + MlcOps(cp)
  }

  /** The first Linac control point under `ControlPoints`. */
  function ControlPoint(root: Element): (r: Option<Element>)
    ensures r.Some? ==> IsLinac(r.value)
    ensures FindChild(root, "ControlPoints").None? ==> r.None?
  {
    match FindChild(root, "ControlPoints")
    case None => None
    case Some(cps) => FirstLinac(FindAllChildren(cps, "Cp"))
  }

  /** The control point a geometry extraction reads: the one of the first SetBeam file
      of the folder's listing, when that file exists and parses; its own `try` turns
      a parse error into no control point. */
  function LinacPoint(folder: string, entries: seq<string>, xml: XmlFiles): (r: Option<Element>)
    ensures r.Some? ==> IsLinac(r.value)
    ensures SetBeamFiles(entries) == [] ==> r.None?
    ensures var files := SetBeamFiles(entries); files != [] ==>
      var p := Join(folder, files[0]);
      (p in xml && xml[p].Parsed? ==> r == ControlPoint(xml[p].root))
      && (p !in xml || xml[p].Malformed? ==> r.None?)
  {
    var files := SetBeamFiles(entries);
    if files == [] then None
    else
      var p := Join(folder, files[0]);
      if p in xml && xml[p].Parsed? then ControlPoint(xml[p].root) else None
  }

  function SetBeamPart(folder: string, entries: seq<string>, xml: XmlFiles): seq<Op>
  {
    match LinacPoint(folder, entries, xml)
    case None => []
    case Some(cp) => LinacOps(cp)
  }

  /** The statements of a geometry extraction once Results.xml is parsed. */
  function GeoXmlPlan(root: Element, folder: string, entries: seq<string>, xml: XmlFiles): seq<Op>
  {
    ProfilePlan(root, true) + CouchPlan(root) + SetBeamPart(folder, entries, xml)
  }

  /** The folder can be listed and its Results.xml parsed. */
  predicate ResultsRead(st: BeamState, xml: XmlFiles, listing: Listing)
  {
    HasGetPath(st) && PathOf(st) in listing
    && Join(PathOf(st), "Results.xml") in xml && xml[Join(PathOf(st), "Results.xml")].Parsed?
  }

  /** The statements a geometry extraction runs once Results.xml is read. */
  function GeoRunPlan(st: BeamState, xml: XmlFiles, listing: Listing): seq<Op>
    requires ResultsRead(st, xml, listing)
  {
    GeoXmlPlan(xml[Join(PathOf(st), "Results.xml")].root, PathOf(st), listing[PathOf(st)], xml)
  }

  /** The record after `geoModelExtraction`: unchanged when the record has no
      `get_path`, the folder cannot be listed, or Results.xml is missing or malformed;
      otherwise the profile, couch and SetBeam statements in turn. */
  function GeoXmlExtraction(st: BeamState, xml: XmlFiles, listing: Listing): (r: BeamState)
    ensures !ResultsRead(st, xml, listing) ==> r == st
  {
    if ResultsRead(st, xml, listing) then Run(st, GeoRunPlan(st, xml, listing)).st else st
  }

  /** `geoModelExtraction`. */
  method GeoModelExtraction(b: Beam, xml: XmlFiles, listing: Listing)
    modifies Obj(b)
    ensures Snapshot(b) == GeoXmlExtraction(old(Snapshot(b)), xml, listing)
  {
    var st := Snapshot(b);
    if !HasGetPath(st) || PathOf(st) !in listing {
      return;
    }
    var folder := PathOf(st);
    var resultsPath := Join(folder, "Results.xml");
    if resultsPath !in xml || xml[resultsPath].Malformed? {
      return;
    }
    var root := xml[resultsPath].root;
    var checks := FindElementsByType(root, "BeamProfileCheck");
    var _ := Execute(b, ProfileOps(ChildrenOf(checks), true) + CouchPlan(root) + SetBeamPart(folder, listing[folder], xml));
  }

  /** A SetBeam file that does not parse leaves what Results.xml set. */
  lemma SetBeamFailureKeepsResults(st: BeamState, xml: XmlFiles, listing: Listing)
    requires ResultsRead(st, xml, listing)
    requires var files := SetBeamFiles(listing[PathOf(st)]);
             files != [] && Join(PathOf(st), files[0]) in xml && xml[Join(PathOf(st), files[0])].Malformed?
    ensures var root := xml[Join(PathOf(st), "Results.xml")].root;
            GeoXmlExtraction(st, xml, listing) == Run(st, ProfilePlan(root, true) + CouchPlan(root)).st
  {
    var root := xml[Join(PathOf(st), "Results.xml")].root;
    assert SetBeamPart(PathOf(st), listing[PathOf(st)], xml) == [];
    assert GeoXmlPlan(root, PathOf(st), listing[PathOf(st)], xml) == ProfilePlan(root, true) + CouchPlan(root);
  }

  /** Statements that are skips or scalar and leaf setters whose exception would
      propagate: what every geometry XML statement is. */
  predicate Plain(ops: seq<Op>)
  {
    forall j :: 0 <= j < |ops| ==> ops[j].Skip? || (ops[j].Do? && (ops[j].c.SetScalar? || ops[j].c.SetLeaf?))
  }

  lemma Concat(a: seq<Op>, b: seq<Op>)
    ensures forall j :: 0 <= j < |a + b| ==> (a + b)[j] == if j < |a| then a[j] else b[j - |a|]
  {
  }

  lemma Regroup(a: seq<Op>, b: seq<Op>, c: seq<Op>, d: seq<Op>)
    ensures a + (b + c) + d == a + b + (c + d)
    ensures a + (b + c) + d == a + b + c + d
  {
  }

  lemma Assoc(a: seq<Op>, b: seq<Op>, c: seq<Op>)
    ensures a + (b + c) == a + b + c
  {
  }

  lemma PlainConcat(a: seq<Op>, b: seq<Op>)
    requires Plain(a) && Plain(b)
    ensures Plain(a + b)
  {
    Concat(a, b);
  }

  /** A geometry record defines every scalar and leaf setter, so plain statements
      all take effect. */
  lemma PlainRuns(st: BeamState, ops: seq<Op>)
    requires st.GS? && Plain(ops)
    ensures Run(st, ops).error.None?
  {
    RunNoError(st, ops);
  }

  lemma ProfilePlain(root: Element, withShift: bool)
    ensures Plain(ProfilePlan(root, withShift))
  {
    var kids := ProfileChildren(root);
    forall j | 0 <= j < |kids|
      ensures ProfilePlan(root, withShift)[j] == ProfileOp(kids[j], withShift)
    {
    }
  }

  lemma CouchPlain(root: Element)
    ensures Plain(CouchPlan(root))
  {
    match FirstLocal(Iter(root), "CouchReference")
    case None =>
    case Some(ref) =>
      forall j | 0 <= j < |ref.children|
        ensures CouchPlan(root)[j] == CouchOp(ref.children[j])
      {
      }
  }

  lemma {:induction false} FieldOpsPlain(cp: Element, fs: seq<(string, Scalar)>)
    ensures Plain(FieldOps(cp, fs))
    decreases |fs|
  {
    if fs != [] {
      FieldOpsPlain(cp, fs[1..]);
      PlainConcat(ChildScalar(cp, fs[0].0, fs[0].1), FieldOps(cp, fs[1..]));
    }
  }

  lemma LinacPlain(cp: Element)
    ensures Plain(LinacOps(cp))
  {
    FieldsPlain(cp);
    MlcPlain(cp);
    PlainConcat(FieldOps(cp, LinacFields), MlcOps(cp));
  }

  lemma FieldsPlain(cp: Element)
    ensures Plain(FieldOps(cp, LinacFields))
  {
    FieldOpsPlain(cp, LinacFields);
  }

  lemma MlcPlain(cp: Element)
    ensures Plain(MlcOps(cp))
  {
    var a := TokenOps(BankTokens(cp, "A"), MLCLeavesA);
    var b := TokenOps(BankTokens(cp, "B"), MLCLeavesB);
    TokenOpsPlain(BankTokens(cp, "A"), MLCLeavesA);
    TokenOpsPlain(BankTokens(cp, "B"), MLCLeavesB);
    PlainConcat(a, b);
  }

  lemma TokenOpsPlain(toks: seq<string>, m: LeafMap)
    ensures Plain(TokenOps(toks, m))
  {
    var ops := TokenOps(toks, m);
    TokenOpsAt(toks, m);
    forall j | 0 <= j < |ops|
      ensures ops[j].Skip? || (ops[j].Do? && ops[j].c.SetLeaf?)
    {
      assert ops[j] == TokenOp(toks[j], m, j + 1);
    }
  }

  lemma SetBeamPartPlain(folder: string, entries: seq<string>, xml: XmlFiles)
    ensures Plain(SetBeamPart(folder, entries, xml))
  {
    match LinacPoint(folder, entries, xml)
    case None =>
    case Some(cp) => LinacPlain(cp);
  }

  /** On a geometry record no statement of the extraction raises, so every one of
      them takes effect. */
  lemma GeoPlanNoError(st: BeamState, root: Element, folder: string, entries: seq<string>, xml: XmlFiles)
    requires st.GS?
    ensures Run(st, GeoXmlPlan(root, folder, entries, xml)).error.None?
  {
    ProfilePlain(root, true);
    CouchPlain(root);
    SetBeamPartPlain(folder, entries, xml);
    PlainConcat(ProfilePlan(root, true), CouchPlan(root));
    PlainConcat(ProfilePlan(root, true) + CouchPlan(root), SetBeamPart(folder, entries, xml));
    PlainRuns(st, GeoXmlPlan(root, folder, entries, xml));
  }

  // --- the Linac fields ---

  lemma NoWritesConcat(a: seq<Op>, b: seq<Op>, f: Scalar)
    requires forall j :: 0 <= j < |a| ==> !Writes(a[j], f)
    requires forall j :: 0 <= j < |b| ==> !Writes(b[j], f)
    ensures forall j :: 0 <= j < |a + b| ==> !Writes((a + b)[j], f)
  {
    Concat(a, b);
  }

  /** A write followed by statements that do not write the field decides it. */
  lemma WriteThenNone(st: BeamState, pre: seq<Op>, f: Scalar, v: Decimal, post: seq<Op>)
    requires Run(st, pre + [Do(SetScalar(f, v))] + post).error.None?
    requires forall j :: 0 <= j < |post| ==> !Writes(post[j], f)
    ensures ScalarOf(Run(st, pre + [Do(SetScalar(f, v))] + post).st, f) == Some(v)
  {
    var ops := pre + [Do(SetScalar(f, v))] + post;
    assert forall j :: |pre| < j < |ops| ==> ops[j] == post[j - |pre| - 1];
    LastWriteWins(st, ops, |pre|, f, v);
  }

  /** Statements for fields none of which is `f`, or whose child is missing, do not
      write `f`. */
  lemma {:induction false} FieldOpsNoWrite(cp: Element, fs: seq<(string, Scalar)>, f: Scalar)
    requires forall a :: 0 <= a < |fs| ==> fs[a].1 != f || FindChild(cp, fs[a].0).None?
    ensures forall j :: 0 <= j < |FieldOps(cp, fs)| ==> !Writes(FieldOps(cp, fs)[j], f)
    decreases |fs|
  {
    if fs != [] {
      assert forall a :: 0 <= a < |fs| - 1 ==> fs[1..][a] == fs[a + 1];
      FieldOpsNoWrite(cp, fs[1..], f);
      NoWritesConcat(ChildScalar(cp, fs[0].0, fs[0].1), FieldOps(cp, fs[1..]), f);
    }
  }

  lemma DistinctTail(fs: seq<(string, Scalar)>)
    requires fs != [] && DistinctFields(fs)
    ensures DistinctFields(fs[1..])
    ensures forall a :: 0 <= a < |fs| - 1 ==> fs[1..][a] == fs[a + 1] && fs[a + 1].1 != fs[0].1
  {
  }

  /** Within a run that completes, the field statement of an entry whose child is
      present decides the field, when nothing after the field statements writes it. */
  lemma {:induction false} FieldWins(st: BeamState, pre: seq<Op>, cp: Element, fs: seq<(string, Scalar)>, post: seq<Op>, k: nat)
    requires DistinctFields(fs) && k < |fs| && FindChild(cp, fs[k].0).Some?
    requires Run(st, pre + FieldOps(cp, fs) + post).error.None?
    requires forall j :: 0 <= j < |post| ==> !Writes(post[j], fs[k].1)
    ensures ScalarOf(Run(st, pre + FieldOps(cp, fs) + post).st, fs[k].1) == Some(ParseXmlValue(FindChild(cp, fs[k].0)))
    decreases k
  {
    var c := ChildScalar(cp, fs[0].0, fs[0].1);
    var rest := FieldOps(cp, fs[1..]);
    assert FieldOps(cp, fs) == c + rest;
    DistinctTail(fs);
    if k == 0 {
      var v := ParseXmlValue(FindChild(cp, fs[0].0));
      assert c == [Do(SetScalar(fs[0].1, v))];
      FieldOpsNoWrite(cp, fs[1..], fs[0].1);
      NoWritesConcat(rest, post, fs[0].1);
      Regroup(pre, c, rest, post);
      WriteThenNone(st, pre, fs[0].1, v, rest + post);
    } else {
      Regroup(pre, c, rest, post);
      FieldWins(st, pre + c, cp, fs[1..], post, k - 1);
    }
  }

  lemma LinacFieldsDistinct()
    ensures DistinctFields(LinacFields)
  {
  }

  /** The statements of a geometry extraction that reaches a Linac control point. */
  lemma LinacPlanShape(st: BeamState, xml: XmlFiles, listing: Listing, cp: Element)
    requires ResultsRead(st, xml, listing)
    requires LinacPoint(PathOf(st), listing[PathOf(st)], xml) == Some(cp)
    ensures var root := xml[Join(PathOf(st), "Results.xml")].root;
            GeoRunPlan(st, xml, listing) == ProfilePlan(root, true) + CouchPlan(root) + FieldOps(cp, LinacFields) + MlcOps(cp)
  {
    var root := xml[Join(PathOf(st), "Results.xml")].root;
    var pc := ProfilePlan(root, true) + CouchPlan(root);
    assert SetBeamPart(PathOf(st), listing[PathOf(st)], xml) == LinacOps(cp);
    Assoc(pc, FieldOps(cp, LinacFields), MlcOps(cp));
  }

  lemma GeoRunNoError(st: BeamState, xml: XmlFiles, listing: Listing)
    requires st.GS? && ResultsRead(st, xml, listing)
    ensures Run(st, GeoRunPlan(st, xml, listing)).error.None?
  {
    GeoPlanNoError(st, xml[Join(PathOf(st), "Results.xml")].root, PathOf(st), listing[PathOf(st)], xml);
  }

  /** The gantry, collimator and jaw fields of a geometry record end with the values
      of the Linac control point's children, when those are present. */
  lemma LinacFieldWins(st: BeamState, xml: XmlFiles, listing: Listing, cp: Element, k: nat)
    requires st.GS? && ResultsRead(st, xml, listing)
    requires LinacPoint(PathOf(st), listing[PathOf(st)], xml) == Some(cp)
    requires k < |LinacFields| && FindChild(cp, LinacFields[k].0).Some?
    ensures ScalarOf(GeoXmlExtraction(st, xml, listing), LinacFields[k].1) == Some(ParseXmlValue(FindChild(cp, LinacFields[k].0)))
  {
    var root := xml[Join(PathOf(st), "Results.xml")].root;
    LinacPlanShape(st, xml, listing, cp);
    GeoRunNoError(st, xml, listing);
    MlcNoWrite(cp, LinacFields[k].1);
    LinacFieldsDistinct();
    FieldWins(st, ProfilePlan(root, true) + CouchPlan(root), cp, LinacFields, MlcOps(cp), k);
  }

  /** The leaf statements write no scalar. */
  lemma MlcNoWrite(cp: Element, f: Scalar)
    ensures forall j :: 0 <= j < |MlcOps(cp)| ==> !Writes(MlcOps(cp)[j], f)
  {
    var a := TokenOps(BankTokens(cp, "A"), MLCLeavesA);
    var b := TokenOps(BankTokens(cp, "B"), MLCLeavesB);
    TokenOpsNoWrite(BankTokens(cp, "A"), MLCLeavesA, f);
    TokenOpsNoWrite(BankTokens(cp, "B"), MLCLeavesB, f);
    NoWritesConcat(a, b, f);
  }

  lemma TokenOpsNoWrite(toks: seq<string>, m: LeafMap, f: Scalar)
    ensures forall j :: 0 <= j < |TokenOps(toks, m)| ==> !Writes(TokenOps(toks, m)[j], f)
  {
    var ops := TokenOps(toks, m);
    TokenOpsAt(toks, m);
    forall j | 0 <= j < |ops|
      ensures !Writes(ops[j], f)
    {
      assert ops[j] == TokenOp(toks[j], m, j + 1);
    }
  }

  /** Profile statements write only the beam fields, couch statements only the couch
      fields. */
  lemma ResultsNoWrite(root: Element, f: Scalar)
    requires f !in XScalars && f !in CouchFields
    ensures forall j :: 0 <= j < |ProfilePlan(root, true) + CouchPlan(root)| ==> !Writes((ProfilePlan(root, true) + CouchPlan(root))[j], f)
  {
    ProfileNoWrite(root, f);
    CouchNoWrite(root, f);
    NoWritesConcat(ProfilePlan(root, true), CouchPlan(root), f);
  }

  lemma ProfileNoWrite(root: Element, f: Scalar)
    requires f !in XScalars
    ensures forall j :: 0 <= j < |ProfilePlan(root, true)| ==> !Writes(ProfilePlan(root, true)[j], f)
  {
    var kids := ProfileChildren(root);
    forall j | 0 <= j < |kids|
      ensures ProfilePlan(root, true)[j] == ProfileOp(kids[j], true)
    {
    }
  }

  lemma CouchNoWrite(root: Element, f: Scalar)
    requires f !in CouchFields
    ensures forall j :: 0 <= j < |CouchPlan(root)| ==> !Writes(CouchPlan(root)[j], f)
  {
    match FirstLocal(Iter(root), "CouchReference")
    case None =>
    case Some(ref) =>
      forall j | 0 <= j < |ref.children|
        ensures CouchPlan(root)[j] == CouchOp(ref.children[j])
      {
      }
  }

  /** The SetBeam statements write a gantry, collimator or jaw field only from a
      present child of the Linac control point. */
  lemma SetBeamNoWrite(folder: string, entries: seq<string>, xml: XmlFiles, k: nat)
    requires k < |LinacFields|
    requires var cp := LinacPoint(folder, entries, xml);
             cp.None? || FindChild(cp.value, LinacFields[k].0).None?
    ensures forall j :: 0 <= j < |SetBeamPart(folder, entries, xml)| ==> !Writes(SetBeamPart(folder, entries, xml)[j], LinacFields[k].1)
  {
    match LinacPoint(folder, entries, xml)
    case None =>
    case Some(cp) => LinacOpsNoWrite(cp, k);
  }

  lemma LinacOpsNoWrite(cp: Element, k: nat)
    requires k < |LinacFields| && FindChild(cp, LinacFields[k].0).None?
    ensures forall j :: 0 <= j < |LinacOps(cp)| ==> !Writes(LinacOps(cp)[j], LinacFields[k].1)
  {
    LinacFieldsDistinct();
    FieldOpsNoWrite(cp, LinacFields, LinacFields[k].1);
    MlcNoWrite(cp, LinacFields[k].1);
    NoWritesConcat(FieldOps(cp, LinacFields), MlcOps(cp), LinacFields[k].1);
  }

  lemma LinacFieldsNotResults(k: nat)
    requires k < |LinacFields|
    ensures LinacFields[k].1 !in XScalars && LinacFields[k].1 !in CouchFields
  {
  }

  /** A gantry, collimator or jaw field whose child is missing, or that no control
      point supplies, keeps its value. */
  lemma LinacFieldKept(st: BeamState, xml: XmlFiles, listing: Listing, k: nat)
    requires ResultsRead(st, xml, listing) && k < |LinacFields|
    requires var cp := LinacPoint(PathOf(st), listing[PathOf(st)], xml);
             cp.None? || FindChild(cp.value, LinacFields[k].0).None?
    ensures ScalarOf(GeoXmlExtraction(st, xml, listing), LinacFields[k].1) == ScalarOf(st, LinacFields[k].1)
  {
    var root := xml[Join(PathOf(st), "Results.xml")].root;
    var f := LinacFields[k].1;
    var pre := ProfilePlan(root, true) + CouchPlan(root);
    var sb := SetBeamPart(PathOf(st), listing[PathOf(st)], xml);
    LinacFieldsNotResults(k);
    ResultsNoWrite(root, f);
    SetBeamNoWrite(PathOf(st), listing[PathOf(st)], xml, k);
    NoWritesConcat(pre, sb, f);
    RunNoWrite(st, pre + sb, f);
  }

  // --- the MLC leaves ---

  lemma NoLeafWritesConcat(a: seq<Op>, b: seq<Op>, m: LeafMap, i: int)
    requires forall j :: 0 <= j < |a| ==> !WritesLeaf(a[j], m, i)
    requires forall j :: 0 <= j < |b| ==> !WritesLeaf(b[j], m, i)
    ensures forall j :: 0 <= j < |a + b| ==> !WritesLeaf((a + b)[j], m, i)
  {
    Concat(a, b);
  }

  /** A leaf write followed by statements that do not write the leaf decides it. */
  lemma LeafWriteThenNone(st: BeamState, pre: seq<Op>, m: LeafMap, i: int, v: Decimal, post: seq<Op>)
    requires Run(st, pre + [Do(SetLeaf(m, i, v))] + post).error.None?
    requires forall j :: 0 <= j < |post| ==> !WritesLeaf(post[j], m, i)
    ensures LeafOf(Run(st, pre + [Do(SetLeaf(m, i, v))] + post).st, m, i) == Ok(v)
  {
    var ops := pre + [Do(SetLeaf(m, i, v))] + post;
    assert forall j :: |pre| < j < |ops| ==> ops[j] == post[j - |pre| - 1];
    LastLeafWriteWins(st, ops, |pre|, m, i, v);
  }

  /** A bank's statements write no leaf of the other map, and of their own map only
      the leaves their parsing tokens name. */
  lemma TokenOpsNoLeafWrite(toks: seq<string>, m: LeafMap, m': LeafMap, i: int)
    requires m != m' || !TokenSets(toks, i)
    ensures forall j :: 0 <= j < |TokenOps(toks, m)| ==> !WritesLeaf(TokenOps(toks, m)[j], m', i)
  {
    TokenOpsAt(toks, m);
  }

  /** Within a run that completes, a token that parses decides its leaf, when nothing
      after the bank's statements writes that leaf. */
  lemma TokenWins(st: BeamState, pre: seq<Op>, toks: seq<string>, m: LeafMap, post: seq<Op>, i: int)
    requires TokenSets(toks, i)
    requires Run(st, pre + TokenOps(toks, m) + post).error.None?
    requires forall j :: 0 <= j < |post| ==> !WritesLeaf(post[j], m, i)
    ensures LeafOf(Run(st, pre + TokenOps(toks, m) + post).st, m, i) == Ok(Parse(toks[i - 1]).value)
  {
    var t := TokenOps(toks, m);
    var k := i - 1;
    TokenOpsAt(toks, m);
    LaterTokens(toks, m, k, t[k + 1..]);
    NoLeafWritesConcat(t[k + 1..], post, m, i);
    SplitAt(pre, t, post, k);
    LeafWriteThenNone(st, pre + t[..k], m, i, Parse(toks[k]).value, t[k + 1..] + post);
  }

  /** The statements after token k's write other leaves. */
  lemma LaterTokens(toks: seq<string>, m: LeafMap, k: nat, later: seq<Op>)
    requires k < BankSize(toks) && later == TokenOps(toks, m)[k + 1..]
    ensures forall j :: 0 <= j < |later| ==> !WritesLeaf(later[j], m, k + 1)
  {
    TokenOpsAt(toks, m);
    forall j | 0 <= j < |later|
      ensures !WritesLeaf(later[j], m, k + 1)
    {
      assert later[j] == TokenOp(toks[k + 1 + j], m, k + 2 + j);
    }
  }

  lemma SplitAt(pre: seq<Op>, t: seq<Op>, post: seq<Op>, k: nat)
    requires k < |t|
    ensures pre + t + post == (pre + t[..k]) + [t[k]] + (t[k + 1..] + post)
  {
    assert t == t[..k] + [t[k]] + t[k + 1..];
  }

  /** The two banks: their tag under `Mlc` and the leaf map they fill. */
  predicate Bank(tag: string, m: LeafMap)
  {
    (tag == "A" && m == MLCLeavesA) || (tag == "B" && m == MLCLeavesB)
  }

  /** Leaf i of a geometry record ends with the value of token i of its bank in the
      Linac control point, for i from 1 to 60, when that token parses. */
  lemma LinacLeafWins(st: BeamState, xml: XmlFiles, listing: Listing, cp: Element, tag: string, m: LeafMap, i: int)
    requires st.GS? && ResultsRead(st, xml, listing)
    requires LinacPoint(PathOf(st), listing[PathOf(st)], xml) == Some(cp)
    requires Bank(tag, m) && TokenSets(BankTokens(cp, tag), i)
    ensures LeafOf(GeoXmlExtraction(st, xml, listing), m, i) == Ok(Parse(BankTokens(cp, tag)[i - 1]).value)
  {
    var root := xml[Join(PathOf(st), "Results.xml")].root;
    var pre := ProfilePlan(root, true) + CouchPlan(root) + FieldOps(cp, LinacFields);
    LinacPlanShape(st, xml, listing, cp);
    GeoRunNoError(st, xml, listing);
    if tag == "A" {
      BankAWins(st, pre, cp, i);
    } else {
      BankBWins(st, pre, cp, i);
    }
  }

  lemma BankAWins(st: BeamState, pre: seq<Op>, cp: Element, i: int)
    requires Run(st, pre + MlcOps(cp)).error.None?
    requires TokenSets(BankTokens(cp, "A"), i)
    ensures LeafOf(Run(st, pre + MlcOps(cp)).st, MLCLeavesA, i) == Ok(Parse(BankTokens(cp, "A")[i - 1]).value)
  {
    var ta := TokenOps(BankTokens(cp, "A"), MLCLeavesA);
    var tb := TokenOps(BankTokens(cp, "B"), MLCLeavesB);
    Assoc(pre, ta, tb);
    TokenOpsNoLeafWrite(BankTokens(cp, "B"), MLCLeavesB, MLCLeavesA, i);
    TokenWins(st, pre, BankTokens(cp, "A"), MLCLeavesA, tb, i);
  }

  lemma BankBWins(st: BeamState, pre: seq<Op>, cp: Element, i: int)
    requires Run(st, pre + MlcOps(cp)).error.None?
    requires TokenSets(BankTokens(cp, "B"), i)
    ensures LeafOf(Run(st, pre + MlcOps(cp)).st, MLCLeavesB, i) == Ok(Parse(BankTokens(cp, "B")[i - 1]).value)
  {
    var ta := TokenOps(BankTokens(cp, "A"), MLCLeavesA);
    var tb := TokenOps(BankTokens(cp, "B"), MLCLeavesB);
    Assoc(pre, ta, tb);
    assert pre + ta + tb == (pre + ta) + tb + [];
    TokenWins(st, pre + ta, BankTokens(cp, "B"), MLCLeavesB, [], i);
  }

  /** Skips and scalar setters: what the Results.xml and field statements are. */
  predicate ScalarsOnly(ops: seq<Op>)
  {
    forall j :: 0 <= j < |ops| ==> ops[j].Skip? || (ops[j].Do? && ops[j].c.SetScalar?)
  }

  lemma ScalarsOnlyNoLeafWrite(ops: seq<Op>, m: LeafMap, i: int)
    requires ScalarsOnly(ops)
    ensures forall j :: 0 <= j < |ops| ==> !WritesLeaf(ops[j], m, i)
  {
  }

  lemma ScalarsOnlyConcat(a: seq<Op>, b: seq<Op>)
    requires ScalarsOnly(a) && ScalarsOnly(b)
    ensures ScalarsOnly(a + b)
  {
    Concat(a, b);
  }

  lemma ResultsScalarsOnly(root: Element)
    ensures ScalarsOnly(ProfilePlan(root, true) + CouchPlan(root))
  {
    ProfileScalarsOnly(root);
    CouchScalarsOnly(root);
    ScalarsOnlyConcat(ProfilePlan(root, true), CouchPlan(root));
  }

  lemma ProfileScalarsOnly(root: Element)
    ensures ScalarsOnly(ProfilePlan(root, true))
  {
    var kids := ProfileChildren(root);
    forall j | 0 <= j < |kids|
      ensures ProfilePlan(root, true)[j] == ProfileOp(kids[j], true)
    {
    }
  }

  lemma CouchScalarsOnly(root: Element)
    ensures ScalarsOnly(CouchPlan(root))
  {
    match FirstLocal(Iter(root), "CouchReference")
    case None =>
    case Some(ref) =>
      forall j | 0 <= j < |ref.children|
        ensures CouchPlan(root)[j] == CouchOp(ref.children[j])
      {
      }
  }

  lemma {:induction false} FieldOpsScalarsOnly(cp: Element, fs: seq<(string, Scalar)>)
    ensures ScalarsOnly(FieldOps(cp, fs))
    decreases |fs|
  {
    if fs != [] {
      FieldOpsScalarsOnly(cp, fs[1..]);
      Concat(ChildScalar(cp, fs[0].0, fs[0].1), FieldOps(cp, fs[1..]));
    }
  }

  /** The SetBeam statements write a leaf only from a parsing token of its bank in
      the Linac control point. */
  lemma SetBeamNoLeafWrite(folder: string, entries: seq<string>, xml: XmlFiles, tag: string, m: LeafMap, i: int)
    requires Bank(tag, m)
    requires var cp := LinacPoint(folder, entries, xml);
             cp.None? || !TokenSets(BankTokens(cp.value, tag), i)
    ensures forall j :: 0 <= j < |SetBeamPart(folder, entries, xml)| ==> !WritesLeaf(SetBeamPart(folder, entries, xml)[j], m, i)
  {
    match LinacPoint(folder, entries, xml)
    case None =>
    case Some(cp) =>
      FieldOpsScalarsOnly(cp, LinacFields);
      ScalarsOnlyNoLeafWrite(FieldOps(cp, LinacFields), m, i);
      TokenOpsNoLeafWrite(BankTokens(cp, "A"), MLCLeavesA, m, i);
      TokenOpsNoLeafWrite(BankTokens(cp, "B"), MLCLeavesB, m, i);
      NoLeafWritesConcat(TokenOps(BankTokens(cp, "A"), MLCLeavesA), TokenOps(BankTokens(cp, "B"), MLCLeavesB), m, i);
      NoLeafWritesConcat(FieldOps(cp, LinacFields), MlcOps(cp), m, i);
  }

  /** A leaf that no token of its bank sets, because the token is missing, lies
      beyond the sixtieth or does not parse, keeps its value. */
  lemma LinacLeafKept(st: BeamState, xml: XmlFiles, listing: Listing, tag: string, m: LeafMap, i: int)
    requires ResultsRead(st, xml, listing) && Bank(tag, m)
    requires var cp := LinacPoint(PathOf(st), listing[PathOf(st)], xml);
             cp.None? || !TokenSets(BankTokens(cp.value, tag), i)
    ensures LeafOf(GeoXmlExtraction(st, xml, listing), m, i) == LeafOf(st, m, i)
  {
    var root := xml[Join(PathOf(st), "Results.xml")].root;
    var pre := ProfilePlan(root, true) + CouchPlan(root);
    var sb := SetBeamPart(PathOf(st), listing[PathOf(st)], xml);
    ResultsScalarsOnly(root);
    ScalarsOnlyNoLeafWrite(pre, m, i);
    SetBeamNoLeafWrite(PathOf(st), listing[PathOf(st)], xml, tag, m, i);
    NoLeafWritesConcat(pre, sb, m, i);
    RunNoLeafWrite(st, pre + sb, m, i);
  }

  // ---------------------------------------------------------------------------
  // Dispatch and the test methods
  // ---------------------------------------------------------------------------

  datatype Kind = EKind | XKind | GeoKind

  /** `extract`'s dispatch: substring tests on the lower-cased class name, in order. */
  function KindOf(className: string): Option<Kind>
  {
    var t := Lower(className);
    if Contains(t, "ebeam") then Some(EKind)
    else if Contains(t, "xbeam") then Some(XKind)
    else if Contains(t, "geo") then Some(GeoKind)
    else None
  }

  /** Each record class gets its own extraction; image and base records get none. */
  lemma KindOfClasses(st: BeamState)
    ensures KindOf(ClassName(st)) == match st
                                     case ES(_) => Some(EKind)
                                     case XS(_) => Some(XKind)
                                     case GS(_) => Some(GeoKind)
                                     case _ => None
  {
    var n := ClassName(st);
    match st
    case ES(_) => KindOfE(n);
    case XS(_) => KindOfX(n);
    case GS(_) => KindOfGeo(n);
    case IS(_) => KindOfImage(n);
    case AS(_) => KindOfAbstract(n);
  }

  lemma KindOfE(n: string)
    requires n == "EBeamModel"
    ensures KindOf(n) == Some(EKind)
  {
    var t := Lower(n);
    assert t == "ebeammodel";
    assert MatchAt(t, "ebeam", 0);
  }

  lemma KindOfX(n: string)
    requires n == "XBeamModel"
    ensures KindOf(n) == Some(XKind)
  {
    var t := Lower(n);
    assert t == "xbeammodel";
    NoPair(t, "ebeam");
    assert MatchAt(t, "xbeam", 0);
  }

  lemma KindOfGeo(n: string)
    requires n == "Geo6xfffModel"
    ensures KindOf(n) == Some(GeoKind)
  {
    var t := Lower(n);
    assert t == "geo6xfffmodel";
    NoB(t);
    assert MatchAt(t, "geo", 0);
  }

  lemma KindOfImage(n: string)
    requires n == "ImageModel"
    ensures KindOf(n) == None
  {
    var t := Lower(n);
    assert t == "imagemodel";
    NoB(t);
    ImageNoGeo(t);
  }

  lemma KindOfAbstract(n: string)
    requires n == "AbstractBeamModel"
    ensures KindOf(n) == None
  {
    var t := Lower(n);
    assert t == "abstractbeammodel";
    NoPair(t, "ebeam");
    NoXG(t);
  }

  /** Neither "ebeam" nor "xbeam" occurs in a name without a 'b'. */
  lemma NoB(t: string)
    requires t == "geo6xfffmodel" || t == "imagemodel"
    ensures !Contains(t, "ebeam") && !Contains(t, "xbeam")
  {
    CharAbsent(t, "ebeam", 1);
    CharAbsent(t, "xbeam", 1);
  }

  /** Neither "xbeam" nor "geo" occurs in "abstractbeammodel". */
  lemma NoXG(t: string)
    requires t == "abstractbeammodel"
    ensures !Contains(t, "xbeam") && !Contains(t, "geo")
  {
    CharAbsent(t, "xbeam", 0);
    CharAbsent(t, "geo", 0);
  }

  /** "ebeam" does not occur: its first pair "eb" does not. */
  lemma NoPair(t: string, p: string)
    requires p == "ebeam" && (t == "xbeammodel" || t == "abstractbeammodel")
    ensures !Contains(t, p)
  {
    if Contains(t, p) {
      MatchPair(t, p, IndexOf(t, p).value);
    }
  }

  lemma ImageNoGeo(t: string)
    requires t == "imagemodel"
    ensures !Contains(t, "geo")
  {
    if Contains(t, "geo") {
      var i := IndexOf(t, "geo").value;
      assert t[i..i + 3][2] == t[i + 2];
      MatchPair(t, "geo", i);
    }
  }

  /** The record after `extract`, or TypeError for a class it does not support. */
  function Extraction(st: BeamState, xml: XmlFiles, listing: Listing): (r: Result<BeamState>)
  {
    match KindOf(ClassName(st))
    case None => Err(TypeError)
    case Some(EKind) => Ok(BeamXmlExtraction(st, xml, false))
    case Some(XKind) => Ok(BeamXmlExtraction(st, xml, true))
    case Some(GeoKind) => Ok(GeoXmlExtraction(st, xml, listing))
  }

  /** `extract`. */
  method Extract(b: Beam, xml: XmlFiles, listing: Listing) returns (error: Option<PyError>)
    modifies Obj(b)
    ensures Extraction(old(Snapshot(b)), xml, listing).Err? ==> error == Some(TypeError) && Snapshot(b) == old(Snapshot(b))
    ensures Extraction(old(Snapshot(b)), xml, listing).Ok? ==> error == None && Snapshot(b) == Extraction(old(Snapshot(b)), xml, listing).value
  {
    error := None;
    match KindOf(ClassName(Snapshot(b))) {
      case None => error := Some(TypeError);
      case Some(EKind) => EModelExtraction(b, xml);
      case Some(XKind) => XModelExtraction(b, xml);
      case Some(GeoKind) => GeoModelExtraction(b, xml, listing);
    }
  }

  /** The getters each test method prints, outside any `try`. */
  const ETestFields: seq<Scalar> := [RelativeOutput, RelativeUniformity]
  const XTestFields: seq<Scalar> := [RelativeOutput, RelativeUniformity, CenterShift]
  const GeoTestFields: seq<Scalar> := [
    RelativeOutput, RelativeUniformity, CenterShift, CouchLat, CouchLng, CouchVrt,
    GantryAbsolute, CollimationRotationOffset, JawX1, JawX2, JawY1, JawY2]

  /** The getters of the fields, in order. */
  function ScalarGets(fs: seq<Scalar>): (r: seq<Get>)
    ensures |r| == |fs|
    ensures forall k :: 0 <= k < |fs| ==> r[k] == GetScalar(fs[k])
  {
    seq(|fs|, k requires 0 <= k < |fs| => GetScalar(fs[k]))
  }

  const ETestGets: seq<Get> := ScalarGets(ETestFields)
  const XTestGets: seq<Get> := ScalarGets(XTestFields)
  const GeoTestGets: seq<Get> := ScalarGets(GeoTestFields)

  /** Calls the getters in order, stopping at the first that raises. */
  method PrintGetters(b: Beam, gets: seq<Get>) returns (error: Option<PyError>)
    ensures error == Printed(Snapshot(b), gets)
  {
    var i := 0;
    while i < |gets|
      invariant 0 <= i <= |gets|
      invariant forall k :: 0 <= k < i ==> Query(Snapshot(b), gets[k]).Ok?
    {
      var r := Ask(b, gets[i]);
      if r.Err? {
        PrintedFirst(Snapshot(b), gets, i);
        return Some(r.error);
      }
      i := i + 1;
    }
    PrintedCons(Snapshot(b), gets);
    return None;
  }

  /** `testeModelExtraction`, `testxModelExtraction`, `testGeoModelExtraction`: the
      extraction, then the getters, whose exception reaches the caller. */
  method TestEModelExtraction(b: Beam, xml: XmlFiles) returns (error: Option<PyError>)
    modifies Obj(b)
    ensures Snapshot(b) == BeamXmlExtraction(old(Snapshot(b)), xml, false)
    ensures error == Printed(Snapshot(b), ETestGets)
  {
    EModelExtraction(b, xml);
    error := PrintGetters(b, ETestGets);
  }

  method TestXModelExtraction(b: Beam, xml: XmlFiles) returns (error: Option<PyError>)
    modifies Obj(b)
    ensures Snapshot(b) == BeamXmlExtraction(old(Snapshot(b)), xml, true)
    ensures error == Printed(Snapshot(b), XTestGets)
  {
    XModelExtraction(b, xml);
    error := PrintGetters(b, XTestGets);
  }

  method TestGeoModelExtraction(b: Beam, xml: XmlFiles, listing: Listing) returns (error: Option<PyError>)
    modifies Obj(b)
    ensures Snapshot(b) == GeoXmlExtraction(old(Snapshot(b)), xml, listing)
    ensures error == Printed(Snapshot(b), GeoTestGets)
  {
    GeoModelExtraction(b, xml, listing);
    error := PrintGetters(b, GeoTestGets);
  }

  /** The e-test's getters pass exactly on x-ray and geometry records: an
      `EBeamModel` has no `get_relative_output`, so the e-test always fails on it. */
  lemma ETestOutcome(st: BeamState)
    requires Good(st)
    ensures Printed(st, ETestGets) == if st.XS? || st.GS? then None else Some(AttributeError)
  {
    if st.XS? || st.GS? {
      forall k | 0 <= k < |ETestGets| ensures Query(st, ETestGets[k]).Ok? {
        QueryOnGood(st, ETestGets[k]);
      }
    } else {
      var k :| 0 <= k < |ETestGets| && Query(st, ETestGets[k]) == Err(Printed(st, ETestGets).value);
    }
  }

  /** The x-test's getters likewise pass exactly on x-ray and geometry records. */
  lemma XTestOutcome(st: BeamState)
    requires Good(st)
    ensures Printed(st, XTestGets) == if st.XS? || st.GS? then None else Some(AttributeError)
  {
    if st.XS? || st.GS? {
      forall k | 0 <= k < |XTestGets| ensures Query(st, XTestGets[k]).Ok? {
        QueryOnGood(st, XTestGets[k]);
      }
    } else {
      var k :| 0 <= k < |XTestGets| && Query(st, XTestGets[k]) == Err(Printed(st, XTestGets).value);
    }
  }

  /** The geometry test's getters pass exactly on geometry records. */
  lemma GeoTestOutcome(st: BeamState)
    requires Good(st)
    ensures Printed(st, GeoTestGets) == if st.GS? then None else Some(AttributeError)
  {
    if st.GS? {
      forall k | 0 <= k < |GeoTestGets| ensures Query(st, GeoTestGets[k]).Ok? {
        QueryOnGood(st, GeoTestGets[k]);
        assert GeoTestGets[k] == GetScalar(GeoTestFields[k]);
      }
    } else {
      assert Query(st, GeoTestGets[3]).Err?;
      var k :| 0 <= k < |GeoTestGets| && Query(st, GeoTestGets[k]) == Err(Printed(st, GeoTestGets).value);
      assert GeoTestGets[k] == GetScalar(GeoTestFields[k]);
    }
  }

  /** `extractTest`. */
  method ExtractTest(b: Beam, xml: XmlFiles, listing: Listing) returns (error: Option<PyError>)
    modifies Obj(b)
    ensures Extraction(old(Snapshot(b)), xml, listing).Err? ==> error == Some(TypeError) && Snapshot(b) == old(Snapshot(b))
    ensures Extraction(old(Snapshot(b)), xml, listing).Ok? ==> Snapshot(b) == Extraction(old(Snapshot(b)), xml, listing).value
  {
    match KindOf(ClassName(Snapshot(b))) {
      case None => error := Some(TypeError);
      case Some(EKind) => error := TestEModelExtraction(b, xml);
      case Some(XKind) => error := TestXModelExtraction(b, xml);
      case Some(GeoKind) => error := TestGeoModelExtraction(b, xml, listing);
    }
  }
}
