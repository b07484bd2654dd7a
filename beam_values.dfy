/**
 * The stand-alone readers of ETL/ebeam_extractor.py and ETL/xbeam_extractor.py.
 * Each resolves a check folder, reads its Results.xml and returns numbers instead
 * of filling a record:
 *   - `extract_ebeam_values`: relative output and uniformity from the first element
 *     whose `xsi:type` is `BeamProfileCheck`, as percentages;
 *   - `extract_xbeam_values`: the same, plus the beam centre shift from the first
 *     `JawEdgeCheck`'s `IsoCenter` and `BaselineIsoCenter` coordinates.
 * Neither catches anything: a malformed Results.xml raises ParseError and a value
 * `float` rejects raises ValueError. `float` is modelled as the decimal reading of
 * the text turned into a real number, and the arithmetic is exact; the centre shift
 * is returned squared, because the square root is not modelled.
 */
module BeamValues {
  import opened Wrappers
  import opened Text
  import opened PyDecimal
  import opened XmlTree
  import opened XmlExtraction

  // ---------------------------------------------------------------------------
  // Folders
  // ---------------------------------------------------------------------------

  /** `is_ebeam_folder`: the folder name holds 6e, 16e or BeamCheckTemplate. */
  predicate IsEBeamFolder(folder: string)
  {
    var name := Basename(folder);
    Contains(name, "6e") || Contains(name, "16e") || Contains(name, "BeamCheckTemplate")
  }

  /** The 16e test adds nothing: every name holding 16e holds 6e. */
  lemma EBeamFolderIff(folder: string)
    ensures IsEBeamFolder(folder) <==> Contains(Basename(folder), "6e") || Contains(Basename(folder), "BeamCheckTemplate")
  {
    var name := Basename(folder);
    if Contains(name, "16e") {
      SixInSixteen("16e", "6e");
      ContainsTransitive(name, "16e", "6e");
    }
  }

  lemma SixInSixteen(t: string, u: string)
    requires t == "16e" && u == "6e"
    ensures Contains(t, u)
  {
    assert MatchAt(t, u, 1);
  }

  /** `is_xbeam_folder`: the folder name holds 15x, 6x or BeamCheckTemplate. */
  predicate IsXBeamFolder(folder: string)
  {
    var name := Basename(folder);
    Contains(name, "15x") || Contains(name, "6x") || Contains(name, "BeamCheckTemplate")
  }

  /** The folder the readers use: the path itself when it exists, else the path
      joined to the project directory when that exists, else none. `dirs` holds the
      folders that exist and `alt` the second candidate. */
  function Resolve(folder: string, alt: string, dirs: set<string>): (r: Option<string>)
    ensures r.Some? <==> folder in dirs || alt in dirs
    ensures r.Some? ==> r.value in dirs && (r.value == folder || r.value == alt)
    ensures folder in dirs ==> r == Some(folder)
  {
    if folder in dirs then Some(folder) else if alt in dirs then Some(alt) else None
  }

  // ---------------------------------------------------------------------------
  // Reading values
  // ---------------------------------------------------------------------------

  /** `float(text.strip())`: the decimal the text spells, or ValueError. */
  function FloatOf(text: string): (r: Result<real>)
    ensures r.Ok? <==> Parse(Strip(text)).Some?
    ensures r.Ok? ==> r.value == ToReal(Parse(Strip(text)).value)
    ensures r.Err? ==> r.error == ValueError
  {
    match Parse(Strip(text))
    case None => Err(ValueError)
    case Some(d) => Ok(ToReal(d))
  }

  /** `child.text` is truthy: present and not empty. */
  predicate HasText(e: Element)
  {
    e.text.Some? && e.text.value != []
  }

  /** An element whose `xsi:type` attribute (and not a plain `type`) names the type. */
  predicate XsiTyped(e: Element, typeName: string)
  {
    Attr(e, XsiType) == Some(typeName)
  }

  /** The position of the first element of `es` carrying the `xsi:type`. */
  function FirstXsiTyped(es: seq<Element>, typeName: string): (r: Option<nat>)
    ensures r.Some? ==> r.value < |es| && XsiTyped(es[r.value], typeName)
    ensures r.Some? ==> forall j :: 0 <= j < r.value ==> !XsiTyped(es[j], typeName)
    ensures r.None? <==> forall k :: 0 <= k < |es| ==> !XsiTyped(es[k], typeName)
  {
    if es == [] then None
    else if XsiTyped(es[0], typeName) then Some(0)
    else
      match FirstXsiTyped(es[1..], typeName)
      case None => None
      case Some(k) => Some(k + 1)
  }

  /** The `for elem in root.iter(): if ...: ...; break` search: the first element
      carrying the type. */
  function FirstCheck(root: Element, typeName: string): Option<Element>
  {
    match FirstXsiTyped(Iter(root), typeName)
    case None => None
    case Some(k) => Some(Iter(root)[k])
  }

  method FindFirstCheck(root: Element, typeName: string) returns (r: Option<Element>)
    ensures r == FirstCheck(root, typeName)
  {
    var all := Iter(root);
    r := None;
    var i := 0;
    while i < |all|
      invariant 0 <= i <= |all|
      invariant forall k :: 0 <= k < i ==> !XsiTyped(all[k], typeName)
    {
      if Attr(all[i], XsiType) == Some(typeName) {
        r := Some(all[i]);
        return;
      }
      i := i + 1;
    }
  }

  // ---------------------------------------------------------------------------
  // The profile check: relative output and uniformity
  // ---------------------------------------------------------------------------

  /** The two locals `relative_output` and `relative_uniformity`. */
  datatype Profile = Profile(output: Option<real>, uniformity: Option<real>)

  /** One child of the profile check: a non-empty `RelativeOutput` or
      `RelativeUniformity` replaces its value; anything else leaves both. */
  function ProfileStep(acc: Profile, child: Element): (r: Result<Profile>)
    ensures r.Err? ==> r.error == ValueError
    ensures !HasText(child) ==> r == Ok(acc)
    ensures LocalName(child.tag) != "RelativeOutput" && LocalName(child.tag) != "RelativeUniformity" ==> r == Ok(acc)
    ensures r.Ok? ==> r.value.output == acc.output || LocalName(child.tag) == "RelativeOutput"
    ensures r.Ok? ==> r.value.uniformity == acc.uniformity || LocalName(child.tag) == "RelativeUniformity"
  {
    var tag := LocalName(child.tag);
    if tag == "RelativeOutput" && HasText(child) then
      match FloatOf(child.text.value)
      case Err(e) => Err(e)
      case Ok(v) => Ok(acc.(output := Some(v)))
    else if tag == "RelativeUniformity" && HasText(child) then
      match FloatOf(child.text.value)
      case Err(e) => Err(e)
      case Ok(v) => Ok(acc.(uniformity := Some(v)))
    else Ok(acc)
  }

  /** The values after the children in turn; the first `float` failure propagates. */
  function ProfileOf(kids: seq<Element>): (r: Result<Profile>)
    ensures r.Err? ==> r.error == ValueError
    decreases |kids|
  {
    if kids == [] then Ok(Profile(None, None))
    else
      match ProfileOf(kids[..|kids| - 1])
      case Err(e) => Err(e)
      case Ok(acc) => ProfileStep(acc, kids[|kids| - 1])
  }

  /** `for child in elem:` over the profile check. */
  method ReadProfile(check: Element) returns (r: Result<Profile>)
    ensures r == ProfileOf(check.children)
  {
    var kids := check.children;
    var acc := Profile(None, None);
    var i := 0;
    while i < |kids|
      invariant 0 <= i <= |kids|
      invariant ProfileOf(kids[..i]) == Ok(acc)
    {
      assert kids[..i + 1][..i] == kids[..i];
      var step := ProfileStep(acc, kids[i]);
      if step.Err? {
        PrefixError(kids, i + 1);
        return step;
      }
      acc := step.value;
      i := i + 1;
    }
    assert kids[..i] == kids;
    r := Ok(acc);
  }

  /** Once a child raised, the whole loop raised the same. */
  lemma {:induction false} PrefixError(kids: seq<Element>, n: nat)
    requires n <= |kids| && ProfileOf(kids[..n]).Err?
    ensures ProfileOf(kids) == ProfileOf(kids[..n])
    decreases |kids| - n
  {
    if n < |kids| {
      assert kids[..n + 1][..n] == kids[..n];
      PrefixError(kids, n + 1);
    } else {
      assert kids[..n] == kids;
    }
  }

  /** The last child of a loop that completed, and what came before it. */
  lemma LastStep(kids: seq<Element>)
    requires kids != [] && ProfileOf(kids).Ok?
    ensures ProfileOf(kids[..|kids| - 1]).Ok?
    ensures ProfileOf(kids) == ProfileStep(ProfileOf(kids[..|kids| - 1]).value, kids[|kids| - 1])
  {
  }

  /** The last non-empty `RelativeOutput` child decides the output: when the loop
      completes, the output is that child's value. */
  lemma {:induction false} LastOutputWins(kids: seq<Element>, k: nat)
    requires k < |kids| && LocalName(kids[k].tag) == "RelativeOutput" && HasText(kids[k])
    requires forall j :: k < j < |kids| ==> LocalName(kids[j].tag) != "RelativeOutput" || !HasText(kids[j])
    requires ProfileOf(kids).Ok?
    ensures FloatOf(kids[k].text.value).Ok?
    ensures ProfileOf(kids).value.output == Some(FloatOf(kids[k].text.value).value)
    decreases |kids|
  {
    var init := kids[..|kids| - 1];
    LastStep(kids);
    if k < |kids| - 1 {
      assert forall j :: 0 <= j < |init| ==> init[j] == kids[j];
      LastOutputWins(init, k);
    }
  }

  /** The same for `RelativeUniformity`. */
  lemma {:induction false} LastUniformityWins(kids: seq<Element>, k: nat)
    requires k < |kids| && LocalName(kids[k].tag) == "RelativeUniformity" && HasText(kids[k])
    requires forall j :: k < j < |kids| ==> LocalName(kids[j].tag) != "RelativeUniformity" || !HasText(kids[j])
    requires ProfileOf(kids).Ok?
    ensures FloatOf(kids[k].text.value).Ok?
    ensures ProfileOf(kids).value.uniformity == Some(FloatOf(kids[k].text.value).value)
    decreases |kids|
  {
    var init := kids[..|kids| - 1];
    LastStep(kids);
    if k < |kids| - 1 {
      assert forall j :: 0 <= j < |init| ==> init[j] == kids[j];
      LastUniformityWins(init, k);
    }
  }

  /** Without a non-empty `RelativeOutput` child the output stays absent. */
  lemma {:induction false} NoOutputChild(kids: seq<Element>)
    requires forall j :: 0 <= j < |kids| ==> LocalName(kids[j].tag) != "RelativeOutput" || !HasText(kids[j])
    ensures ProfileOf(kids).Ok? ==> ProfileOf(kids).value.output.None?
    decreases |kids|
  {
    if kids != [] {
      var init := kids[..|kids| - 1];
      assert forall j :: 0 <= j < |init| ==> init[j] == kids[j];
      NoOutputChild(init);
    }
  }

  // ---------------------------------------------------------------------------
  // extract_ebeam_values
  // ---------------------------------------------------------------------------

  /** The pair `(output, uniformity)` the e-beam reader returns. */
  datatype EValues = EValues(output: Option<real>, uniformity: Option<real>)

  /** `(relative_output - 1) * 100`. */
  function OutputPercent(ro: real): (r: real)
    ensures r == 0.0 <==> ro == 1.0
    ensures r > 0.0 <==> ro > 1.0
  {
    (ro - 1.0) * 100.0
  }

  /** `relative_uniformity * 100`. */
  function UniformityPercent(ru: real): (r: real)
    ensures r == 0.0 <==> ru == 0.0
    ensures r > 0.0 <==> ru > 0.0
  {
    ru * 100.0
  }

  /** What the e-beam reader makes of a parsed Results.xml: the first profile
      check's values as percentages, or `(None, None)` when there is no check or it
      lacks either value. */
  function EFromRoot(root: Element): (r: Result<EValues>)
    ensures r.Ok? ==> (r.value.output.Some? <==> r.value.uniformity.Some?)
    ensures r.Err? ==> r.error == ValueError
  {
    match FirstCheck(root, "BeamProfileCheck")
    case None => Ok(EValues(None, None))
    case Some(check) =>
      match ProfileOf(check.children)
      case Err(e) => Err(e)
      case Ok(p) =>
        if p.output.None? || p.uniformity.None? then Ok(EValues(None, None))
        else Ok(EValues(Some(OutputPercent(p.output.value)), Some(UniformityPercent(p.uniformity.value))))
  }

  /** `extract_ebeam_values`. */
  function EBeamValues(folder: string, alt: string, dirs: set<string>, xml: XmlFiles): (r: Result<EValues>)
    ensures r.Ok? ==> (r.value.output.Some? <==> r.value.uniformity.Some?)
    ensures r.Err? ==> r.error == ParseError || r.error == ValueError
  {
    match Resolve(folder, alt, dirs)
    case None => Ok(EValues(None, None))
    case Some(f) =>
      var results := Join(f, "Results.xml");
      if results !in xml then Ok(EValues(None, None))
      else if !IsEBeamFolder(f) then Ok(EValues(None, None))
      else
        match xml[results]
        case Malformed => Err(ParseError)
        case Parsed(root) => EFromRoot(root)
  }

  method ExtractEBeamValues(folder: string, alt: string, dirs: set<string>, xml: XmlFiles) returns (r: Result<EValues>)
    ensures r == EBeamValues(folder, alt, dirs, xml)
  {
    var f := folder;
    if folder !in dirs {
      if alt in dirs {
        f := alt;
      } else {
        return Ok(EValues(None, None));
      }
    }
    var results := Join(f, "Results.xml");
    if results !in xml {
      return Ok(EValues(None, None));
    }
    if !IsEBeamFolder(f) {
      return Ok(EValues(None, None));
    }
    if xml[results].Malformed? {
      return Err(ParseError);
    }
    var check := FindFirstCheck(xml[results].root, "BeamProfileCheck");
    if check.None? {
      return Ok(EValues(None, None));
    }
    var p := ReadProfile(check.value);
    if p.Err? {
      return Err(p.error);
    }
    if p.value.output.None? || p.value.uniformity.None? {
      return Ok(EValues(None, None));
    }
    r := Ok(EValues(Some(OutputPercent(p.value.output.value)), Some(UniformityPercent(p.value.uniformity.value))));
  }

  /** A folder without Results.xml gives `(None, None)`, whatever its name; the
      Results.xml check comes first, so nothing is parsed. */
  lemma EMissingResults(folder: string, alt: string, dirs: set<string>, xml: XmlFiles)
    requires var f := Resolve(folder, alt, dirs); f.None? || Join(f.value, "Results.xml") !in xml
    ensures EBeamValues(folder, alt, dirs, xml) == Ok(EValues(None, None))
  {
  }

  /** A folder whose name is not an e-beam one gives `(None, None)` without reading
      its Results.xml, even a malformed one. */
  lemma ENotEBeamFolder(folder: string, alt: string, dirs: set<string>, xml: XmlFiles)
    requires var f := Resolve(folder, alt, dirs); f.Some? && !IsEBeamFolder(f.value)
    ensures EBeamValues(folder, alt, dirs, xml) == Ok(EValues(None, None))
  {
  }

  /** An e-beam folder whose Results.xml parses is read from that file alone. */
  lemma EParsed(folder: string, alt: string, dirs: set<string>, xml: XmlFiles, root: Element)
    requires folder in dirs && IsEBeamFolder(folder)
    requires Join(folder, "Results.xml") in xml && xml[Join(folder, "Results.xml")] == Parsed(root)
    ensures EBeamValues(folder, alt, dirs, xml) == EFromRoot(root)
  {
  }

  /** A malformed Results.xml in an e-beam folder raises ParseError. */
  lemma EMalformed(folder: string, alt: string, dirs: set<string>, xml: XmlFiles)
    requires folder in dirs && IsEBeamFolder(folder)
    requires Join(folder, "Results.xml") in xml && xml[Join(folder, "Results.xml")] == Malformed
    ensures EBeamValues(folder, alt, dirs, xml) == Err(ParseError)
  {
  }

  /** Only the first profile check counts: the result is read from it alone, and
      when it lacks either value the result is `(None, None)`. */
  lemma EFromFirstCheck(root: Element, k: nat)
    requires k < |Iter(root)| && XsiTyped(Iter(root)[k], "BeamProfileCheck")
    requires forall j :: 0 <= j < k ==> !XsiTyped(Iter(root)[j], "BeamProfileCheck")
    requires ProfileOf(Iter(root)[k].children).Ok?
    ensures var p := ProfileOf(Iter(root)[k].children).value;
            EFromRoot(root) ==
              if p.output.None? || p.uniformity.None? then Ok(EValues(None, None))
              else Ok(EValues(Some(OutputPercent(p.output.value)), Some(UniformityPercent(p.uniformity.value))))
  {
    FirstCheckAt(root, "BeamProfileCheck", k);
  }

  /** The first element carrying the type is the one the search returns. */
  lemma FirstCheckAt(root: Element, typeName: string, k: nat)
    requires k < |Iter(root)| && XsiTyped(Iter(root)[k], typeName)
    requires forall j :: 0 <= j < k ==> !XsiTyped(Iter(root)[j], typeName)
    ensures FirstCheck(root, typeName) == Some(Iter(root)[k])
  {
    var r := FirstXsiTyped(Iter(root), typeName);
    if r.Some? && r.value != k {
      assert false;
    }
  }

  // ---------------------------------------------------------------------------
  // The jaw edge check: isocentre and baseline
  // ---------------------------------------------------------------------------

  /** The four locals `iso_x`, `iso_y`, `baseline_iso_x`, `baseline_iso_y`. */
  datatype Iso = Iso(isoX: Option<real>, isoY: Option<real>, baseX: Option<real>, baseY: Option<real>)

  /** One coordinate child: a non-empty `X` or `Y` replaces that coordinate. */
  function CoordStep(acc: (Option<real>, Option<real>), coord: Element): (r: Result<(Option<real>, Option<real>)>)
    ensures r.Err? ==> r.error == ValueError
    ensures !HasText(coord) ==> r == Ok(acc)
    ensures r.Ok? && LocalName(coord.tag) != "X" ==> r.value.0 == acc.0
    ensures r.Ok? && LocalName(coord.tag) != "Y" ==> r.value.1 == acc.1
  {
    var tag := LocalName(coord.tag);
    if tag == "X" && HasText(coord) then
      match FloatOf(coord.text.value)
      case Err(e) => Err(e)
      case Ok(v) => Ok((Some(v), acc.1))
    else if tag == "Y" && HasText(coord) then
      match FloatOf(coord.text.value)
      case Err(e) => Err(e)
      case Ok(v) => Ok((acc.0, Some(v)))
    else Ok(acc)
  }

  /** The coordinates after the coordinate children in turn. */
  function CoordsOf(acc: (Option<real>, Option<real>), coords: seq<Element>): (r: Result<(Option<real>, Option<real>)>)
    ensures r.Err? ==> r.error == ValueError
    decreases |coords|
  {
    if coords == [] then Ok(acc)
    else
      match CoordsOf(acc, coords[..|coords| - 1])
      case Err(e) => Err(e)
      case Ok(a) => CoordStep(a, coords[|coords| - 1])
  }

  /** One child of the jaw edge check: `IsoCenter` and `BaselineIsoCenter` update
      their pair from their coordinate children, anything else changes nothing. */
  function IsoStep(acc: Iso, child: Element): (r: Result<Iso>)
    ensures r.Err? ==> r.error == ValueError
    ensures LocalName(child.tag) != "IsoCenter" && LocalName(child.tag) != "BaselineIsoCenter" ==> r == Ok(acc)
    ensures r.Ok? && LocalName(child.tag) != "IsoCenter" ==> r.value.isoX == acc.isoX && r.value.isoY == acc.isoY
    ensures r.Ok? && LocalName(child.tag) != "BaselineIsoCenter" ==> r.value.baseX == acc.baseX && r.value.baseY == acc.baseY
  {
    var tag := LocalName(child.tag);
    if tag == "IsoCenter" then
      match CoordsOf((acc.isoX, acc.isoY), child.children)
      case Err(e) => Err(e)
      case Ok(c) => Ok(acc.(isoX := c.0, isoY := c.1))
    else if tag == "BaselineIsoCenter" then
      match CoordsOf((acc.baseX, acc.baseY), child.children)
      case Err(e) => Err(e)
      case Ok(c) => Ok(acc.(baseX := c.0, baseY := c.1))
    else Ok(acc)
  }

  /** The four coordinates after the check's children in turn. */
  function IsoOf(kids: seq<Element>): (r: Result<Iso>)
    ensures r.Err? ==> r.error == ValueError
    decreases |kids|
  {
    if kids == [] then Ok(Iso(None, None, None, None))
    else
      match IsoOf(kids[..|kids| - 1])
      case Err(e) => Err(e)
      case Ok(acc) => IsoStep(acc, kids[|kids| - 1])
  }

  /** `for coord in child:`. */
  method ReadCoords(acc0: (Option<real>, Option<real>), coords: seq<Element>) returns (r: Result<(Option<real>, Option<real>)>)
    ensures r == CoordsOf(acc0, coords)
  {
    var acc := acc0;
    var i := 0;
    while i < |coords|
      invariant 0 <= i <= |coords|
      invariant CoordsOf(acc0, coords[..i]) == Ok(acc)
    {
      assert coords[..i + 1][..i] == coords[..i];
      var step := CoordStep(acc, coords[i]);
      if step.Err? {
        CoordsPrefixError(acc0, coords, i + 1);
        return step;
      }
      acc := step.value;
      i := i + 1;
    }
    assert coords[..i] == coords;
    r := Ok(acc);
  }

  lemma {:induction false} CoordsPrefixError(acc0: (Option<real>, Option<real>), coords: seq<Element>, n: nat)
    requires n <= |coords| && CoordsOf(acc0, coords[..n]).Err?
    ensures CoordsOf(acc0, coords) == CoordsOf(acc0, coords[..n])
    decreases |coords| - n
  {
    if n < |coords| {
      assert coords[..n + 1][..n] == coords[..n];
      CoordsPrefixError(acc0, coords, n + 1);
    } else {
      assert coords[..n] == coords;
    }
  }

  /** `for child in elem:` over the jaw edge check, with its inner loops. */
  method ReadIso(check: Element) returns (r: Result<Iso>)
    ensures r == IsoOf(check.children)
  {
    var kids := check.children;
    var acc := Iso(None, None, None, None);
    var i := 0;
    while i < |kids|
      invariant 0 <= i <= |kids|
      invariant IsoOf(kids[..i]) == Ok(acc)
    {
      var step := ReadIsoNext(kids, i, acc);
      if step.Err? {
        IsoPrefixError(kids, i + 1);
        return step;
      }
      acc := step.value;
      i := i + 1;
    }
    assert kids[..i] == kids;
    r := Ok(acc);
  }

  /** One more child of the loop. */
  lemma IsoNext(kids: seq<Element>, i: nat)
    requires i < |kids| && IsoOf(kids[..i]).Ok?
    ensures IsoOf(kids[..i + 1]) == IsoStep(IsoOf(kids[..i]).value, kids[i])
  {
    assert kids[..i + 1][..i] == kids[..i];
  }

  /** The loop's step: the next child read on top of the values so far. */
  method ReadIsoNext(kids: seq<Element>, i: nat, acc: Iso) returns (step: Result<Iso>)
    requires i < |kids| && IsoOf(kids[..i]) == Ok(acc)
    ensures step == IsoOf(kids[..i + 1])
  {
    step := ReadIsoChild(acc, kids[i]);
    IsoNext(kids, i);
  }

  /** One child of the jaw edge check, with its inner `for coord in child:`. */
  method ReadIsoChild(acc: Iso, child: Element) returns (step: Result<Iso>)
    ensures step == IsoStep(acc, child)
  {
    var tag := LocalName(child.tag);
    step := Ok(acc);
    if tag == "IsoCenter" {
      var c := ReadCoords((acc.isoX, acc.isoY), child.children);
      step := if c.Err? then Err(c.error) else Ok(acc.(isoX := c.value.0, isoY := c.value.1));
    } else if tag == "BaselineIsoCenter" {
      var c := ReadCoords((acc.baseX, acc.baseY), child.children);
      step := if c.Err? then Err(c.error) else Ok(acc.(baseX := c.value.0, baseY := c.value.1));
    }
  }

  lemma {:induction false} IsoPrefixError(kids: seq<Element>, n: nat)
    requires n <= |kids| && IsoOf(kids[..n]).Err?
    ensures IsoOf(kids) == IsoOf(kids[..n])
    decreases |kids| - n
  {
    if n < |kids| {
      assert kids[..n + 1][..n] == kids[..n];
      IsoPrefixError(kids, n + 1);
    } else {
      assert kids[..n] == kids;
    }
  }

  // ---------------------------------------------------------------------------
  // extract_xbeam_values
  // ---------------------------------------------------------------------------

  /** The triple `(output, uniformity, center_shift)`, with the centre shift squared. */
  datatype XValues = XValues(output: Option<real>, uniformity: Option<real>, shiftSquared: Option<real>)

  /** `d * d`. */
  function Sq(d: real): real
  {
    d * d
  }

  /** `center_shift ** 2` for `center_shift = sqrt(dx*dx + dy*dy) * 10`. */
  function ShiftSquared(isoX: real, isoY: real, baseX: real, baseY: real): real
  {
    (Sq(isoX - baseX) + Sq(isoY - baseY)) * 100.0
  }

  /** The shift is never negative, and it is zero exactly when the isocentre is on
      its baseline. */
  lemma ShiftSquaredZero(isoX: real, isoY: real, baseX: real, baseY: real)
    ensures ShiftSquared(isoX, isoY, baseX, baseY) >= 0.0
    ensures ShiftSquared(isoX, isoY, baseX, baseY) == 0.0 <==> isoX == baseX && isoY == baseY
  {
    SqSign(isoX - baseX);
    SqSign(isoY - baseY);
  }

  /** A square is never negative, and zero only for zero. */
  lemma SqSign(d: real)
    ensures Sq(d) >= 0.0
    ensures Sq(d) == 0.0 <==> d == 0.0
  {
    if d != 0.0 {
      PositiveSquare(d);
    }
  }

  predicate IsPositive(x: real)
  {
    x > 0.0
  }

  lemma PositiveSquare(d: real)
    requires d != 0.0
    ensures IsPositive(d * d)
  {
    if d < 0.0 {
      assert d * d == (-d) * (-d);
    }
  }

  /** The centre shift, computed only when all four coordinates were found. */
  function ShiftOf(iso: Iso): (r: Option<real>)
    ensures r.Some? <==> iso.isoX.Some? && iso.isoY.Some? && iso.baseX.Some? && iso.baseY.Some?
    ensures r.Some? ==> r.value >= 0.0
  {
    if iso.isoX.Some? && iso.isoY.Some? && iso.baseX.Some? && iso.baseY.Some? then
      ShiftSquaredZero(iso.isoX.value, iso.isoY.value, iso.baseX.value, iso.baseY.value);
      Some(ShiftSquared(iso.isoX.value, iso.isoY.value, iso.baseX.value, iso.baseY.value))
    else None
  }

  /** The profile half of the x-beam reader: no check gives both values absent. */
  function XProfile(root: Element): Result<Profile>
  {
    match FirstCheck(root, "BeamProfileCheck")
    case None => Ok(Profile(None, None))
    case Some(check) => ProfileOf(check.children)
  }

  /** The jaw edge half: no check gives all four coordinates absent. */
  function XIso(root: Element): Result<Iso>
  {
    match FirstCheck(root, "JawEdgeCheck")
    case None => Ok(Iso(None, None, None, None))
    case Some(check) => IsoOf(check.children)
  }

  /** What the x-beam reader makes of a parsed Results.xml. Both checks are read,
      and either may raise, before the missing-value test. */
  function XFromRoot(root: Element): (r: Result<XValues>)
    ensures r.Ok? ==> (r.value.output.Some? <==> r.value.uniformity.Some?)
    ensures r.Ok? && r.value.output.None? ==> r.value.shiftSquared.None?
    ensures r.Ok? && r.value.shiftSquared.Some? ==> r.value.shiftSquared.value >= 0.0
    ensures r.Err? ==> r.error == ValueError
  {
    match XProfile(root)
    case Err(e) => Err(e)
    case Ok(p) =>
      match XIso(root)
      case Err(e) => Err(e)
      case Ok(iso) =>
        if p.output.None? || p.uniformity.None? then Ok(XValues(None, None, None))
        else Ok(XValues(Some(OutputPercent(p.output.value)), Some(UniformityPercent(p.uniformity.value)), ShiftOf(iso)))
  }

  /** `extract_xbeam_values`. */
  function XBeamValues(folder: string, alt: string, dirs: set<string>, xml: XmlFiles): (r: Result<XValues>)
    ensures r.Ok? ==> (r.value.output.Some? <==> r.value.uniformity.Some?)
    ensures r.Ok? && r.value.output.None? ==> r.value.shiftSquared.None?
    ensures r.Ok? && r.value.shiftSquared.Some? ==> r.value.shiftSquared.value >= 0.0
    ensures r.Err? ==> r.error == ParseError || r.error == ValueError
  {
    match Resolve(folder, alt, dirs)
    case None => Ok(XValues(None, None, None))
    case Some(f) =>
      var results := Join(f, "Results.xml");
      if results !in xml then Ok(XValues(None, None, None))
      else if !IsXBeamFolder(f) then Ok(XValues(None, None, None))
      else
        match xml[results]
        case Malformed => Err(ParseError)
        case Parsed(root) => XFromRoot(root)
  }

  method ExtractXBeamValues(folder: string, alt: string, dirs: set<string>, xml: XmlFiles) returns (r: Result<XValues>)
    ensures r == XBeamValues(folder, alt, dirs, xml)
  {
    var f := folder;
    if folder !in dirs {
      if alt in dirs {
        f := alt;
      } else {
        return Ok(XValues(None, None, None));
      }
    }
    var results := Join(f, "Results.xml");
    if results !in xml {
      return Ok(XValues(None, None, None));
    }
    if !IsXBeamFolder(f) {
      return Ok(XValues(None, None, None));
    }
    if xml[results].Malformed? {
      return Err(ParseError);
    }
    var root := xml[results].root;
    var p: Result<Profile> := Ok(Profile(None, None));
    var check := FindFirstCheck(root, "BeamProfileCheck");
    if check.Some? {
      p := ReadProfile(check.value);
    }
    if p.Err? {
      return Err(p.error);
    }
    var iso: Result<Iso> := Ok(Iso(None, None, None, None));
    var jaw := FindFirstCheck(root, "JawEdgeCheck");
    if jaw.Some? {
      iso := ReadIso(jaw.value);
    }
    if iso.Err? {
      return Err(iso.error);
    }
    var shift := ShiftOf(iso.value);
    if p.value.output.None? || p.value.uniformity.None? {
      return Ok(XValues(None, None, None));
    }
    r := Ok(XValues(Some(OutputPercent(p.value.output.value)), Some(UniformityPercent(p.value.uniformity.value)), shift));
  }

  /** A folder without Results.xml, or one whose name is not an x-beam one, gives
      `(None, None, None)` without parsing anything. */
  lemma XNoResultsOrNotXBeam(folder: string, alt: string, dirs: set<string>, xml: XmlFiles)
    requires var f := Resolve(folder, alt, dirs);
             f.None? || Join(f.value, "Results.xml") !in xml || !IsXBeamFolder(f.value)
    ensures XBeamValues(folder, alt, dirs, xml) == Ok(XValues(None, None, None))
  {
  }

  /** An x-beam folder whose Results.xml parses is read from that file alone. */
  lemma XParsed(folder: string, alt: string, dirs: set<string>, xml: XmlFiles, root: Element)
    requires folder in dirs && IsXBeamFolder(folder)
    requires Join(folder, "Results.xml") in xml && xml[Join(folder, "Results.xml")] == Parsed(root)
    ensures XBeamValues(folder, alt, dirs, xml) == XFromRoot(root)
  {
  }

  /** A missing output or uniformity makes every value absent, even a centre shift
      that was found. */
  lemma XMissingProfileValue(root: Element)
    requires XProfile(root).Ok? && XIso(root).Ok?
    requires XProfile(root).value.output.None? || XProfile(root).value.uniformity.None?
    ensures XFromRoot(root) == Ok(XValues(None, None, None))
  {
  }

  /** With both profile values found, the result is their percentages and the
      centre shift from the first jaw edge check, absent unless all four of its
      coordinates were found. */
  lemma XFound(root: Element)
    requires XProfile(root).Ok? && XIso(root).Ok?
    requires XProfile(root).value.output.Some? && XProfile(root).value.uniformity.Some?
    ensures var p := XProfile(root).value;
            var iso := XIso(root).value;
            XFromRoot(root) == Ok(XValues(Some(OutputPercent(p.output.value)), Some(UniformityPercent(p.uniformity.value)), ShiftOf(iso)))
    ensures var iso := XIso(root).value;
            XFromRoot(root).value.shiftSquared.Some? <==>
              iso.isoX.Some? && iso.isoY.Some? && iso.baseX.Some? && iso.baseY.Some?
  {
  }

  /** A value the profile check holds that `float` rejects raises ValueError, even
      when the jaw edge check is fine. */
  lemma XProfileRaises(root: Element)
    requires XProfile(root).Err?
    ensures XFromRoot(root) == Err(ValueError)
  {
  }
}
