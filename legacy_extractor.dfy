/**
 * The legacy XML extractor of scripts/Extractor.py. Its e-beam methods would scan
 * every element of Results.xml for the exact tags `RelativeUniformity` and
 * `RelativeOutput`, keep the text of the last of each, and then call the record's
 * setters with that text. As written, both first call `eBeam.getPath()`, which no
 * record class defines; the AttributeError is caught by the method's own `except
 * Exception`, so neither method changes the record. The scan and the setter calls
 * that follow it are modelled as members of their own.
 */
module LegacyExtraction {
  import opened Wrappers
  import opened PyDecimal
  import opened XmlTree
  import opened EBeam
  import opened Geo6xfff
  import opened Beams

  const UniformityTag: string := "RelativeUniformity"
  const OutputTag: string := "RelativeOutput"

  /** The value the scan leaves for `tag`: the text of the last element of `es` whose
      tag is exactly `tag`, or None when there is no such element (or that element
      has no text). */
  function LastText(es: seq<Element>, tag: string): Option<string>
    decreases |es|
  {
    if es == [] then None
    else if es[|es| - 1].tag == tag then es[|es| - 1].text
    else LastText(es[..|es| - 1], tag)
  }

  /** The last element with the tag decides the value. */
  lemma {:induction false} LastTextAt(es: seq<Element>, tag: string, k: nat)
    requires k < |es| && es[k].tag == tag
    requires forall j :: k < j < |es| ==> es[j].tag != tag
    ensures LastText(es, tag) == es[k].text
    decreases |es|
  {
    if k < |es| - 1 {
      var init := es[..|es| - 1];
      assert forall j :: 0 <= j < |init| ==> init[j] == es[j];
      LastTextAt(init, tag, k);
    }
  }

  /** Without an element carrying exactly the tag the value stays None. */
  lemma {:induction false} LastTextAbsent(es: seq<Element>, tag: string)
    requires forall j :: 0 <= j < |es| ==> es[j].tag != tag
    ensures LastText(es, tag) == None
    decreases |es|
  {
    if es != [] {
      var init := es[..|es| - 1];
      assert forall j :: 0 <= j < |init| ==> init[j] == es[j];
      LastTextAbsent(init, tag);
    }
  }

  /** Tags are compared exactly: when every tag carries a `{namespace}` prefix,
      neither tag is ever found. */
  lemma NamespacedNeverMatch(es: seq<Element>)
    requires forall j :: 0 <= j < |es| ==> |es[j].tag| > 0 && es[j].tag[0] == '{'
    ensures LastText(es, UniformityTag) == None && LastText(es, OutputTag) == None
  {
    forall j | 0 <= j < |es|
      ensures es[j].tag != UniformityTag && es[j].tag != OutputTag
    {
      assert UniformityTag[0] == 'R' && OutputTag[0] == 'R';
    }
    LastTextAbsent(es, UniformityTag);
    LastTextAbsent(es, OutputTag);
  }

  /** The `for elem in root.iter()` loop: in document order, each element tagged
      `RelativeUniformity` or `RelativeOutput` overwrites that variable with its text. */
  method ScanTags(root: Element) returns (uniformity: Option<string>, output: Option<string>)
    ensures uniformity == LastText(Iter(root), UniformityTag)
    ensures output == LastText(Iter(root), OutputTag)
  {
    var all := Iter(root);
    uniformity, output := None, None;
    var i := 0;
    while i < |all|
      invariant 0 <= i <= |all|
      invariant uniformity == LastText(all[..i], UniformityTag)
      invariant output == LastText(all[..i], OutputTag)
    {
      var elem := all[i];
      assert all[..i + 1][..i] == all[..i];
      if elem.tag == UniformityTag {
        uniformity := elem.text;
      } else if elem.tag == OutputTag {
        output := elem.text;
      }
      i := i + 1;
    }
    assert all[..i] == all;
  }

  /** One coercing setter call with the raw text: `Decimal(str(text))` raises
      InvalidOperation for text that is not a number. */
  function TextOp(text: string, call: Decimal -> Call): (r: Op)
    ensures Parse(text).Some? ==> r == Do(call(Parse(text).value))
    ensures Parse(text).None? ==> r == Raise(InvalidOperation)
  {
    match Parse(text)
    case Some(d) => Do(call(d))
    case None => Raise(InvalidOperation)
  }

  function SetUniformity(d: Decimal): Call { SetScalar(RelativeUniformity, d) }

  function SetOut(d: Decimal): Call { SetRelativeOut(d) }

  /** The statements after the scan: `set_relative_uniformity` when a uniformity text
      was found, then `set_relative_out` when an output text was found. */
  function TailPlan(uniformity: Option<string>, output: Option<string>): (r: seq<Op>)
    ensures |r| == (if uniformity.Some? then 1 else 0) + (if output.Some? then 1 else 0)
    ensures uniformity.Some? ==> r[0] == TextOp(uniformity.value, SetUniformity)
    ensures output.Some? ==> r[|r| - 1] == TextOp(output.value, SetOut)
  {
    (if uniformity.Some? then [TextOp(uniformity.value, SetUniformity)] else [])
    + (if output.Some? then [TextOp(output.value, SetOut)] else [])
  }

  /** On an `EBeamModel`, two numeric texts end up in the two fields, converted. */
  lemma TailOnEBeam(e: EState, u: string, o: string)
    requires Parse(u).Some? && Parse(o).Some?
    ensures Run(ES(e), TailPlan(Some(u), Some(o)))
         == Outcome(ES(e.(relativeUniformity := Parse(u).value, relativeOut := Parse(o).value)), None)
  {
    var du, dout := Parse(u).value, Parse(o).value;
    var plan := TailPlan(Some(u), Some(o));
    assert plan == [Do(SetUniformity(du)), Do(SetOut(dout))];
    TwoSetters(e, du, dout);
  }

  lemma TwoSetters(e: EState, du: Decimal, dout: Decimal)
    ensures Run(ES(e), [Do(SetUniformity(du)), Do(SetOut(dout))])
         == Outcome(ES(e.(relativeUniformity := du, relativeOut := dout)), None)
  {
    var plan := [Do(SetUniformity(du)), Do(SetOut(dout))];
    var s1 := ES(e.(relativeUniformity := du));
    var s2 := ES(e.(relativeUniformity := du, relativeOut := dout));
    assert Apply(ES(e), SetUniformity(du)) == Some(s1);
    assert Apply(s1, SetOut(dout)) == Some(s2);
    assert plan[1..] == [Do(SetOut(dout))];
    assert Run(s1, plan[1..]) == Run(s2, []);
  }

  /** A uniformity text that is not a number stops the tail before any setter runs. */
  lemma TailBadUniformity(st: BeamState, u: string, output: Option<string>)
    requires Parse(u).None?
    ensures Run(st, TailPlan(Some(u), output)) == Outcome(st, Some(InvalidOperation))
  {
  }

  /** Nothing found, nothing set. */
  lemma TailNothingFound(st: BeamState)
    ensures Run(st, TailPlan(None, None)) == Outcome(st, None)
  {
  }

  /** `eModelExtraction`. The first statement, `eBeam.getPath()`, names a method no
      record class has; the AttributeError it raises is caught and printed, and the
      record is left as it was. */
  method EModelExtraction(b: Beam)
    modifies Obj(b)
    ensures Snapshot(b) == old(Snapshot(b))
  {
  }

  /** `testeModelExtraction`: the same scan followed by prints; it stops at the same
      `getPath()` call and never sets anything. */
  method TestEModelExtraction(b: Beam)
    modifies Obj(b)
    ensures Snapshot(b) == old(Snapshot(b))
  {
  }

  /** `xModelExtraction` is `pass`. */
  method XModelExtraction(b: Beam)
    modifies Obj(b)
    ensures Snapshot(b) == old(Snapshot(b))
  {
  }

  /** `geoModelExtraction` is `pass`. */
  method GeoModelExtraction(b: Beam)
    modifies Obj(b)
    ensures Snapshot(b) == old(Snapshot(b))
  {
  }
}
