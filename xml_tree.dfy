/**
 * The parts of `xml.etree.ElementTree` the XML extractor relies on, over an
 * already-parsed tree: an element's tag (with its namespace as `{uri}` in front),
 * attributes, text and children; `iter()` in document order; `find` and `findall`
 * with a plain tag, which look at direct children only; and the extractor's own
 * helpers `_find_elements_by_type` and `_find_in_default_ns`.
 */
module XmlTree {
  import opened Wrappers
  import opened Text

  datatype Element = Element(tag: string, attrs: map<string, string>, text: Option<string>, children: seq<Element>)

  /** `elem.iter()`: the element, then the elements under each child in turn. */
  function Iter(e: Element): (r: seq<Element>)
    ensures |r| >= 1 && r[0] == e
    decreases e, 1
  {
    [e] + IterAll(e.children)
  }

  function IterAll(cs: seq<Element>): (r: seq<Element>)
    decreases cs, 0
  {
    if cs == [] then [] else Iter(cs[0]) + IterAll(cs[1..])
  }

  /** Every child comes right after its earlier siblings' subtrees. */
  lemma {:induction false} ChildInIterAll(cs: seq<Element>, k: int)
    requires 0 <= k < |cs|
    ensures cs[k] in IterAll(cs)
    decreases cs
  {
    if k > 0 {
      ChildInIterAll(cs[1..], k - 1);
    }
  }

  /** An element's children are among what `iter()` yields. */
  lemma ChildrenInIter(e: Element, c: Element)
    requires c in e.children
    ensures c in Iter(e)
  {
    var k :| 0 <= k < |e.children| && e.children[k] == c;
    ChildInIterAll(e.children, k);
  }

  /** The local name, `tag.split('}')[-1]` when the tag holds a '}', else the tag. */
  function LocalName(tag: string): (r: string)
    ensures '}' !in tag ==> r == tag
  {
    match LastIndexOf(tag, '}')
    case None => tag
    case Some(i) => tag[i + 1..]
  }

  /** The local name is the part of the tag after its last '}'. */
  lemma LocalNameShape(tag: string)
    ensures EndsWith(tag, LocalName(tag))
    ensures '}' !in LocalName(tag)
    ensures LocalName(tag) == tag || tag[|tag| - |LocalName(tag)| - 1] == '}'
  {
    match LastIndexOf(tag, '}')
    case None =>
    case Some(i) =>
      var rest := tag[i + 1..];
      assert forall j :: 0 <= j < |rest| ==> rest[j] == tag[i + 1 + j];
  }

  /** `x` is the element at some position of `cs` with that tag, and no earlier one has it. */
  predicate IsFirstTagged(cs: seq<Element>, x: Element, tag: string)
  {
    exists k :: 0 <= k < |cs| && cs[k] == x && x.tag == tag && forall j :: 0 <= j < k ==> cs[j].tag != tag
  }

  /** `elem.find(tag)` for a plain tag: the first direct child with exactly that tag. */
  function FindChild(e: Element, tag: string): (r: Option<Element>)
    ensures r.Some? ==> r.value in e.children && r.value.tag == tag
    ensures r.Some? ==> IsFirstTagged(e.children, r.value, tag)
    ensures r.None? <==> forall k :: 0 <= k < |e.children| ==> e.children[k].tag != tag
  {
    match FirstTaggedAt(e.children, tag)
    case None => None
    case Some(k) =>
      assert IsFirstTagged(e.children, e.children[k], tag);
      Some(e.children[k])
  }

  /** The position of the first element of `cs` with exactly that tag. */
  function FirstTaggedAt(cs: seq<Element>, tag: string): (r: Option<nat>)
    ensures r.Some? ==> r.value < |cs| && cs[r.value].tag == tag && forall j :: 0 <= j < r.value ==> cs[j].tag != tag
    ensures r.None? <==> forall k :: 0 <= k < |cs| ==> cs[k].tag != tag
  {
    if cs == [] then None
    else if cs[0].tag == tag then Some(0)
    else
      match FirstTaggedAt(cs[1..], tag)
      case None => None
      case Some(k) => Some(k + 1)
  }

  /** `elem.findall(tag)` for a plain tag: the direct children with exactly that tag,
      in order. */
  function FindAllChildren(e: Element, tag: string): (r: seq<Element>)
    ensures forall x :: x in r <==> x in e.children && x.tag == tag
  {
    Tagged(e.children, tag)
  }

  /** `findall` keeps document order: cutting the children anywhere, the matches
      before the cut come first, then those after it. */
  lemma FindAllChildrenOrder(e: Element, tag: string, i: nat)
    requires i <= |e.children|
    ensures FindAllChildren(e, tag) == Tagged(e.children[..i], tag) + Tagged(e.children[i..], tag)
  {
    assert e.children == e.children[..i] + e.children[i..];
    TaggedAppend(e.children[..i], e.children[i..], tag);
  }

  /** Filtering a concatenation filters each part, in order. */
  lemma {:induction false} TaggedAppend(a: seq<Element>, b: seq<Element>, tag: string)
    ensures Tagged(a + b, tag) == Tagged(a, tag) + Tagged(b, tag)
    decreases |a|
  {
    if a == [] {
      assert a + b == b;
    } else {
      assert (a + b)[0] == a[0];
      assert (a + b)[1..] == a[1..] + b;
      TaggedAppend(a[1..], b, tag);
    }
  }

  /** A single element is kept exactly when it has the tag. */
  lemma TaggedSingle(x: Element, tag: string)
    ensures Tagged([x], tag) == if x.tag == tag then [x] else []
  {
    assert [x][1..] == [];
  }

  function Tagged(cs: seq<Element>, tag: string): (r: seq<Element>)
    ensures forall x :: x in r <==> x in cs && x.tag == tag
    ensures |r| <= |cs|
  {
    if cs == [] then []
    else
      var rest := Tagged(cs[1..], tag);
      assert forall x :: x in cs <==> x == cs[0] || x in cs[1..];
      if cs[0].tag == tag then [cs[0]] + rest else rest
  }

  /** `elem.get(attr)`. */
  function Attr(e: Element, name: string): (r: Option<string>)
    ensures r.Some? <==> name in e.attrs
    ensures r.Some? ==> r.value == e.attrs[name]
  {
    if name in e.attrs then Some(e.attrs[name]) else None
  }

  const XsiType: string := "{http://www.w3.org/2001/XMLSchema-instance}type"

  /** The element's `xsi:type` attribute, or else its plain `type` one, equals the name. */
  predicate HasType(e: Element, typeName: string)
  {
    Attr(e, XsiType) == Some(typeName) || Attr(e, "type") == Some(typeName)
  }

  /** The elements of `es` that carry the type, in order. */
  function OfType(es: seq<Element>, typeName: string): (r: seq<Element>)
    ensures |r| <= |es|
  {
    if es == [] then []
    else if HasType(es[0], typeName) then [es[0]] + OfType(es[1..], typeName)
    else OfType(es[1..], typeName)
  }

  lemma {:induction false} OfTypeMembers(es: seq<Element>, typeName: string)
    ensures forall x :: x in OfType(es, typeName) <==> x in es && HasType(x, typeName)
    decreases |es|
  {
    if es != [] {
      OfTypeMembers(es[1..], typeName);
      assert forall x :: x in es <==> x == es[0] || x in es[1..];
    }
  }

  lemma {:induction false} OfTypeSnoc(es: seq<Element>, x: Element, typeName: string)
    ensures OfType(es + [x], typeName) == OfType(es, typeName) + (if HasType(x, typeName) then [x] else [])
    decreases |es|
  {
    if es == [] {
      assert [] + [x] == [x];
    } else {
      assert (es + [x])[1..] == es[1..] + [x];
      OfTypeSnoc(es[1..], x, typeName);
    }
  }

  /** `_find_elements_by_type`: every element, in document order, whose `xsi:type`
      or `type` attribute is `typeName`; the inner `break` keeps an element that has
      both from being taken twice. */
  method FindElementsByType(root: Element, typeName: string) returns (elements: seq<Element>)
    ensures elements == OfType(Iter(root), typeName)
    ensures forall x :: x in elements <==> x in Iter(root) && HasType(x, typeName)
  {
    var all := Iter(root);
    elements := [];
    var i := 0;
    while i < |all|
      invariant 0 <= i <= |all|
      invariant elements == OfType(all[..i], typeName)
    {
      var elem := all[i];
      var typeAttrs := [XsiType, "type"];
      var j := 0;
      var matched := false;
      while j < |typeAttrs|
        invariant 0 <= j <= |typeAttrs|
        invariant !matched ==> elements == OfType(all[..i], typeName)
        invariant !matched ==> forall k :: 0 <= k < j ==> Attr(elem, typeAttrs[k]) != Some(typeName)
        invariant matched ==> elements == OfType(all[..i], typeName) + [elem] && HasType(elem, typeName)
      {
        if Attr(elem, typeAttrs[j]) == Some(typeName) {
          elements := elements + [elem];
          matched := true;
          break;
        }
        j := j + 1;
      }
      if !matched {
        assert Attr(elem, typeAttrs[0]) != Some(typeName) && Attr(elem, typeAttrs[1]) != Some(typeName);
      }
      assert all[..i + 1] == all[..i] + [elem];
      OfTypeSnoc(all[..i], elem, typeName);
      i := i + 1;
    }
    assert all[..i] == all;
    OfTypeMembers(all, typeName);
  }

  /** `x` is the element at some position of `es` with that local name, and no
      earlier one has it. */
  predicate IsFirstLocal(es: seq<Element>, x: Element, name: string)
  {
    exists k :: 0 <= k < |es| && es[k] == x && LocalName(x.tag) == name
      && forall j :: 0 <= j < k ==> LocalName(es[j].tag) != name
  }

  /** The first element of `es` whose local name is `name`. */
  function FirstLocal(es: seq<Element>, name: string): (r: Option<Element>)
    ensures r.Some? ==> r.value in es && LocalName(r.value.tag) == name
    ensures r.Some? ==> IsFirstLocal(es, r.value, name)
    ensures r.None? <==> forall k :: 0 <= k < |es| ==> LocalName(es[k].tag) != name
  {
    match FirstLocalFrom(es, name, 0)
    case None => None
    case Some(k) =>
      assert IsFirstLocal(es, es[k], name);
      Some(es[k])
  }

  /** The position of the first element of `es`, at or after `from`, whose local
      name is `name`. */
  function FirstLocalFrom(es: seq<Element>, name: string, from: nat): (r: Option<nat>)
    ensures r.Some? ==> from <= r.value < |es| && LocalName(es[r.value].tag) == name
    ensures r.Some? ==> forall j :: from <= j < r.value ==> LocalName(es[j].tag) != name
    ensures r.None? <==> forall k :: from <= k < |es| ==> LocalName(es[k].tag) != name
    decreases |es| - from
  {
    if from >= |es| then None
    else
      var here := LocalName(es[from].tag);
      if here == name then Some(from) else FirstLocalFrom(es, name, from + 1)
  }

  /** `x` is the element at some position of `es` whose tag ends with the name, and
      no earlier one's does. */
  predicate IsFirstEnding(es: seq<Element>, x: Element, name: string)
  {
    exists k :: 0 <= k < |es| && es[k] == x && EndsWith(x.tag, name)
      && forall j :: 0 <= j < k ==> !EndsWith(es[j].tag, name)
  }

  /** The first element of `es` whose tag is or ends with `name`. */
  function FirstEndingWith(es: seq<Element>, name: string): (r: Option<Element>)
    ensures r.Some? ==> r.value in es && EndsWith(r.value.tag, name)
    ensures r.Some? ==> IsFirstEnding(es, r.value, name)
    ensures r.None? <==> forall k :: 0 <= k < |es| ==> !EndsWith(es[k].tag, name)
  {
    match FirstEndingFrom(es, name, 0)
    case None => None
    case Some(k) =>
      assert IsFirstEnding(es, es[k], name);
      Some(es[k])
  }

  /** The position of the first element of `es`, at or after `from`, whose tag is
      or ends with `name`. */
  function FirstEndingFrom(es: seq<Element>, name: string, from: nat): (r: Option<nat>)
    ensures r.Some? ==> from <= r.value < |es| && EndsWith(es[r.value].tag, name)
    ensures r.Some? ==> forall j :: from <= j < r.value ==> !EndsWith(es[j].tag, name)
    ensures r.None? <==> forall k :: from <= k < |es| ==> !EndsWith(es[k].tag, name)
    decreases |es| - from
  {
    if from >= |es| then None
    else if EndsWith(es[from].tag, name) || es[from].tag == name then Some(from)
    else FirstEndingFrom(es, name, from + 1)
  }

  const MpcNamespace: string := "http:/www.varian.com/MPC"

  /** The name qualified by the default namespace, as ElementTree writes it. */
  function DefaultNsTag(name: string): string
  {
    "{" + MpcNamespace + "}" + name
  }

  /** `_find_in_default_ns` with its default namespace: the first direct child
      tagged `{http:/www.varian.com/MPC}name`; failing that, the first element of
      `parent.iter()`, the parent itself included, whose tag ends with the name. */
  function FindInDefaultNs(parent: Element, name: string): (r: Option<Element>)
    ensures r.Some? ==> r.value in Iter(parent) && EndsWith(r.value.tag, name)
    ensures r.None? ==> forall k :: 0 <= k < |Iter(parent)| ==> !EndsWith(Iter(parent)[k].tag, name)
    ensures (exists k :: 0 <= k < |parent.children| && parent.children[k].tag == DefaultNsTag(name)) ==>
      r.Some? && IsFirstTagged(parent.children, r.value, DefaultNsTag(name))
    ensures (forall k :: 0 <= k < |parent.children| ==> parent.children[k].tag != DefaultNsTag(name)) ==>
      r.Some? ==> IsFirstEnding(Iter(parent), r.value, name)
  {
    var nsTag := DefaultNsTag(name);
    match FindChild(parent, nsTag)
    case Some(c) =>
      ChildrenInIter(parent, c);
      assert nsTag[|nsTag| - |name|..] == name;
      Some(c)
    case None => FirstEndingWith(Iter(parent), name)
  }
}
