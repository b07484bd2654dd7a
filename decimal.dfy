/**
 * Python's `decimal.Decimal` for finite values: a sign, an integer coefficient
 * and a power-of-ten exponent, as CPython stores it. `Parse` models the
 * constructor `Decimal(text)` and `Str` models `str(d)`; the round trip
 * `Decimal(str(d)) == d` is what the models' setters rely on.
 */
module PyDecimal {
  import opened Wrappers
  import opened Text

  /** (-1)^neg * coef * 10^exp; equal triples are the same Python value, and
      `Decimal('0.0')` is distinct from `Decimal('0')` as in Python. */
  datatype Decimal = Decimal(neg: bool, coef: nat, exp: int)

  /** `Decimal('0.0')`, the initial value of every measurement field. */
  const Zero: Decimal := Decimal(false, 0, -1)

  /** `Decimal(-1)`, the extractors' marker for a value that did not parse. */
  const Sentinel: Decimal := Decimal(true, 1, 0)

  /** The length of the longest prefix of `s` made of decimal digits. */
  function LeadingDigits(s: string): (n: nat)
    ensures n <= |s| && AllDigits(s[..n])
    ensures n < |s| ==> !IsDigit(s[n])
  {
    if |s| > 0 && IsDigit(s[0]) then
      var m := LeadingDigits(s[1..]);
      assert s[..m + 1] == [s[0]] + s[1..][..m];
      m + 1
    else 0
  }

  /** The optional exponent part `[eE][+-]digits`; an empty tail means exponent 0. */
  function ParseExponent(r: string): Option<int>
  {
    if r == [] then Some(0)
    else if r[0] == 'e' || r[0] == 'E' then
      var q := SplitSign(r[1..]);
      if q.1 != [] && AllDigits(q.1) then
        Some(if q.0 then -(DigitsValue(q.1) as int) else DigitsValue(q.1) as int)
      else None
    else None
  }

  /** `Decimal(text)`: surrounding whitespace is ignored; then an optional sign,
      digits with an optional point (at least one digit on either side of it),
      and an optional exponent. Anything else raises InvalidOperation (None). */
  function Parse(raw: string): Option<Decimal>
  {
    var p := SplitSign(Strip(raw));
    match ParseUnsigned(p.1)
    case None => None
    case Some(ce) => Some(Decimal(p.0, ce.0, ce.1))
  }

  /** The unsigned part: integer digits, then the rest. */
  function ParseUnsigned(t: string): Option<(nat, int)>
  {
    var ni := LeadingDigits(t);
    ParseAfterInt(t[..ni], t[ni..])
  }

  /** After the integer digits: an optional point followed by fraction digits. */
  function ParseAfterInt(ip: string, r: string): Option<(nat, int)>
    requires AllDigits(ip)
  {
    if |r| > 0 && r[0] == '.' then
      var a := r[1..];
      var nf := LeadingDigits(a);
      ParseTail(ip, a[..nf], a[nf..])
    else ParseTail(ip, [], r)
  }

  /** With the digits `ip` before and `fp` after the point, what remains must be an
      exponent; the coefficient is all the digits and the exponent is shifted by the
      number of fraction digits. */
  function ParseTail(ip: string, fp: string, r: string): Option<(nat, int)>
    requires AllDigits(ip) && AllDigits(fp)
  {
    AllDigitsConcat(ip, fp);
    if |ip| + |fp| == 0 then None
    else
      match ParseExponent(r)
      case None => None
      case Some(e) => Some((DigitsValue(ip + fp), e - |fp|))
  }

  /** Python's `"%+d" % k`. */
  function SignedString(k: int): string
  {
    (if k >= 0 then "+" else "-") + NatToString(if k >= 0 then k else -k)
  }

  /** Where the decimal point goes in `str(d)`: after `exp + len(digits)` digits
      when the exponent is not positive and the value is not too small, otherwise
      after the first digit, with an exponent suffix (scientific notation). */
  function DotPlace(d: Decimal): int
  {
    var left := d.exp + |NatToString(d.coef)|;
    if d.exp <= 0 && left > -6 then left else 1
  }

  /** `str(d)` for a finite Decimal (to-scientific-string, capital 'E'). */
  function Str(d: Decimal): string
  {
    var digits := NatToString(d.coef);
    var left := d.exp + |digits|;
    var dot := DotPlace(d);
    var intPart :=
      if dot <= 0 then "0"
      else if dot >= |digits| then digits + Zeros(dot - |digits|)
      else digits[..dot];
    var fracPart :=
      if dot <= 0 then "." + Zeros(-dot) + digits
      else if dot >= |digits| then ""
      else "." + digits[dot..];
    var expPart := ExpText(left != dot, left - dot);
    (if d.neg then "-" else "") + intPart + fracPart + expPart
  }

  // ---------------------------------------------------------------------------
  // Parsing what str() prints
  // ---------------------------------------------------------------------------

  /** Characters that appear in a printed number. */
  predicate NumChar(c: char)
  {
    IsDigit(c) || c == '+' || c == '-' || c == '.' || c == 'E'
  }

  predicate AllNumChars(s: string)
  {
    forall i :: 0 <= i < |s| ==> NumChar(s[i])
  }

  lemma AllNumConcat(a: string, b: string)
    requires AllNumChars(a) && AllNumChars(b)
    ensures AllNumChars(a + b)
  {
    forall i | 0 <= i < |a + b| ensures NumChar((a + b)[i]) {
      if i < |a| { assert (a + b)[i] == a[i]; } else { assert (a + b)[i] == b[i - |a|]; }
    }
  }

  lemma {:induction false} LeadingDigitsConcat(ds: string, rest: string)
    requires AllDigits(ds)
    requires rest == [] || !IsDigit(rest[0])
    ensures LeadingDigits(ds + rest) == |ds|
    decreases |ds|
  {
    if ds == [] {
      assert ds + rest == rest;
    } else {
      assert (ds + rest)[1..] == ds[1..] + rest;
      LeadingDigitsConcat(ds[1..], rest);
    }
  }

  lemma ParseExponentOf(k: int)
    ensures ParseExponent("E" + SignedString(k)) == Some(k)
  {
    var n: nat := if k >= 0 then k else -k;
    var r := "E" + SignedString(k);
    assert r[1..] == SignedString(k);
    assert SplitSign(r[1..]) == (k < 0, NatToString(n));
    NatToStringValue(n);
  }

  /** The sign prefix of a printed number. */
  function SignText(neg: bool): string
  {
    if neg then "-" else ""
  }

  /** The exponent suffix of a printed number, if any. */
  function ExpText(hasExp: bool, k: int): string
  {
    if hasExp then "E" + SignedString(k) else ""
  }

  /** `ex` is an exponent suffix (possibly empty) denoting `ev`. */
  predicate ExpShape(ex: string, ev: int)
  {
    AllNumChars(ex) && (ex == [] || ex[0] == 'E') && ParseExponent(ex) == Some(ev)
  }

  lemma ExpTextShape(hasExp: bool, k: int)
    ensures ExpShape(ExpText(hasExp, k), if hasExp then k else 0)
  {
    if hasExp {
      var ex := ExpText(hasExp, k);
      var n := NatToString(if k >= 0 then k else -k);
      assert ex == ['E', if k >= 0 then '+' else '-'] + n;
      assert forall i :: 2 <= i < |ex| ==> ex[i] == n[i - 2];
      ParseExponentOf(k);
    }
  }

  lemma ParseTailOf(ip: string, fp: string, ex: string, ev: int, c: nat, e: int)
    requires AllDigits(ip) && AllDigits(fp) && |ip| + |fp| >= 1
    requires ExpShape(ex, ev)
    requires AllDigits(ip + fp) && c == DigitsValue(ip + fp) && e == ev - |fp|
    ensures ParseTail(ip, fp, ex) == Some((c, e))
  {
  }

  lemma ParseAfterPoint(ip: string, fp: string, ex: string)
    requires AllDigits(ip) && AllDigits(fp)
    requires ex == [] || ex[0] == 'E'
    ensures ParseAfterInt(ip, "." + fp + ex) == ParseTail(ip, fp, ex)
  {
    var r := "." + fp + ex;
    assert r[1..] == fp + ex;
    LeadingDigitsConcat(fp, ex);
    assert (fp + ex)[..|fp|] == fp;
    assert (fp + ex)[|fp|..] == ex;
  }

  lemma ParseAfterNoPoint(ip: string, ex: string)
    requires AllDigits(ip)
    requires ex == [] || ex[0] == 'E'
    ensures ParseAfterInt(ip, ex) == ParseTail(ip, [], ex)
  {
  }

  lemma ParseUnsignedOf(ip: string, rest: string)
    requires AllDigits(ip)
    requires rest == [] || !IsDigit(rest[0])
    ensures ParseUnsigned(ip + rest) == ParseAfterInt(ip, rest)
  {
    LeadingDigitsConcat(ip, rest);
    assert (ip + rest)[..|ip|] == ip;
    assert (ip + rest)[|ip|..] == rest;
  }

  /** `digits . digits [E±digits]` without the sign. */
  lemma ParseUnsignedPoint(ip: string, fp: string, ex: string, ev: int, c: nat, e: int)
    requires AllDigits(ip) && AllDigits(fp) && |ip| + |fp| >= 1
    requires ExpShape(ex, ev)
    requires AllDigits(ip + fp) && c == DigitsValue(ip + fp) && e == ev - |fp|
    ensures ParseUnsigned(ip + ("." + fp + ex)) == Some((c, e))
  {
    ParseTailOf(ip, fp, ex, ev, c, e);
    ParseAfterPoint(ip, fp, ex);
    ParseUnsignedOf(ip, "." + fp + ex);
  }

  /** `digits [E±digits]` without the sign. */
  lemma ParseUnsignedNoPoint(ip: string, ex: string, ev: int, c: nat)
    requires AllDigits(ip) && |ip| >= 1
    requires ExpShape(ex, ev)
    requires c == DigitsValue(ip)
    ensures ParseUnsigned(ip + ex) == Some((c, ev))
  {
    assert ip + [] == ip;
    ParseTailOf(ip, [], ex, ev, c, ev);
    ParseAfterNoPoint(ip, ex);
    ParseUnsignedOf(ip, ex);
  }

  lemma ParseSigned(neg: bool, t: string, c: nat, e: int)
    requires t != [] && AllNumChars(t) && t[0] != '+' && t[0] != '-'
    requires ParseUnsigned(t) == Some((c, e))
    ensures Parse(SignText(neg) + t) == Some(Decimal(neg, c, e))
  {
    var s := SignText(neg) + t;
    assert s[|s| - 1] == t[|t| - 1];
    assert NumChar(s[0]);
    StripUnspaced(s);
    assert SplitSign(s) == (neg, t);
  }

  /** A printed number whose characters are all number characters and which does
      not start with a sign. */
  lemma UnsignedText(ip: string, mid: string, ex: string)
    requires AllDigits(ip) && AllNumChars(mid) && AllNumChars(ex)
    requires ip != [] || (mid != [] && mid[0] == '.')
    ensures ip + (mid + ex) != [] && AllNumChars(ip + (mid + ex))
    ensures (ip + (mid + ex))[0] != '+' && (ip + (mid + ex))[0] != '-'
  {
    var t := ip + (mid + ex);
    assert AllNumChars(ip);
    AllNumConcat(mid, ex);
    AllNumConcat(ip, mid + ex);
    if ip != [] { assert t[0] == ip[0]; } else { assert t[0] == mid[0]; }
  }

  /** A point followed by digits is made of number characters. */
  lemma PointNumChars(fp: string)
    requires AllDigits(fp)
    ensures AllNumChars("." + fp)
  {
    var mid := "." + fp;
    assert forall i :: 1 <= i < |mid| ==> mid[i] == fp[i - 1];
  }

  /** `[-] digits . digits [E±digits]` with at least one digit parses to the triple
      those pieces denote. */
  lemma ParseShapePoint(neg: bool, ip: string, fp: string, ex: string, ev: int, c: nat, e: int)
    requires AllDigits(ip) && AllDigits(fp) && |ip| + |fp| >= 1
    requires ExpShape(ex, ev)
    requires AllDigits(ip + fp) && c == DigitsValue(ip + fp) && e == ev - |fp|
    ensures Parse(SignText(neg) + (ip + ("." + fp + ex))) == Some(Decimal(neg, c, e))
  {
    ParseUnsignedPoint(ip, fp, ex, ev, c, e);
    var mid := "." + fp;
    PointNumChars(fp);
    assert mid + ex == "." + fp + ex;
    UnsignedText(ip, mid, ex);
    ParseSigned(neg, ip + (mid + ex), c, e);
  }

  /** `[-] digits [E±digits]` parses to the triple those pieces denote. */
  lemma ParseShapeNoPoint(neg: bool, ip: string, ex: string, ev: int, c: nat)
    requires AllDigits(ip) && |ip| >= 1
    requires ExpShape(ex, ev)
    requires c == DigitsValue(ip)
    ensures Parse(SignText(neg) + (ip + ex)) == Some(Decimal(neg, c, ev))
  {
    ParseUnsignedNoPoint(ip, ex, ev, c);
    assert [] + ex == ex;
    UnsignedText(ip, [], ex);
    ParseSigned(neg, ip + ex, c, ev);
  }

  /** `Decimal(str(d)) == d`: printing a Decimal and parsing it back gives the same
      sign, coefficient and exponent. */
  lemma StrRoundTrip(d: Decimal)
    ensures Parse(Str(d)) == Some(d)
  {
    var digits := NatToString(d.coef);
    if DotPlace(d) <= 0 {
      SmallRoundTrip(d);
    } else if DotPlace(d) >= |digits| {
      WholeRoundTrip(d);
    } else {
      SplitRoundTrip(d);
    }
  }

  /** The exponent a printed number carries, whichever notation it uses. */
  lemma ExpArith(exp: int, len: int, dot: int)
    ensures (if exp + len != dot then exp + len - dot else 0) - (len - dot) == exp
  {
  }

  /** The exponent suffix `str(d)` prints. */
  function ExpOf(d: Decimal): string
  {
    var left := d.exp + |NatToString(d.coef)|;
    ExpText(left != DotPlace(d), left - DotPlace(d))
  }

  lemma ExpOfShape(d: Decimal)
    ensures ExpShape(ExpOf(d), var left := d.exp + |NatToString(d.coef)|; if left != DotPlace(d) then left - DotPlace(d) else 0)
  {
    var left := d.exp + |NatToString(d.coef)|;
    ExpTextShape(left != DotPlace(d), left - DotPlace(d));
  }

  lemma StrSmall(d: Decimal)
    requires DotPlace(d) <= 0
    ensures Str(d) == SignText(d.neg) + ("0" + ("." + (Zeros(-DotPlace(d)) + NatToString(d.coef)) + ExpOf(d)))
  {
  }

  lemma StrWhole(d: Decimal)
    requires DotPlace(d) >= |NatToString(d.coef)| && DotPlace(d) > 0
    ensures Str(d) == SignText(d.neg) + (NatToString(d.coef) + ExpOf(d))
  {
    var digits := NatToString(d.coef);
    assert DotPlace(d) == |digits|;
    assert digits + Zeros(0) == digits;
  }

  lemma StrSplit(d: Decimal)
    requires 0 < DotPlace(d) < |NatToString(d.coef)|
    ensures Str(d) == SignText(d.neg) + (NatToString(d.coef)[..DotPlace(d)] + ("." + NatToString(d.coef)[DotPlace(d)..] + ExpOf(d)))
  {
  }

  /** The round trip for values printed as `0.000ddd`. */
  lemma SmallRoundTrip(d: Decimal)
    requires DotPlace(d) <= 0
    ensures Parse(Str(d)) == Some(d)
  {
    var digits := NatToString(d.coef);
    var dot := DotPlace(d);
    var fp := Zeros(-dot) + digits;
    assert 0 - |fp| == d.exp;
    assert AllDigits(fp) && AllDigits("0" + fp) && DigitsValue("0" + fp) == d.coef by {
      NatToStringValue(d.coef);
      LeadingZeros(Zeros(-dot), digits);
      LeadingZeros("0", fp);
    }
    StrSmall(d);
    ExpOfShape(d);
    ParseShapePoint(d.neg, "0", fp, ExpOf(d), 0, d.coef, d.exp);
  }

  /** The round trip for values printed as a digit string, possibly with an exponent:
      the point would go after the last digit, which only happens for exponent 0 or
      a single digit in scientific notation. */
  lemma WholeRoundTrip(d: Decimal)
    requires DotPlace(d) >= |NatToString(d.coef)| && DotPlace(d) > 0
    ensures Parse(Str(d)) == Some(d)
  {
    var digits := NatToString(d.coef);
    var dot := DotPlace(d);
    var left := d.exp + |digits|;
    var ev := if left != dot then left - dot else 0;
    assert ev == d.exp by {
      ExpArith(d.exp, |digits|, dot);
    }
    NatToStringValue(d.coef);
    StrWhole(d);
    ExpOfShape(d);
    ParseShapeNoPoint(d.neg, digits, ExpOf(d), d.exp, d.coef);
  }

  /** The round trip for values printed as `ddd.ddd`, possibly with an exponent. */
  lemma SplitRoundTrip(d: Decimal)
    requires 0 < DotPlace(d) < |NatToString(d.coef)|
    ensures Parse(Str(d)) == Some(d)
  {
    var digits := NatToString(d.coef);
    var dot := DotPlace(d);
    var left := d.exp + |digits|;
    var ip, fp := digits[..dot], digits[dot..];
    var ev := if left != dot then left - dot else 0;
    assert d.exp == ev - |fp| by {
      ExpArith(d.exp, |digits|, dot);
    }
    assert AllDigits(ip + fp) && DigitsValue(ip + fp) == d.coef by {
      assert ip + fp == digits;
      NatToStringValue(d.coef);
    }
    StrSplit(d);
    ExpOfShape(d);
    ParseShapePoint(d.neg, ip, fp, ExpOf(d), ev, d.coef, d.exp);
  }

  // ---------------------------------------------------------------------------
  // Numeric value
  // ---------------------------------------------------------------------------

  function Pow10Real(e: int): (r: real)
    ensures r > 0.0
  {
    if e >= 0 then Pow10(e) as real else 1.0 / (Pow10(-e) as real)
  }

  /** The absolute value `abs(d)` as a real number. */
  function Magnitude(d: Decimal): (r: real)
    ensures r >= 0.0
  {
    d.coef as real * Pow10Real(d.exp)
  }

  /** The value of `d` as a real number (what `float(d)` approximates). */
  function ToReal(d: Decimal): (r: real)
    ensures r == (if d.neg then -Magnitude(d) else Magnitude(d))
  {
    var m := d.coef as real * Pow10Real(d.exp);
    if d.neg then -m else m
  }

  /** `Decimal(s)` when it parses, `Decimal(-1)` when it raises: the fallback every
      extractor applies to a measurement value. */
  function ParseOrSentinel(s: string): (r: Decimal)
    ensures Parse(s).Some? ==> r == Parse(s).value
    ensures Parse(s).None? ==> r == Sentinel
  {
    match Parse(s)
    case Some(v) => v
    case None => Sentinel
  }

  /** `Decimal(str(v))`, the coercion the models' setters apply: printing and
      re-reading a decimal gives it back unchanged. */
  function ViaStr(v: Decimal): (r: Decimal)
    ensures r == v
  {
    StrRoundTrip(v);
    ParseOrSentinel(Str(v))
  }
}
