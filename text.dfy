/**
 * The Python string operations the extractors rely on: substring search
 * (`in`, `str.find`), `str.strip`, `str.split` with and without a separator,
 * `str.lower`, `int()` on a token, `str()` of an int, and `os.path.basename`.
 * Strings are sequences of characters; only the ASCII part of Python's
 * whitespace, digit and case tables is modelled.
 */
module Text {
  import opened Wrappers

  // ---------------------------------------------------------------------------
  // Substring search
  // ---------------------------------------------------------------------------

  /** `t` occurs in `s` starting at index `i`. */
  predicate MatchAt(s: string, t: string, i: int)
  {
    0 <= i && i + |t| <= |s| && s[i..i + |t|] == t
  }

  /** The leftmost occurrence of `t` in `s` at or after `k` (Python `s.find(t, k)`). */
  function IndexFrom(s: string, t: string, k: nat): (r: Option<nat>)
    ensures r.Some? ==> k <= r.value && MatchAt(s, t, r.value)
    ensures r.Some? ==> forall j :: k <= j < r.value ==> !MatchAt(s, t, j)
    ensures r.None? ==> forall j :: k <= j ==> !MatchAt(s, t, j)
    decreases |s| - k
  {
    if k + |t| > |s| then None
    else if s[k..k + |t|] == t then Some(k)
    else IndexFrom(s, t, k + 1)
  }

  /** The leftmost occurrence of `t` in `s`, or None. */
  function IndexOf(s: string, t: string): (r: Option<nat>)
    ensures r.Some? ==> MatchAt(s, t, r.value) && forall j :: 0 <= j < r.value ==> !MatchAt(s, t, j)
    ensures r.None? <==> forall j :: !MatchAt(s, t, j)
  {
    IndexFrom(s, t, 0)
  }

  /** Python's `t in s`. */
  predicate Contains(s: string, t: string)
  {
    IndexOf(s, t).Some?
  }

  /** `t in s` holds exactly when `t` occurs at some index of `s`. */
  lemma ContainsIff(s: string, t: string)
    ensures Contains(s, t) <==> exists i :: MatchAt(s, t, i)
  {
    if Contains(s, t) {
      assert MatchAt(s, t, IndexOf(s, t).value);
    }
  }

  /** A match starts with the pattern's first two characters. */
  lemma MatchPair(s: string, t: string, i: nat)
    requires MatchAt(s, t, i) && |t| >= 2
    ensures s[i] == t[0] && s[i + 1] == t[1]
  {
    assert s[i..i + |t|][0] == s[i];
    assert s[i..i + |t|][1] == s[i + 1];
  }

  /** A string lacking one of the pattern's characters does not contain it. */
  lemma CharAbsent(s: string, t: string, k: nat)
    requires k < |t| && t[k] !in s
    ensures !Contains(s, t)
  {
  }

  /** Containment is transitive: a string that contains `t` contains every substring of `t`. */
  lemma {:induction false} ContainsTransitive(s: string, t: string, u: string)
    requires Contains(s, t) && Contains(t, u)
    ensures Contains(s, u)
  {
    var i := IndexOf(s, t).value;
    var j := IndexOf(t, u).value;
    assert s[i..i + |t|] == t;
    assert t[j..j + |u|] == u;
    forall m | 0 <= m < |u| ensures s[i + j + m] == u[m] {
      calc {
        s[i + j + m];
        s[i..i + |t|][j + m];
        t[j + m];
        t[j..j + |u|][m];
      }
    }
    assert s[i + j..i + j + |u|] == u;
    assert MatchAt(s, u, i + j);
  }

  predicate StartsWith(s: string, p: string)
  {
    |p| <= |s| && s[..|p|] == p
  }

  predicate EndsWith(s: string, p: string)
  {
    |p| <= |s| && s[|s| - |p|..] == p
  }

  /** The rightmost index of `c` in `s`, or None. */
  function LastIndexOf(s: string, c: char): (r: Option<nat>)
    ensures r.Some? ==> r.value < |s| && s[r.value] == c && forall j :: r.value < j < |s| ==> s[j] != c
    ensures r.None? ==> forall j :: 0 <= j < |s| ==> s[j] != c
  {
    if |s| == 0 then None
    else if s[|s| - 1] == c then Some(|s| - 1)
    else LastIndexOf(s[..|s| - 1], c)
  }

  // ---------------------------------------------------------------------------
  // Whitespace, strip and split
  // ---------------------------------------------------------------------------

  /** Python's `str.isspace` on one character, restricted to the ASCII range. */
  predicate IsSpace(c: char)
  {
    c == ' ' || c == '\t' || c == '\n' || c == '\r' || c == '\U{B}' || c == '\U{C}'
    || ('\U{1C}' <= c <= '\U{1F}')
  }

  function LStrip(s: string): (r: string)
    ensures |r| <= |s| && r == s[|s| - |r|..]
    ensures r == [] || !IsSpace(r[0])
    ensures forall i :: 0 <= i < |s| - |r| ==> IsSpace(s[i])
  {
    if |s| > 0 && IsSpace(s[0]) then LStrip(s[1..]) else s
  }

  function RStrip(s: string): (r: string)
    ensures |r| <= |s| && r == s[..|r|]
    ensures r == [] || !IsSpace(r[|r| - 1])
    ensures forall i :: |r| <= i < |s| ==> IsSpace(s[i])
  {
    if |s| > 0 && IsSpace(s[|s| - 1]) then RStrip(s[..|s| - 1]) else s
  }

  /** Python's `str.strip()`: removes leading and trailing whitespace. */
  function Strip(s: string): (r: string)
  {
    RStrip(LStrip(s))
  }

  /** Where `strip` cuts: the kept slice, with whitespace on either side of it. */
  lemma StripBounds(s: string) returns (a: nat, b: nat)
    ensures a <= b <= |s| && Strip(s) == s[a..b]
    ensures forall i :: 0 <= i < a ==> IsSpace(s[i])
    ensures forall i :: b <= i < |s| ==> IsSpace(s[i])
  {
    var l := LStrip(s);
    a := |s| - |l|;
    var r := RStrip(l);
    b := a + |r|;
    assert l == s[a..];
    assert r == s[a..b];
    forall i | b <= i < |s| ensures IsSpace(s[i]) {
      assert s[i] == l[i - a];
    }
  }

  /** The stripped string is a slice of the original, bounded by non-space characters,
      and everything cut off on either side is whitespace. */
  lemma StripSlice(s: string)
    ensures exists a, b :: (0 <= a <= b <= |s| && Strip(s) == s[a..b]
      && (forall i :: 0 <= i < a ==> IsSpace(s[i]))
      && (forall i :: b <= i < |s| ==> IsSpace(s[i])))
    ensures Strip(s) == [] || (!IsSpace(Strip(s)[0]) && !IsSpace(Strip(s)[|Strip(s)| - 1]))
  {
    var a, b := StripBounds(s);
    var l := LStrip(s);
    var r := RStrip(l);
    if r != [] {
      assert r[0] == l[0];
    }
  }

  /** Stripping is idempotent. */
  lemma StripIdempotent(s: string)
    ensures Strip(Strip(s)) == Strip(s)
  {
    var t := Strip(s);
    StripSlice(s);
    if t != [] {
      assert LStrip(t) == t;
      assert RStrip(t) == t;
    }
  }

  /** How many characters of `s`, from the start, are not whitespace. */
  function TokenLength(s: string): (n: nat)
    ensures n <= |s|
    ensures forall i :: 0 <= i < n ==> !IsSpace(s[i])
    ensures n < |s| ==> IsSpace(s[n])
  {
    if |s| == 0 || IsSpace(s[0]) then 0 else 1 + TokenLength(s[1..])
  }

  /** A non-empty word without whitespace. */
  predicate IsToken(w: string)
  {
    w != [] && forall i :: 0 <= i < |w| ==> !IsSpace(w[i])
  }

  /** Python's `str.split()` with no separator: the maximal runs of non-whitespace. */
  function Tokens(s: string): (r: seq<string>)
    ensures forall w :: w in r ==> IsToken(w)
    decreases |s|
  {
    var t := LStrip(s);
    if t == [] then []
    else
      var n := TokenLength(t);
      var w := t[..n];
      assert IsToken(w) by {
        assert n > 0;
        assert forall i :: 0 <= i < |w| ==> w[i] == t[i];
      }
      [w] + Tokens(t[n..])
  }

  /** `s.split(sep)[1]` for a non-empty separator: the text between the first and the
      second occurrence of `sep`, or after the first one if there is no second;
      None (an IndexError) when `sep` does not occur. */
  function SecondPiece(s: string, sep: string): (r: Option<string>)
    requires sep != []
    ensures r.None? <==> !Contains(s, sep)
    ensures r.Some? ==> !Contains(r.value, sep)
    ensures r.Some? ==> MatchAt(s, sep + r.value, IndexOf(s, sep).value)
  {
    match IndexOf(s, sep)
    case None => None
    case Some(i) =>
      var rest := s[i + |sep|..];
      match IndexOf(rest, sep)
      case None => Some(rest)
      case Some(j) =>
        assert rest[..j][..] == rest[..j];
        NoEarlierMatch(rest, sep, j);
        Some(rest[..j])
  }

  /** A prefix of `s` that ends before the leftmost occurrence of `t` does not contain `t`. */
  lemma NoEarlierMatch(s: string, t: string, j: nat)
    requires j <= |s| && forall k :: 0 <= k < j ==> !MatchAt(s, t, k)
    requires t != []
    ensures !Contains(s[..j], t)
  {
    if Contains(s[..j], t) {
      var k := IndexOf(s[..j], t).value;
      assert s[..j][k..k + |t|] == s[k..k + |t|];
      assert MatchAt(s, t, k);
    }
  }

  /** One character of `str.lower()`: ASCII capitals become small letters. */
  function LowerChar(c: char): (r: char)
    ensures 'a' <= r <= 'z' <==> 'a' <= c <= 'z' || 'A' <= c <= 'Z'
    ensures 'A' <= c <= 'Z' ==> r as int == c as int - 'A' as int + 'a' as int
    ensures !('A' <= c <= 'Z') ==> r == c
  {
    if 'A' <= c <= 'Z' then (c as int + 32) as char else c
  }

  /** Python's `str.lower()` on ASCII letters. */
  function Lower(s: string): (r: string)
  {
    seq(|s|, i requires 0 <= i < |s| => LowerChar(s[i]))
  }

  /** `os.path.basename` (POSIX): the text after the last '/'. */
  function Basename(path: string): (r: string)
    ensures EndsWith(path, r)
    ensures forall i :: 0 <= i < |r| ==> r[i] != '/'
    ensures r == path || (|r| < |path| && path[|path| - |r| - 1] == '/')
  {
    match LastIndexOf(path, '/')
    case None => path
    case Some(i) => path[i + 1..]
  }

  /** A '/' with none after it is where `basename` cuts. */
  lemma BasenameAfter(path: string, q: nat)
    requires q < |path| && path[q] == '/'
    requires forall j :: q < j < |path| ==> path[j] != '/'
    ensures Basename(path) == path[q + 1..]
  {
    LastIndexOfAt(path, '/', q);
  }

  /** The rightmost index of `c` is the one with no `c` after it. */
  lemma {:induction false} LastIndexOfAt(s: string, c: char, q: nat)
    requires q < |s| && s[q] == c
    requires forall j :: q < j < |s| ==> s[j] != c
    ensures LastIndexOf(s, c) == Some(q)
    decreases |s|
  {
    if q < |s| - 1 {
      var t := s[..|s| - 1];
      assert s[|s| - 1] != c;
      assert forall j :: q < j < |t| ==> t[j] == s[j];
      LastIndexOfAt(t, c, q);
    }
  }

  // ---------------------------------------------------------------------------
  // Digits and integers
  // ---------------------------------------------------------------------------

  predicate IsDigit(c: char)
  {
    '0' <= c <= '9'
  }

  predicate AllDigits(s: string)
  {
    forall i :: 0 <= i < |s| ==> IsDigit(s[i])
  }

  function DigitValue(c: char): nat
    requires IsDigit(c)
  {
    c as int - '0' as int
  }

  function DigitChar(d: nat): (c: char)
    requires d < 10
    ensures IsDigit(c) && DigitValue(c) == d
  {
    ('0' as int + d) as char
  }

  function Pow10(n: nat): (r: nat)
    ensures r >= 1
  {
    if n == 0 then 1 else 10 * Pow10(n - 1)
  }

  /** The number a string of decimal digits denotes (most significant digit first). */
  function DigitsValue(s: string): nat
    requires AllDigits(s)
  {
    if s == [] then 0 else 10 * DigitsValue(s[..|s| - 1]) + DigitValue(s[|s| - 1])
  }

  lemma {:induction false} DigitsValueAppend(a: string, b: string)
    requires AllDigits(a) && AllDigits(b)
    ensures AllDigits(a + b)
    ensures DigitsValue(a + b) == DigitsValue(a) * Pow10(|b|) + DigitsValue(b)
    decreases |b|
  {
    AllDigitsConcat(a, b);
    if b == [] {
      assert a + b == a;
    } else {
      var b' := b[..|b| - 1];
      assert (a + b)[..|a + b| - 1] == a + b';
      assert (a + b)[|a + b| - 1] == b[|b| - 1];
      DigitsValueAppend(a, b');
      var va, vb, p, d := DigitsValue(a), DigitsValue(b'), Pow10(|b'|), DigitValue(b[|b| - 1]);
      assert DigitsValue(a + b) == 10 * (va * p + vb) + d;
      assert DigitsValue(b) == 10 * vb + d;
      assert Pow10(|b|) == 10 * p;
      ShiftDigit(va, p, vb, d);
    }
  }

  lemma AllDigitsConcat(a: string, b: string)
    requires AllDigits(a) && AllDigits(b)
    ensures AllDigits(a + b)
  {
    forall i | 0 <= i < |a + b| ensures IsDigit((a + b)[i]) {
      if i < |a| { assert (a + b)[i] == a[i]; } else { assert (a + b)[i] == b[i - |a|]; }
    }
  }

  lemma ShiftDigit(va: nat, p: nat, vb: nat, d: nat)
    ensures 10 * (va * p + vb) + d == va * (10 * p) + (10 * vb + d)
  {
    assert 10 * (va * p) == va * (10 * p);
  }

  /** A run of zeros denotes 0, so leading zeros do not change a number. */
  lemma {:induction false} LeadingZeros(z: string, b: string)
    requires forall i :: 0 <= i < |z| ==> z[i] == '0'
    requires AllDigits(b)
    ensures AllDigits(z + b) && DigitsValue(z + b) == DigitsValue(b)
  {
    ZerosValue(z);
    DigitsValueAppend(z, b);
  }

  lemma {:induction false} ZerosValue(z: string)
    requires forall i :: 0 <= i < |z| ==> z[i] == '0'
    ensures AllDigits(z) && DigitsValue(z) == 0
  {
    if z != [] {
      ZerosValue(z[..|z| - 1]);
    }
  }

  function Zeros(n: nat): (z: string)
    ensures |z| == n && forall i :: 0 <= i < n ==> z[i] == '0'
  {
    if n == 0 then [] else Zeros(n - 1) + ['0']
  }

  /** Python's `str(n)` for a natural number: decimal digits without leading zeros. */
  function NatToString(n: nat): (s: string)
    ensures |s| >= 1 && AllDigits(s)
    ensures |s| > 1 ==> s[0] != '0'
  {
    if n < 10 then [DigitChar(n)] else NatToString(n / 10) + [DigitChar(n % 10)]
  }

  /** Reading back the digits `str(n)` prints gives `n`. */
  lemma {:induction false} NatToStringValue(n: nat)
    ensures DigitsValue(NatToString(n)) == n
  {
    if n >= 10 {
      var s := NatToString(n);
      assert s[..|s| - 1] == NatToString(n / 10);
      NatToStringValue(n / 10);
    }
  }

  lemma NatToStringInjective(m: nat, n: nat)
    requires NatToString(m) == NatToString(n)
    ensures m == n
  {
    NatToStringValue(m);
    NatToStringValue(n);
  }

  /** Python's `str(i)` for an int. */
  function IntToString(i: int): (s: string)
    ensures |s| >= 1
  {
    if i < 0 then "-" + NatToString(-i) else NatToString(i)
  }

  /** `str` on ints is injective, so different indices give different keys. */
  lemma IntToStringInjective(i: int, j: int)
    requires IntToString(i) == IntToString(j)
    ensures i == j
  {
    if i < 0 && j < 0 {
      assert NatToString(-i) == IntToString(i)[1..];
      assert NatToString(-j) == IntToString(j)[1..];
      NatToStringInjective(-i, -j);
    } else if i >= 0 && j >= 0 {
      NatToStringInjective(i, j);
    }
  }

  /** An optional leading sign: (is it '-', the rest). */
  function SplitSign(s: string): (r: (bool, string))
    ensures |r.1| <= |s|
  {
    if |s| > 0 && (s[0] == '+' || s[0] == '-') then (s[0] == '-', s[1..]) else (false, s)
  }

  /** Python's `int(s)` in base 10: optional surrounding whitespace, an optional
      sign and one or more digits; anything else is a ValueError (None). */
  function ParseInt(s: string): (r: Option<int>)
  {
    var p := SplitSign(Strip(s));
    if p.1 != [] && AllDigits(p.1) then
      Some(if p.0 then -(DigitsValue(p.1) as int) else DigitsValue(p.1) as int)
    else None
  }

  /** `int(str(i)) == i`. */
  lemma ParseIntOfString(i: int)
    ensures ParseInt(IntToString(i)) == Some(i)
  {
    var s := IntToString(i);
    var n: nat := if i < 0 then -i else i;
    var t := NatToString(n);
    assert s[|s| - 1] == t[|t| - 1];
    assert IsDigit(t[0]) && IsDigit(t[|t| - 1]);
    StripUnspaced(s);
    assert SplitSign(s) == (i < 0, t);
    NatToStringValue(n);
  }

  /** A string that neither starts nor ends with whitespace is left alone by `strip`. */
  lemma StripUnspaced(s: string)
    requires s == [] || (!IsSpace(s[0]) && !IsSpace(s[|s| - 1]))
    ensures Strip(s) == s
  {
  }
}
