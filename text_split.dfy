/**
 * Facts about how `str.split()` with and without a separator cuts a string:
 * what the pieces hold, where they end, and the pieces of strings built from
 * known parts.
 */
module TextSplit {
  import opened Wrappers
  import opened Text

  /** The characters of `s` that are not whitespace, in order. */
  function NonSpace(s: string): string
  {
    if s == [] then [] else (if IsSpace(s[0]) then [] else [s[0]]) + NonSpace(s[1..])
  }

  /** The words of a list, concatenated in order. */
  function Flatten(ws: seq<string>): string
  {
    if ws == [] then [] else ws[0] + Flatten(ws[1..])
  }

  lemma {:induction false} NonSpaceConcat(a: string, b: string)
    ensures NonSpace(a + b) == NonSpace(a) + NonSpace(b)
    decreases |a|
  {
    if a != [] {
      assert (a + b)[0] == a[0];
      assert (a + b)[1..] == a[1..] + b;
      NonSpaceConcat(a[1..], b);
    } else {
      assert a + b == b;
    }
  }

  /** A word without whitespace keeps all its characters. */
  lemma {:induction false} NonSpaceOfWord(w: string)
    requires forall i :: 0 <= i < |w| ==> !IsSpace(w[i])
    ensures NonSpace(w) == w
    decreases |w|
  {
    if w != [] {
      NonSpaceOfWord(w[1..]);
    }
  }

  /** Whitespace contributes nothing. */
  lemma {:induction false} NonSpaceOfBlank(sp: string)
    requires forall i :: 0 <= i < |sp| ==> IsSpace(sp[i])
    ensures NonSpace(sp) == []
    decreases |sp|
  {
    if sp != [] {
      NonSpaceOfBlank(sp[1..]);
    }
  }


  /** Leading whitespace removed by `lstrip` holds no other characters. */
  lemma NonSpaceLStrip(s: string)
    ensures NonSpace(s) == NonSpace(LStrip(s))
  {
    var t := LStrip(s);
    var cut := s[..|s| - |t|];
    assert s == cut + t;
    NonSpaceConcat(cut, t);
    NonSpaceOfBlank(cut);
  }

  /** The tokens, concatenated in order, are `s` with its whitespace removed. */
  lemma {:induction false} TokensFlatten(s: string)
    ensures Flatten(Tokens(s)) == NonSpace(s)
    decreases |s|
  {
    var t := LStrip(s);
    NonSpaceLStrip(s);
    if t != [] {
      var n := TokenLength(t);
      var w := t[..n];
      assert t == w + t[n..];
      NonSpaceConcat(w, t[n..]);
      NonSpaceOfWord(w);
      TokensFlatten(t[n..]);
      var r := Tokens(s);
      assert r[0] == w && r[1..] == Tokens(t[n..]);
    }
  }

  /** Leading whitespace does not change what `lstrip` leaves. */
  lemma {:induction false} LStripBlank(sp: string, x: string)
    requires forall i :: 0 <= i < |sp| ==> IsSpace(sp[i])
    ensures LStrip(sp + x) == LStrip(x)
    decreases |sp|
  {
    if sp != [] {
      assert (sp + x)[0] == sp[0];
      assert (sp + x)[1..] == sp[1..] + x;
      LStripBlank(sp[1..], x);
    } else {
      assert sp + x == x;
    }
  }

  /** A word followed by whitespace or the end is one token long. */
  lemma {:induction false} TokenLengthOf(w: string, rest: string)
    requires forall i :: 0 <= i < |w| ==> !IsSpace(w[i])
    requires rest == [] || IsSpace(rest[0])
    ensures TokenLength(w + rest) == |w|
    decreases |w|
  {
    if w != [] {
      assert (w + rest)[1..] == w[1..] + rest;
      TokenLengthOf(w[1..], rest);
    } else {
      assert w + rest == rest;
    }
  }

  /** `split()` of whitespace alone is empty. */
  lemma TokensBlank(sp: string)
    requires forall i :: 0 <= i < |sp| ==> IsSpace(sp[i])
    ensures Tokens(sp) == []
  {
  }

  /** `split()` cuts a word off the front: whitespace, a word, then whitespace or the
      end yields that word followed by the tokens of the rest. */
  lemma TokensCons(sp: string, w: string, rest: string)
    requires forall i :: 0 <= i < |sp| ==> IsSpace(sp[i])
    requires IsToken(w)
    requires rest == [] || IsSpace(rest[0])
    ensures Tokens(sp + w + rest) == [w] + Tokens(rest)
  {
    var s := sp + w + rest;
    assert s == sp + (w + rest);
    LStripBlank(sp, w + rest);
    assert (w + rest)[0] == w[0];
    assert LStrip(w + rest) == w + rest;
    TokenLengthOf(w, rest);
    assert (w + rest)[..|w|] == w;
    assert (w + rest)[|w|..] == rest;
  }


  /** The piece ends where the string ends or where the second separator starts. */
  lemma SecondPieceEnd(s: string, sep: string, i: nat, p: string)
    requires sep != [] && IndexOf(s, sep) == Some(i) && SecondPiece(s, sep) == Some(p)
    ensures i + |sep| + |p| == |s| || MatchAt(s, sep, i + |sep| + |p|)
  {
    var rest := s[i + |sep|..];
    match IndexOf(rest, sep)
    case None =>
      assert |p| == |rest|;
    case Some(j) =>
      assert |p| == j;
      MatchInRest(s, sep, i + |sep|, j);
  }

  /** A match in a suffix of `s` is a match in `s`, shifted by where the suffix starts. */
  lemma MatchInRest(s: string, t: string, k: nat, j: nat)
    requires k <= |s| && MatchAt(s[k..], t, j)
    ensures MatchAt(s, t, k + j)
  {
    assert s[k + j..k + j + |t|] == s[k..][j..j + |t|];
  }

  /** The piece after the first separator, when the rest holds no other one. */
  lemma SecondPieceOf(prefix: string, sep: string, t: string)
    requires sep != []
    requires forall j :: 0 <= j < |prefix| ==> !MatchAt(prefix + sep, sep, j)
    requires !Contains(t, sep)
    ensures SecondPiece(prefix + sep + t, sep) == Some(t)
  {
    var s := prefix + sep + t;
    var head := prefix + sep;
    assert s[..|head|] == head;
    forall j | 0 <= j < |prefix| ensures !MatchAt(s, sep, j) {
      if MatchAt(s, sep, j) {
        assert s[j..j + |sep|] == head[j..j + |sep|];
        assert MatchAt(head, sep, j);
      }
    }
    assert s[|prefix|..|prefix| + |sep|] == sep;
    assert MatchAt(s, sep, |prefix|);
    var i := IndexOf(s, sep).value;
    assert i == |prefix|;
    assert s[|prefix| + |sep|..] == t;
  }
}
