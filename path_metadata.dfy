/**
 * What the beam models read out of a result folder's name: the acquisition
 * timestamp `YYYY-MM-DD-HH-MM-SS` (found with a leftmost regular-expression
 * search and then checked by `datetime.strptime`) and the four-digit machine
 * serial number that follows `SN`.
 */
module PathMetadata {
  import opened Wrappers
  import opened Text

  // ---------------------------------------------------------------------------
  // Date and time values
  // ---------------------------------------------------------------------------

  /** A naive `datetime` with no microseconds. */
  datatype DateTime = DateTime(year: int, month: int, day: int, hour: int, minute: int, second: int)

  predicate IsLeapYear(y: int)
  {
    y % 4 == 0 && (y % 100 != 0 || y % 400 == 0)
  }

  function DaysInMonth(y: int, m: int): int
    requires 1 <= m <= 12
  {
    if m == 2 then (if IsLeapYear(y) then 29 else 28)
    else if m == 4 || m == 6 || m == 9 || m == 11 then 30
    else 31
  }

  /** The values `datetime` accepts (years 1 to 9999). */
  predicate ValidDateTime(dt: DateTime)
  {
    1 <= dt.year <= 9999 && 1 <= dt.month <= 12 && 1 <= dt.day <= DaysInMonth(dt.year, dt.month)
    && 0 <= dt.hour <= 23 && 0 <= dt.minute <= 59 && 0 <= dt.second <= 59
  }

  /** `n` as exactly `width` decimal digits, zero-padded (Python's `%0<width>d`). */
  function Pad(n: nat, width: nat): (s: string)
    requires n < Pow10(width)
    ensures |s| == width && AllDigits(s) && DigitsValue(s) == n
  {
    if width == 0 then []
    else
      var s := Pad(n / 10, width - 1) + [DigitChar(n % 10)];
      assert s[..|s| - 1] == Pad(n / 10, width - 1);
      s
  }

  /** The text `datetime.isoformat()` gives for a valid value: `YYYY-MM-DDTHH:MM:SS`. */
  function IsoFormat(dt: DateTime): (s: string)
    requires ValidDateTime(dt)
    ensures |s| == 19
    ensures s[4] == '-' && s[7] == '-' && s[10] == 'T' && s[13] == ':' && s[16] == ':'
    ensures s[..4] == Pad(dt.year, 4) && s[17..] == Pad(dt.second, 2)
  {
    Pad(dt.year, 4) + "-" + Pad(dt.month, 2) + "-" + Pad(dt.day, 2) + "T"
    + Pad(dt.hour, 2) + ":" + Pad(dt.minute, 2) + ":" + Pad(dt.second, 2)
  }

  /** The folder-name form of a timestamp, `YYYY-MM-DD-HH-MM-SS`. */
  function PathStamp(dt: DateTime): (s: string)
    requires ValidDateTime(dt)
    ensures |s| == 19
  {
    Pad(dt.year, 4) + "-" + Pad(dt.month, 2) + "-" + Pad(dt.day, 2) + "-"
    + Pad(dt.hour, 2) + "-" + Pad(dt.minute, 2) + "-" + Pad(dt.second, 2)
  }

  // ---------------------------------------------------------------------------
  // The timestamp pattern \d{4}-\d{2}-\d{2}-\d{2}-\d{2}-\d{2}
  // ---------------------------------------------------------------------------

  /** 19 characters of the form `dddd-dd-dd-dd-dd-dd`, `d` a decimal digit. */
  predicate StampText(t: string)
  {
    |t| == 19 && AllDigits(t[..4]) && t[4] == '-' && AllDigits(t[5..7]) && t[7] == '-'
    && AllDigits(t[8..10]) && t[10] == '-' && AllDigits(t[11..13]) && t[13] == '-'
    && AllDigits(t[14..16]) && t[16] == '-' && AllDigits(t[17..19])
  }

  /** The timestamp pattern matches `s` at index `i`. */
  predicate StampAt(s: string, i: int)
  {
    0 <= i && i + 19 <= |s| && StampText(s[i..i + 19])
  }

  /** The leftmost match at or after `k` (what `re.search` finds). */
  function FindStampFrom(s: string, k: nat): (r: Option<nat>)
    ensures r.Some? ==> k <= r.value && StampAt(s, r.value)
    ensures r.Some? ==> forall j :: k <= j < r.value ==> !StampAt(s, j)
    ensures r.None? ==> forall j :: k <= j ==> !StampAt(s, j)
    decreases |s| - k
  {
    if k + 19 > |s| then None
    else if StampAt(s, k) then Some(k)
    else FindStampFrom(s, k + 1)
  }

  function FindStamp(s: string): (r: Option<nat>)
    ensures r.Some? ==> StampAt(s, r.value) && forall j :: 0 <= j < r.value ==> !StampAt(s, j)
    ensures r.None? ==> forall j :: !StampAt(s, j)
  {
    FindStampFrom(s, 0)
  }

  /** The fields of a matched timestamp, read as year, month, day, hour, minute, second. */
  function StampFields(t: string): DateTime
    requires StampText(t)
  {
    DateTime(DigitsValue(t[..4]), DigitsValue(t[5..7]), DigitsValue(t[8..10]),
             DigitsValue(t[11..13]), DigitsValue(t[14..16]), DigitsValue(t[17..19]))
  }

  /** `_getDateFromPathName`: the leftmost timestamp in the path, parsed as
      `%Y-%m-%d-%H-%M-%S`. No match, or a match naming no real date and time,
      raises ValueError. */
  function DateFromPath(path: string): (r: Result<DateTime>)
    ensures r.Ok? ==> ValidDateTime(r.value)
    ensures r.Err? ==> r.error == ValueError
  {
    match FindStamp(path)
    case None => Err(ValueError)
    case Some(i) =>
      var dt := StampFields(path[i..i + 19]);
      if ValidDateTime(dt) then Ok(dt) else Err(ValueError)
  }

  /** The folder-name form of a valid timestamp has the timestamp's shape and reads
      back as the value it was written from. */
  lemma StampOf(dt: DateTime)
    requires ValidDateTime(dt)
    ensures StampText(PathStamp(dt)) && StampFields(PathStamp(dt)) == dt
  {
    StampPieces(Pad(dt.year, 4), Pad(dt.month, 2), Pad(dt.day, 2), Pad(dt.hour, 2), Pad(dt.minute, 2), Pad(dt.second, 2));
  }

  lemma StampPieces(y: string, mo: string, d: string, h: string, mi: string, se: string)
    requires |y| == 4 && |mo| == 2 && |d| == 2 && |h| == 2 && |mi| == 2 && |se| == 2
    ensures var p := y + "-" + mo + "-" + d + "-" + h + "-" + mi + "-" + se;
      |p| == 19 && p[..4] == y && p[4] == '-' && p[5..7] == mo && p[7] == '-' && p[8..10] == d
      && p[10] == '-' && p[11..13] == h && p[13] == '-' && p[14..16] == mi && p[16] == '-' && p[17..19] == se
  {
    var p := y + "-" + mo + "-" + d + "-" + h + "-" + mi + "-" + se;
    assert p[..4] == y;
    assert p[5..7] == mo;
    assert p[8..10] == d;
    assert p[11..13] == h;
    assert p[14..16] == mi;
    assert p[17..19] == se;
  }

  /** A valid timestamp written into a folder name is read back, provided the text
      before it holds no timestamp even when two more digits follow it (the pattern
      can start a match 17 or 18 characters before the timestamp and end inside it). */
  lemma {:induction false} DateFromPathOfStamp(prefix: string, dt: DateTime, suffix: string)
    requires ValidDateTime(dt)
    requires FindStamp(prefix + "00").None?
    ensures DateFromPath(prefix + PathStamp(dt) + suffix) == Ok(dt)
  {
    var stamp := PathStamp(dt);
    var s := prefix + stamp + suffix;
    var n := |prefix|;
    assert s[n..n + 19] == stamp;
    StampOf(dt);
    forall j | 0 <= j < n ensures !StampAt(s, j) {
      NoEarlierStamp(prefix, stamp, suffix, j);
    }
    FirstStamp(s, n);
  }

  /** A match at `n` with none before it is what the search finds. */
  lemma FirstStamp(s: string, n: nat)
    requires StampAt(s, n) && forall j :: 0 <= j < n ==> !StampAt(s, j)
    ensures FindStamp(s) == Some(n)
  {
  }

  /** What the pattern asks of the character at position `k` of a match. */
  predicate ShapeAt(k: int, c: char)
  {
    if 4 <= k && k % 3 == 1 then c == '-' else IsDigit(c)
  }

  lemma AllDigitsRange(t: string, a: nat, b: nat)
    requires a <= b <= |t|
    ensures AllDigits(t[a..b]) <==> forall k :: a <= k < b ==> IsDigit(t[k])
  {
    if forall k :: a <= k < b ==> IsDigit(t[k]) {
      forall i | 0 <= i < b - a ensures IsDigit(t[a..b][i]) {
        assert t[a..b][i] == t[a + i];
      }
    }
    if AllDigits(t[a..b]) {
      forall k | a <= k < b ensures IsDigit(t[k]) {
        assert t[a..b][k - a] == t[k];
      }
    }
  }

  /** The timestamp shape, one character at a time. */
  lemma StampTextPointwise(t: string)
    requires |t| == 19
    ensures StampText(t) <==> forall k :: 0 <= k < 19 ==> ShapeAt(k, t[k])
  {
    AllDigitsRange(t, 0, 4);
    AllDigitsRange(t, 5, 7);
    AllDigitsRange(t, 8, 10);
    AllDigitsRange(t, 11, 13);
    AllDigitsRange(t, 14, 16);
    AllDigitsRange(t, 17, 19);
  }

  /** No match starts inside the prefix. One that starts at least 17 characters
      before the timestamp is a match in the prefix followed by two digits; one that
      starts later would need a '-' where the timestamp has one of its first four
      digits. */
  lemma NoEarlierStamp(prefix: string, stamp: string, suffix: string, j: nat)
    requires StampText(stamp)
    requires FindStamp(prefix + "00").None?
    requires j < |prefix|
    ensures !StampAt(prefix + stamp + suffix, j)
  {
    if j + 17 <= |prefix| {
      if StampAt(prefix + stamp + suffix, j) {
        EarlyStamp(prefix, stamp, suffix, j);
      }
    } else {
      LateStamp(prefix, stamp, suffix, j);
    }
  }

  /** A match at least 17 characters before the timestamp is also one in the prefix
      followed by two digits. */
  lemma EarlyStamp(prefix: string, stamp: string, suffix: string, j: nat)
    requires StampText(stamp) && j + 17 <= |prefix|
    requires StampAt(prefix + stamp + suffix, j)
    ensures StampAt(prefix + "00", j)
  {
    var s := prefix + stamp + suffix;
    var w := prefix + "00";
    var u := s[j..j + 19];
    var v := w[j..j + 19];
    var m := |prefix| - j;
    StampTextPointwise(u);
    forall k | 0 <= k < 19 ensures ShapeAt(k, v[k]) {
      if k < m {
        assert v[k] == prefix[j + k] == u[k];
      } else {
        assert v[k] == '0';
      }
    }
    StampTextPointwise(v);
  }

  /** No match starts fewer than 17 characters before the timestamp. */
  lemma LateStamp(prefix: string, stamp: string, suffix: string, j: nat)
    requires StampText(stamp) && j < |prefix| < j + 17
    ensures !StampAt(prefix + stamp + suffix, j)
  {
    var s := prefix + stamp + suffix;
    StampTextPointwise(stamp);
    if StampAt(s, j) {
      var u := s[j..j + 19];
      StampTextPointwise(u);
    }
  }

  // ---------------------------------------------------------------------------
  // The serial-number pattern SN(\d{4})
  // ---------------------------------------------------------------------------

  predicate SerialAt(s: string, i: int)
  {
    0 <= i && i + 6 <= |s| && s[i] == 'S' && s[i + 1] == 'N' && AllDigits(s[i + 2..i + 6])
  }

  function FindSerialFrom(s: string, k: nat): (r: Option<nat>)
    ensures r.Some? ==> k <= r.value && SerialAt(s, r.value)
    ensures r.Some? ==> forall j :: k <= j < r.value ==> !SerialAt(s, j)
    ensures r.None? ==> forall j :: k <= j ==> !SerialAt(s, j)
    decreases |s| - k
  {
    if k + 6 > |s| then None
    else if SerialAt(s, k) then Some(k)
    else FindSerialFrom(s, k + 1)
  }

  /** `_getSNFromPathName`: the four digits after the leftmost `SN` that is followed by
      four digits; ValueError if there is none. */
  function SerialFromPath(path: string): (r: Result<string>)
    ensures r.Ok? ==> |r.value| == 4 && AllDigits(r.value)
    ensures r.Err? ==> r.error == ValueError
  {
    match FindSerialFrom(path, 0)
    case None => Err(ValueError)
    case Some(i) => Ok(path[i + 2..i + 6])
  }

  /** `SN` and four digits written into a folder name are read back, provided the text
      before them holds no serial number of its own. */
  lemma SerialFromPathOf(prefix: string, digits: string, suffix: string)
    requires |digits| == 4 && AllDigits(digits)
    requires FindSerialFrom(prefix, 0).None?
    ensures SerialFromPath(prefix + "SN" + digits + suffix) == Ok(digits)
  {
    var s := prefix + "SN" + digits + suffix;
    var n := |prefix|;
    assert s[n] == 'S' && s[n + 1] == 'N';
    assert s[n + 2..n + 6] == digits;
    forall j | 0 <= j < n ensures !SerialAt(s, j) {
      if j + 6 <= n {
        if SerialAt(s, j) {
          assert s[j + 2..j + 6] == prefix[j + 2..j + 6];
          assert SerialAt(prefix, j);
        }
      } else if j == n - 1 {
        assert s[j + 1] == 'S';
      } else {
        // the 'S' at n would have to be one of the four digits
        assert s[j + 2..j + 6][n - j - 2] == 'S';
      }
    }
    assert SerialAt(s, n);
    FirstSerial(s, n);
  }

  lemma FirstSerial(s: string, n: nat)
    requires SerialAt(s, n) && forall j :: 0 <= j < n ==> !SerialAt(s, j)
    ensures SerialFromPath(s) == Ok(s[n + 2..n + 6])
  {
  }
}
