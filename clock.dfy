/** The wall clock the pipelines read (`datetime.now()`), reduced to the one
    reading each modelled call takes, and the `strftime`/`isoformat` renderings
    they insert into tuples and object keys. */
module Clock {

  datatype DateTime = DateTime(
    year: nat, month: nat, day: nat,
    hour: nat, minute: nat, second: nat, microsecond: nat)

  /** The ranges Python's `datetime` enforces on its fields. */
  predicate ValidDateTime(t: DateTime) {
    1 <= t.year <= 9999 && 1 <= t.month <= 12 && 1 <= t.day <= 31
    && t.hour < 24 && t.minute < 60 && t.second < 60 && t.microsecond < 1000000
  }

  /** A value the clock can return. */
  type Instant = t: DateTime | ValidDateTime(t)
    witness DateTime(1970, 1, 1, 0, 0, 0, 0)

  function Pow10(w: nat): (p: nat)
    ensures p >= 1
  {
    if w == 0 then 1 else 10 * Pow10(w - 1)
  }

  predicate IsDigit(c: char) {
    '0' <= c <= '9'
  }

  predicate AllDigits(s: string) {
    forall i :: 0 <= i < |s| ==> IsDigit(s[i])
  }

  function DigitChar(d: nat): (c: char)
    requires d < 10
    ensures IsDigit(c)
  {
    ('0' as int + d) as char
  }

  /** `n` written in decimal with exactly `w` digits: zero-padded on the left,
      as `%Y`, `%m`, ... do for the values a valid `Instant` holds. */
  function Digits(n: nat, w: nat): string
  {
    if w == 0 then "" else Digits(n / 10, w - 1) + [DigitChar(n % 10)]
  }

  /** The number a string of decimal digits denotes (`int(s)` on such a string). */
  function Value(s: string): int
  {
    if |s| == 0 then 0 else 10 * Value(s[..|s| - 1]) + (s[|s| - 1] as int - '0' as int)
  }

  /** The rendering has exactly `w` decimal digits, and reading it back gives
      `n` whenever `n` fits in `w` digits. */
  lemma {:induction false} DigitsRoundTrip(n: nat, w: nat)
    ensures |Digits(n, w)| == w
    ensures AllDigits(Digits(n, w))
    ensures n < Pow10(w) ==> Value(Digits(n, w)) == n
  {
    if w > 0 {
      DigitsRoundTrip(n / 10, w - 1);
      var s := Digits(n, w);
      assert s[..|s| - 1] == Digits(n / 10, w - 1);
    }
  }

  /** `now.strftime('%Y-%m-%d %H:%M:%S')`. */
  function Timestamp(t: Instant): string {
    Digits(t.year, 4) + "-" + Digits(t.month, 2) + "-" + Digits(t.day, 2) + " "
    + Digits(t.hour, 2) + ":" + Digits(t.minute, 2) + ":" + Digits(t.second, 2)
  }

  /** `now.strftime('%Y%m%d_%H%M%S')`, used to rename processed files. */
  function Compact(t: Instant): string {
    Digits(t.year, 4) + Digits(t.month, 2) + Digits(t.day, 2) + "_"
    + Digits(t.hour, 2) + Digits(t.minute, 2) + Digits(t.second, 2)
  }

  /** `now.strftime('%Y-%m-%d')`, the daily folder of processed files. */
  function Day(t: Instant): string {
    Digits(t.year, 4) + "-" + Digits(t.month, 2) + "-" + Digits(t.day, 2)
  }

  /** `now.isoformat()`: the fraction is written only when it is non-zero. */
  function IsoFormat(t: Instant): string {
    Day(t) + "T" + Digits(t.hour, 2) + ":" + Digits(t.minute, 2) + ":" + Digits(t.second, 2)
    + (if t.microsecond == 0 then "" else "." + Digits(t.microsecond, 6))
  }

  /** Where the fields of a `%Y<a>%m<b>%d<c>%H<d>%M<e>%S` rendering sit. */
  lemma FieldSlices(y: string, mo: string, d: string, h: string, mi: string, se: string, s1: char, s2: char, s3: char, s4: char, s5: char)
    requires |y| == 4 && |mo| == 2 && |d| == 2 && |h| == 2 && |mi| == 2 && |se| == 2
    ensures var s := y + [s1] + mo + [s2] + d + [s3] + h + [s4] + mi + [s5] + se;
      |s| == 19 && s[4] == s1 && s[7] == s2 && s[10] == s3 && s[13] == s4 && s[16] == s5
      && s[0..4] == y && s[5..7] == mo && s[8..10] == d
      && s[11..13] == h && s[14..16] == mi && s[17..19] == se
  {
    var s := y + [s1] + mo + [s2] + d + [s3] + h + [s4] + mi + [s5] + se;
    assert s[0..4] == y by { assert s[0] == y[0] && s[1] == y[1] && s[2] == y[2] && s[3] == y[3]; }
    assert s[5..7] == mo by { assert s[5] == mo[0] && s[6] == mo[1]; }
    assert s[8..10] == d by { assert s[8] == d[0] && s[9] == d[1]; }
    assert s[11..13] == h by { assert s[11] == h[0] && s[12] == h[1]; }
    assert s[14..16] == mi by { assert s[14] == mi[0] && s[15] == mi[1]; }
    assert s[17..19] == se by { assert s[17] == se[0] && s[18] == se[1]; }
  }

  /** The fixed layout of a timestamp: 19 characters, digits except for the
      separators, and every field reads back as the instant's own value. */
  lemma TimestampLayout(t: Instant)
    ensures var s := Timestamp(t);
      |s| == 19 && s[4] == '-' && s[7] == '-' && s[10] == ' ' && s[13] == ':' && s[16] == ':'
      && AllDigits(s[0..4]) && AllDigits(s[5..7]) && AllDigits(s[8..10])
      && AllDigits(s[11..13]) && AllDigits(s[14..16]) && AllDigits(s[17..19])
      && Value(s[0..4]) == t.year && Value(s[5..7]) == t.month && Value(s[8..10]) == t.day
      && Value(s[11..13]) == t.hour && Value(s[14..16]) == t.minute && Value(s[17..19]) == t.second
  {
    DigitsRoundTrip(t.year, 4);
    DigitsRoundTrip(t.month, 2);
    DigitsRoundTrip(t.day, 2);
    DigitsRoundTrip(t.hour, 2);
    DigitsRoundTrip(t.minute, 2);
    DigitsRoundTrip(t.second, 2);
    FieldSlices(Digits(t.year, 4), Digits(t.month, 2), Digits(t.day, 2),
                Digits(t.hour, 2), Digits(t.minute, 2), Digits(t.second, 2), '-', '-', ' ', ':', ':');
  }

  /** Where the fields of a `%Y%m%d_%H%M%S` rendering sit. */
  lemma CompactSlices(y: string, mo: string, d: string, h: string, mi: string, se: string)
    requires |y| == 4 && |mo| == 2 && |d| == 2 && |h| == 2 && |mi| == 2 && |se| == 2
    ensures var s := y + mo + d + "_" + h + mi + se;
      |s| == 15 && s[8] == '_' && s[..8] == y + mo + d && s[9..] == h + mi + se
      && s[0..4] == y && s[4..6] == mo && s[6..8] == d
      && s[9..11] == h && s[11..13] == mi && s[13..15] == se
  {
  }

  lemma AllDigitsConcat(a: string, b: string)
    requires AllDigits(a) && AllDigits(b)
    ensures AllDigits(a + b)
  {
  }

  /** The compact stamp has 15 characters with `_` at index 8 and no `.` or
      `/`, and its fields read back as the instant's own values. */
  lemma CompactLayout(t: Instant)
    ensures var s := Compact(t);
      |s| == 15 && s[8] == '_' && '.' !in s && '/' !in s
      && AllDigits(s[..8]) && AllDigits(s[9..])
      && Value(s[0..4]) == t.year && Value(s[4..6]) == t.month && Value(s[6..8]) == t.day
      && Value(s[9..11]) == t.hour && Value(s[11..13]) == t.minute && Value(s[13..15]) == t.second
  {
    var y, mo, d := Digits(t.year, 4), Digits(t.month, 2), Digits(t.day, 2);
    var h, mi, se := Digits(t.hour, 2), Digits(t.minute, 2), Digits(t.second, 2);
    DigitsRoundTrip(t.year, 4);
    DigitsRoundTrip(t.month, 2);
    DigitsRoundTrip(t.day, 2);
    DigitsRoundTrip(t.hour, 2);
    DigitsRoundTrip(t.minute, 2);
    DigitsRoundTrip(t.second, 2);
    CompactSlices(y, mo, d, h, mi, se);
    AllDigitsConcat(y, mo);
    AllDigitsConcat(y + mo, d);
    AllDigitsConcat(h, mi);
    AllDigitsConcat(h + mi, se);
    var s := Compact(t);
    assert forall i :: 0 <= i < 15 ==> s[i] != '.' && s[i] != '/' by {
      forall i | 0 <= i < 15 ensures s[i] != '.' && s[i] != '/' {
        if i < 8 { assert s[i] == s[..8][i]; } else if i > 8 { assert s[i] == s[9..][i - 9]; }
      }
    }
  }

  /** The daily folder name has no `/`, so it is one path segment. */
  lemma DayLayout(t: Instant)
    ensures var s := Day(t);
      |s| == 10 && s[4] == '-' && s[7] == '-' && '/' !in s
      && Value(s[0..4]) == t.year && Value(s[5..7]) == t.month && Value(s[8..10]) == t.day
  {
    DigitsRoundTrip(t.year, 4);
    DigitsRoundTrip(t.month, 2);
    DigitsRoundTrip(t.day, 2);
    var s := Day(t);
    assert s[0..4] == Digits(t.year, 4);
    assert s[5..7] == Digits(t.month, 2);
    assert s[8..10] == Digits(t.day, 2);
    assert forall i :: 0 <= i < 10 ==> s[i] != '/';
  }
}
