/**
 * Small value-level helpers shared by the server and client models:
 * optional values and results, decimal rendering of integers, the
 * `padStart(2, '0')` rule, the compact `YYMMDD:HH:MM:SS` timestamp both
 * the pipeline engine and the generate dialog build, JavaScript's relative
 * slice indices, substring tests and set-membership toggling.
 */
module Common {

  datatype Option<+T> = None | Some(value: T)

  datatype Result<+T, +E> = Success(value: T) | Failure(error: E)

  /** A JavaScript string value used in a truthiness test: absent or empty is falsy. */
  predicate Truthy(s: Option<string>) {
    s.Some? && s.value != ""
  }

  /** `a || b` on an optional string. */
  function OrElse(s: Option<string>, fallback: string): (r: string)
    ensures Truthy(s) ==> r == s.value
    ensures !Truthy(s) ==> r == fallback
  {
    if s.Some? && s.value != "" then s.value else fallback
  }

  // ---------------------------------------------------------------------
  // Decimal rendering (`String(n)`)

  predicate IsDigit(c: char) {
    '0' <= c <= '9'
  }

  function DigitChar(d: nat): (c: char)
    requires d < 10
    ensures IsDigit(c)
  {
    "0123456789"[d]
  }

  function DigitValue(c: char): (d: nat)
    requires IsDigit(c)
    ensures d < 10
  {
    (c as int - '0' as int) as nat
  }

  lemma DigitRoundTrip(d: nat)
    requires d < 10
    ensures DigitValue(DigitChar(d)) == d
  {
  }

  /** Decimal digits of `n`, most significant first, without leading zeros. */
  function NatToString(n: nat): (s: string)
    ensures |s| >= 1
    ensures forall i :: 0 <= i < |s| ==> IsDigit(s[i])
    decreases n
  {
    if n < 10 then [DigitChar(n)] else NatToString(n / 10) + [DigitChar(n % 10)]
  }

  /** Value of a string of decimal digits. */
  function DecimalValue(s: string): nat
    requires forall i :: 0 <= i < |s| ==> IsDigit(s[i])
  {
    if s == [] then 0 else DecimalValue(s[..|s| - 1]) * 10 + DigitValue(s[|s| - 1])
  }

  lemma {:induction false} NatToStringRoundTrip(n: nat)
    ensures DecimalValue(NatToString(n)) == n
    decreases n
  {
    var s := NatToString(n);
    if n < 10 {
      DigitRoundTrip(n);
    } else {
      NatToStringRoundTrip(n / 10);
      assert s[..|s| - 1] == NatToString(n / 10);
      DigitRoundTrip(n % 10);
    }
  }

  lemma {:induction false} NatToStringLength(n: nat)
    ensures n < 10 ==> |NatToString(n)| == 1
    ensures 10 <= n < 100 ==> |NatToString(n)| == 2
    ensures 100 <= n < 1000 ==> |NatToString(n)| == 3
    ensures 1000 <= n < 10000 ==> |NatToString(n)| == 4
  {
    if n >= 10 {
      NatToStringLength(n / 10);
    }
  }

  /** `String(i)` for an integer. */
  function IntToString(i: int): (s: string)
    ensures |s| >= 1
  {
    if i < 0 then "-" + NatToString(-i) else NatToString(i)
  }

  /** `s.padStart(width, '0')`: zeros are prepended until `s` is `width` long. */
  function PadStart(s: string, width: nat): (r: string)
    decreases width - |s|
  {
    if |s| >= width then s else PadStart("0" + s, width)
  }

  /** `String(n).padStart(2, '0')`. */
  function Pad2(n: nat): string {
    PadStart(NatToString(n), 2)
  }

  /** The padded form is at least two digits, and exactly two reading back as `n` below 100. */
  lemma Pad2Value(n: nat)
    ensures |Pad2(n)| >= 2
    ensures forall i :: 0 <= i < |Pad2(n)| ==> IsDigit(Pad2(n)[i])
    ensures n < 100 ==> |Pad2(n)| == 2 && DecimalValue(Pad2(n)) == n
  {
    NatToStringLength(n);
    NatToStringRoundTrip(n);
    var d := NatToString(n);
    if |d| < 2 {
      var r := "0" + d;
      assert PadStart(d, 2) == PadStart(r, 2) == r;
      assert r[..1] == "0";
    }
  }

  // ---------------------------------------------------------------------
  // The compact timestamp `YYMMDD:HH:MM:SS`

  /** Calendar fields as `Date` reports them (local time); `month0` is `getMonth()`, 0-based. */
  datatype DateTime = DateTime(year: nat, month0: nat, day: nat, hours: nat, minutes: nat, seconds: nat)

  predicate ValidDate(d: DateTime) {
    1000 <= d.year < 10000 && d.month0 < 12 && 1 <= d.day <= 31 &&
    d.hours < 24 && d.minutes < 60 && d.seconds < 60
  }

  /** `String(n).slice(2)`: the string without its first two characters. */
  function Drop2(s: string): string {
    if |s| <= 2 then "" else s[2..]
  }

  /**
   * `${String(year).slice(2)}${pad(month + 1)}${pad(date)}:${pad(hours)}:${pad(minutes)}:${pad(seconds)}`.
   */
  function CompactTimestamp(d: DateTime): string {
    Drop2(NatToString(d.year)) + Pad2(d.month0 + 1) + Pad2(d.day) + ":" +
    Pad2(d.hours) + ":" + Pad2(d.minutes) + ":" + Pad2(d.seconds)
  }

  /** For a four-digit year every field is two digits wide and reads back as the field's value. */
  lemma CompactTimestampLayout(d: DateTime)
    requires ValidDate(d)
    ensures var t := CompactTimestamp(d);
      |t| == 15 && t[6] == ':' && t[9] == ':' && t[12] == ':' &&
      (forall i :: 0 <= i < 15 && i != 6 && i != 9 && i != 12 ==> IsDigit(t[i])) &&
      DecimalValue(t[0..2]) == d.year % 100 &&
      DecimalValue(t[2..4]) == d.month0 + 1 &&
      DecimalValue(t[4..6]) == d.day &&
      DecimalValue(t[7..9]) == d.hours &&
      DecimalValue(t[10..12]) == d.minutes &&
      DecimalValue(t[13..15]) == d.seconds
  {
    var y := NatToString(d.year);
    NatToStringLength(d.year);
    YearSuffix(d.year);
    var yy, mm, dd := Drop2(y), Pad2(d.month0 + 1), Pad2(d.day);
    var hh, mi, ss := Pad2(d.hours), Pad2(d.minutes), Pad2(d.seconds);
    Pad2Value(d.month0 + 1);
    Pad2Value(d.day);
    Pad2Value(d.hours);
    Pad2Value(d.minutes);
    Pad2Value(d.seconds);
    FieldLayout(yy, mm, dd, hh, mi, ss);
  }

  /** Six two-character fields joined as `aabbcc:dd:ee:ff`: where each field sits. */
  lemma FieldLayout(yy: string, mm: string, dd: string, hh: string, mi: string, ss: string)
    requires |yy| == 2 && |mm| == 2 && |dd| == 2 && |hh| == 2 && |mi| == 2 && |ss| == 2
    ensures var t := yy + mm + dd + ":" + hh + ":" + mi + ":" + ss;
      |t| == 15 && t[6] == ':' && t[9] == ':' && t[12] == ':' &&
      t[0..2] == yy && t[2..4] == mm && t[4..6] == dd &&
      t[7..9] == hh && t[10..12] == mi && t[13..15] == ss
  {
    var t := yy + mm + dd + ":" + hh + ":" + mi + ":" + ss;
    assert t[0..2] == yy;
    assert t[2..4] == mm;
    assert t[4..6] == dd;
    assert t[7..9] == hh;
    assert t[10..12] == mi;
    assert t[13..15] == ss;
  }

  /** The last two digits of a four-digit year are the year modulo 100. */
  lemma YearSuffix(year: nat)
    requires 1000 <= year < 10000
    ensures var s := Drop2(NatToString(year));
      |s| == 2 && IsDigit(s[0]) && IsDigit(s[1]) && DecimalValue(s) == year % 100
  {
    var q := year / 10;
    var r0, r1 := year % 10, q % 10;
    assert year == 10 * q + r0;
    assert q == 10 * (q / 10) + r1;
    assert year == 100 * (q / 10) + (10 * r1 + r0);
    assert year % 100 == 10 * r1 + r0;
    NatToStringLength(q / 10);
    assert NatToString(year) == NatToString(q) + [DigitChar(r0)];
    assert NatToString(q) == NatToString(q / 10) + [DigitChar(r1)];
    var s := Drop2(NatToString(year));
    assert s == [DigitChar(r1), DigitChar(r0)];
    DigitRoundTrip(r0);
    DigitRoundTrip(r1);
    assert s[..1] == [DigitChar(r1)];
    assert DecimalValue(s[..1]) == DecimalValue([]) * 10 + DigitValue(s[0]);
    assert DecimalValue(s) == DecimalValue(s[..1]) * 10 + DigitValue(s[1]);
  }

  // ---------------------------------------------------------------------
  // Strings and sequences

  predicate StartsWith(s: string, prefix: string) {
    |prefix| <= |s| && s[..|prefix|] == prefix
  }

  predicate EndsWith(s: string, suffix: string) {
    |suffix| <= |s| && s[|s| - |suffix|..] == suffix
  }

  predicate OccursAt(s: string, p: string, i: int) {
    0 <= i <= |s| - |p| && s[i..i + |p|] == p
  }

  /** `s.includes(p)`. */
  predicate Contains(s: string, p: string) {
    exists i :: 0 <= i <= |s| - |p| && OccursAt(s, p, i)
  }

  /** Resolves a relative index the way `Array.prototype.slice` and `splice` do. */
  function RelativeIndex(k: int, len: nat): (r: nat)
    ensures r <= len
    ensures 0 <= k <= len ==> r == k
  {
    if k < 0 then (if len + k < 0 then 0 else len + k) else if k > len then len else k
  }

  /** `s.slice(start, end)`. */
  function JsSlice<T>(s: seq<T>, start: int, end: int): (r: seq<T>)
    ensures 0 <= start <= end <= |s| ==> r == s[start..end]
  {
    var a := RelativeIndex(start, |s|);
    var b := RelativeIndex(end, |s|);
    if a < b then s[a..b] else []
  }

  /** `s.slice(start)`. */
  function JsSliceFrom<T>(s: seq<T>, start: int): (r: seq<T>)
    ensures 0 <= start <= |s| ==> r == s[start..]
  {
    s[RelativeIndex(start, |s|)..]
  }

  /** `next.has(id) ? next.delete(id) : next.add(id)` on a copy of the set. */
  function Toggle(s: set<string>, x: string): (r: set<string>)
    ensures x in r <==> x !in s
    ensures forall y :: y != x ==> (y in r <==> y in s)
  {
    if x in s then s - {x} else s + {x}
  }

  lemma ToggleTwice(s: set<string>, x: string)
    ensures Toggle(Toggle(s, x), x) == s
  {
  }

  lemma ConcatAssoc<T>(x: seq<T>, y: seq<T>, z: seq<T>)
    ensures x + y + z == x + (y + z)
  {
  }
}
