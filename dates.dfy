/**
 * Calendar dates and the date half of `Date.prototype.toISOString()`
 * (`toISOString().split('T')[0]`), which is how the server prints every
 * receipt date. The date parser of the JavaScript runtime is not modelled:
 * callers receive it as a function `string -> Option<Date>`.
 */
module Dates {
  import opened Wrappers
  import opened Text

  datatype CalDate = CalDate(year: int, month: int, day: int)

  /** Proleptic Gregorian leap years, as `Date` uses them. */
  predicate IsLeap(y: int) { (y % 4 == 0 && y % 100 != 0) || y % 400 == 0 }

  function DaysInMonth(y: int, m: int): int
    requires 1 <= m <= 12
  {
    if m == 2 then (if IsLeap(y) then 29 else 28)
    else if m == 4 || m == 6 || m == 9 || m == 11 then 30
    else 31
  }

  predicate ValidDate(d: CalDate) {
    1 <= d.month <= 12 && 1 <= d.day <= DaysInMonth(d.year, d.month)
  }

  /** A day a JavaScript `Date` can denote (a `Date` whose `getTime()` is not NaN). */
  type Date = d: CalDate | ValidDate(d) witness CalDate(2000, 1, 1)

  /** The year as `toISOString` prints it: four digits, or a sign and six digits outside 0..9999. */
  function YearString(y: int): (s: string)
    ensures |s| >= 4
  {
    if 0 <= y <= 9999 then ZeroPad(y, 4)
    else (if y < 0 then "-" else "+") + ZeroPad(if y < 0 then -y else y, 6)
  }

  /** `YYYY-MM-DD`. */
  function FormatIso(d: Date): (s: string)
    ensures |s| >= 10 && s[|s| - 6] == '-' && s[|s| - 3] == '-'
  {
    TwoDigits(d.month);
    TwoDigits(d.day);
    YearString(d.year) + "-" + ZeroPad(d.month, 2) + "-" + ZeroPad(d.day, 2)
  }

  lemma TwoDigits(n: nat)
    requires n < 100
    ensures |ZeroPad(n, 2)| == 2
  {
    if n >= 10 {
      assert NatToString(n) == NatToString(n / 10) + [DigitChar(n % 10)];
    }
  }

  /** Reads a year as `YearString` writes it. */
  function ParseYear(s: string): Option<int>
  {
    if |s| >= 1 && (s[0] == '+' || s[0] == '-') && |s| >= 2 && AllDigits(s[1..]) then
      Some(if s[0] == '-' then -(DigitsValue(s[1..]) as int) else DigitsValue(s[1..]))
    else if |s| >= 1 && AllDigits(s) then Some(DigitsValue(s))
    else None
  }

  /** Reads back what `FormatIso` prints: a year, then `-MM-DD`. */
  function ParseIso(s: string): Option<Date>
  {
    if |s| < 7 || s[|s| - 6] != '-' || s[|s| - 3] != '-' then None
    else
      var mm := s[|s| - 5..|s| - 3];
      var dd := s[|s| - 2..];
      var y := ParseYear(s[..|s| - 6]);
      if y.None? || !AllDigits(mm) || !AllDigits(dd) then None
      else
        var d := CalDate(y.value, DigitsValue(mm), DigitsValue(dd));
        if ValidDate(d) then Some(d) else None
  }

  lemma YearRoundTrip(y: int)
    ensures ParseYear(YearString(y)) == Some(y)
  {
    var s := YearString(y);
    if 0 <= y <= 9999 {
      assert s == ZeroPad(y, 4);
      assert IsDigit(s[0]);
    } else {
      var n := if y < 0 then -y else y;
      var z := ZeroPad(n, 6);
      assert s == [if y < 0 then '-' else '+'] + z;
      assert s[1..] == z;
      assert DigitsValue(z) == n;
    }
  }

  /** `ParseIso` of `a-b-c`, where `b` and `c` have two characters each, reads `a`, `b` and `c`. */
  lemma ParseIsoParts(a: string, b: string, c: string)
    requires |a| >= 1 && |b| == 2 && |c| == 2
    ensures ParseIso(a + "-" + b + "-" + c) ==
      if ParseYear(a).None? || !AllDigits(b) || !AllDigits(c) then None
      else
        var d := CalDate(ParseYear(a).value, DigitsValue(b), DigitsValue(c));
        if ValidDate(d) then Some(d) else None
  {
    var s := a + "-" + b + "-" + c;
    var n := |a|;
    assert |s| == n + 6;
    assert s[n] == '-' && s[n + 3] == '-';
    assert s[..n] == a by {
      forall i | 0 <= i < n ensures s[i] == a[i] { }
    }
    assert s[n + 1..n + 3] == b by {
      assert s[n + 1] == b[0] && s[n + 2] == b[1];
    }
    assert s[n + 4..] == c by {
      assert s[n + 4] == c[0] && s[n + 5] == c[1];
    }
  }

  /** Every printed date reads back as itself, so the printed form loses nothing. */
  lemma IsoRoundTrip(d: Date)
    ensures ParseIso(FormatIso(d)) == Some(d)
  {
    var ys := YearString(d.year);
    var mm := ZeroPad(d.month, 2);
    var dd := ZeroPad(d.day, 2);
    TwoDigits(d.month);
    TwoDigits(d.day);
    assert FormatIso(d) == ys + "-" + mm + "-" + dd;
    ParseIsoParts(ys, mm, dd);
    YearRoundTrip(d.year);
  }

  /** Printing is injective: two dates print alike only if they are the same date. */
  lemma FormatIsoInjective(d1: Date, d2: Date)
    requires FormatIso(d1) == FormatIso(d2)
    ensures d1 == d2
  {
    IsoRoundTrip(d1);
    IsoRoundTrip(d2);
  }
}
