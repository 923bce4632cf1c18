/**
  Calendar dates as the cashflow records carry them (Python `datetime`
  values whose time of day is midnight), their ordering, and the
  `strftime("%Y-%m-%d")` rendering used when an IRR is serialised.
*/
module Dates {
  import opened Wrappers

  datatype Date = Date(year: int, month: int, day: int)

  predicate IsLeapYear(y: int) {
    y % 4 == 0 && (y % 100 != 0 || y % 400 == 0)
  }

  function DaysInMonth(y: int, m: int): (n: int)
    requires 1 <= m <= 12
    ensures 28 <= n <= 31
  {
    if m == 2 then (if IsLeapYear(y) then 29 else 28)
    else if m == 4 || m == 6 || m == 9 || m == 11 then 30
    else 31
  }

  /** The dates a Python `datetime` can hold (years 1 to 9999). */
  predicate Valid(d: Date) {
    1 <= d.year <= 9999 && 1 <= d.month <= 12 && 1 <= d.day <= DaysInMonth(d.year, d.month)
  }

  /** Strict chronological order: `a < b` on two datetimes, field by field. */
  predicate Before(a: Date, b: Date) {
    a.year < b.year
    || (a.year == b.year && (a.month < b.month || (a.month == b.month && a.day < b.day)))
  }

  lemma BeforeIsStrictTotalOrder(a: Date, b: Date, c: Date)
    ensures !Before(a, a)
    ensures Before(a, b) && Before(b, c) ==> Before(a, c)
    ensures a == b || Before(a, b) || Before(b, a)
  {
  }

  // ----- strftime("%Y-%m-%d") -----

  function DigitChar(n: int): (c: char)
    requires 0 <= n < 10
    ensures '0' <= c <= '9' && c as int - '0' as int == n
  {
    (n + '0' as int) as char
  }

  predicate IsDigit(c: char) {
    '0' <= c <= '9'
  }

  /** The decimal number a string of digits spells. */
  function DigitsValue(s: string): (n: int)
    requires forall i :: 0 <= i < |s| ==> IsDigit(s[i])
    ensures 0 <= n
    decreases |s|
  {
    if s == [] then 0
    else
      assert IsDigit(s[|s| - 1]);
      DigitsValue(s[..|s| - 1]) * 10 + DigitOf(s[|s| - 1])
  }

  function DigitOf(c: char): int {
    c as int - '0' as int
  }

  /** `n` in two digits, zero-padded (`%m`, `%d`). */
  function Pad2(n: int): (s: string)
    requires 0 <= n < 100
  {
    [DigitChar(n / 10), DigitChar(n % 10)]
  }

  /** `n` in four digits, zero-padded (`%Y`). */
  function Pad4(n: int): (s: string)
    requires 0 <= n < 10000
  {
    Pad2(n / 100) + Pad2(n % 100)
  }

  /** `strftime("%Y-%m-%d")` of a valid date. */
  function Format(d: Date): (s: string)
    requires Valid(d)
    ensures |s| == 10 && s[4] == '-' && s[7] == '-'
    ensures forall i :: 0 <= i < 10 && i != 4 && i != 7 ==> IsDigit(s[i])
  {
    Pad4(d.year) + "-" + Pad2(d.month) + "-" + Pad2(d.day)
  }

  /** Reads back a `YYYY-MM-DD` string; `None` for anything else. */
  function Parse(s: string): (r: Option<Date>)
  {
    if |s| == 10 && s[4] == '-' && s[7] == '-'
       && (forall i :: 0 <= i < 10 && i != 4 && i != 7 ==> IsDigit(s[i]))
    then
      var d := Date(DigitsValue(s[0..4]), DigitsValue(s[5..7]), DigitsValue(s[8..10]));
      if Valid(d) then Some(d) else None
    else None
  }

  lemma {:induction false} Pad2Value(n: int)
    requires 0 <= n < 100
    ensures DigitsValue(Pad2(n)) == n
  {
    var s := Pad2(n);
    assert s[..1] == [DigitChar(n / 10)];
    assert s[..1][..0] == [];
    assert DigitsValue(s[..1]) == n / 10;
    assert DigitsValue(s) == (n / 10) * 10 + n % 10;
  }

  lemma {:induction false} Pad4Value(n: int)
    requires 0 <= n < 10000
    ensures DigitsValue(Pad4(n)) == n
  {
    var hi, lo := Pad2(n / 100), Pad2(n % 100);
    var s := hi + lo;
    assert s[..3] == hi + [lo[0]];
    assert s[..3][..2] == hi;
    Pad2Value(n / 100);
    assert DigitsValue(s[..3]) == (n / 100) * 10 + n % 100 / 10;
  }

  /** Formatting then parsing gives the date back. */
  lemma {:induction false} ParseFormat(d: Date)
    requires Valid(d)
    ensures Parse(Format(d)) == Some(d)
  {
    var s := Format(d);
    assert s[0..4] == Pad4(d.year);
    assert s[5..7] == Pad2(d.month);
    assert s[8..10] == Pad2(d.day);
    Pad4Value(d.year);
    Pad2Value(d.month);
    Pad2Value(d.day);
  }

  lemma {:induction false} TwoDigits(s: string)
    requires |s| == 2 && IsDigit(s[0]) && IsDigit(s[1])
    ensures 0 <= DigitsValue(s) < 100 && Pad2(DigitsValue(s)) == s
  {
    assert s[..1][..0] == [];
    var a, b := DigitOf(s[0]), DigitOf(s[1]);
    assert s[..1] == [s[0]];
    assert DigitsValue(s[..1]) == a;
    assert DigitsValue(s) == a * 10 + b;
    assert (a * 10 + b) / 10 == a && (a * 10 + b) % 10 == b;
  }

  lemma {:induction false} FourDigits(s: string)
    requires |s| == 4 && forall i :: 0 <= i < 4 ==> IsDigit(s[i])
    ensures 0 <= DigitsValue(s) < 10000 && Pad4(DigitsValue(s)) == s
  {
    var hi, lo := s[..2], s[2..];
    TwoDigits(hi);
    TwoDigits(lo);
    assert s[..3] == hi + [lo[0]];
    assert s[..3][..2] == hi;
    assert s[..4] == s;
    var n := DigitsValue(s);
    assert DigitsValue(s[..3]) == DigitsValue(hi) * 10 + DigitOf(lo[0]);
    assert lo[..1] == [lo[0]] && lo[..1][..0] == [];
    assert DigitsValue(lo) == DigitOf(lo[0]) * 10 + DigitOf(lo[1]);
    assert n == DigitsValue(hi) * 100 + DigitsValue(lo);
    assert n / 100 == DigitsValue(hi) && n % 100 == DigitsValue(lo);
    assert Pad4(n) == hi + lo;
  }

  /** A string parses to a date exactly when it is that date's rendering. */
  lemma {:induction false} FormatParse(s: string, d: Date)
    requires Valid(d)
    ensures Parse(s) == Some(d) <==> Format(d) == s
  {
    if Parse(s) == Some(d) {
      FourDigits(s[0..4]);
      TwoDigits(s[5..7]);
      TwoDigits(s[8..10]);
      assert s == s[0..4] + "-" + s[5..7] + "-" + s[8..10];
    }
    if Format(d) == s {
      ParseFormat(d);
    }
  }
}
