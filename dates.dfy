/** Calendar dates as the pattern scan sees them (the `Date` column of a daily
    download, a `datetime.date`), their chronological order, and the
    `"%Y. %m. %d"` rendering the scan report prints. */
module Dates {
  import opened Wrappers

  datatype Date = Date(year: int, month: int, day: int)
  {
    /** The range a `datetime.date` can hold (month lengths are not modelled). */
    predicate Valid() {
      1 <= year <= 9999 && 1 <= month <= 12 && 1 <= day <= 31
    }
  }

  /** A date a `datetime.date` can hold. */
  type CalendarDate = d: Date | d.Valid() witness Date(1970, 1, 1)

  /** `a < b` on dates: chronological, i.e. lexicographic on (year, month, day). */
  predicate Before(a: Date, b: Date) {
    || a.year < b.year
    || (a.year == b.year && a.month < b.month)
    || (a.year == b.year && a.month == b.month && a.day < b.day)
  }

  /** `a >= b` on dates, the test the scan applies against its cutoff. */
  predicate AtOrAfter(a: Date, b: Date) {
    !Before(a, b)
  }

  /** Chronological order is a strict total order, so `>=` is its complement. */
  lemma BeforeIsStrictTotalOrder(a: Date, b: Date, c: Date)
    ensures !Before(a, a)
    ensures Before(a, b) && Before(b, c) ==> Before(a, c)
    ensures a != b ==> Before(a, b) || Before(b, a)
    ensures AtOrAfter(a, b) <==> a == b || Before(b, a)
  {
  }

  function DigitChar(n: int): (c: char)
    requires 0 <= n < 10
    ensures '0' <= c <= '9'
  {
    (n + '0' as int) as char
  }

  predicate IsDigit(c: char) {
    '0' <= c <= '9'
  }

  function DigitValue(c: char): int {
    c as int - '0' as int
  }

  /** A zero-padded two-digit field (`%m`, `%d`). */
  function Pad2(n: int): (s: string)
    requires 0 <= n < 100
  {
    [DigitChar(n / 10), DigitChar(n % 10)]
  }

  /** A zero-padded four-digit field (`%Y`). */
  function Pad4(n: int): (s: string)
    requires 0 <= n < 10000
  {
    [DigitChar(n / 1000), DigitChar(n / 100 % 10), DigitChar(n / 10 % 10), DigitChar(n % 10)]
  }

  /** `date.strftime("%Y. %m. %d")`. */
  function FormatDate(d: CalendarDate): (s: string)
    ensures |s| == 12 && s[4..6] == ". " && s[8..10] == ". "
  {
    Pad4(d.year) + ". " + Pad2(d.month) + ". " + Pad2(d.day)
  }

  /** The value of a string of decimal digits, most significant first. */
  function DigitsValue(s: string): int {
    if s == [] then 0 else DigitsValue(s[..|s| - 1]) * 10 + DigitValue(s[|s| - 1])
  }

  /** Reads a `"YYYY. MM. DD"` text back into a date; `None` when the text has another shape. */
  function ParseDate(s: string): Option<Date> {
    if |s| == 12 && s[4..6] == ". " && s[8..10] == ". "
       && (forall k | k in {0, 1, 2, 3, 6, 7, 10, 11} :: IsDigit(s[k]))
    then Some(Date(DigitsValue(s[0..4]), DigitsValue(s[6..8]), DigitsValue(s[10..12])))
    else None
  }

  lemma Pad2RoundTrip(n: int)
    requires 0 <= n < 100
    ensures DigitsValue(Pad2(n)) == n
  {
    var s := Pad2(n);
    assert s[..1] == [s[0]];
    assert DigitsValue(s[..1]) == n / 10;
  }

  lemma Pad4RoundTrip(n: int)
    requires 0 <= n < 10000
    ensures DigitsValue(Pad4(n)) == n
  {
    var s := Pad4(n);
    assert s[..3][..2][..1] == [s[0]];
    assert s[..3][..2] == s[..2];
    assert DigitsValue(s[..2]) == n / 100 by {
      assert DigitsValue(s[..1]) == n / 1000;
    }
    assert DigitsValue(s[..3]) == n / 10;
  }

  lemma DigitsPad2(s: string)
    requires |s| == 2 && IsDigit(s[0]) && IsDigit(s[1])
    ensures 0 <= DigitsValue(s) < 100 && Pad2(DigitsValue(s)) == s
  {
    assert s[..1] == [s[0]] && [s[0]][..0] == [];
    assert DigitsValue(s[..1]) == DigitValue(s[0]);
    var v := DigitsValue(s);
    assert v == DigitValue(s[0]) * 10 + DigitValue(s[1]);
    assert v / 10 == DigitValue(s[0]) && v % 10 == DigitValue(s[1]);
  }

  lemma DigitsPad4(s: string)
    requires |s| == 4 && IsDigit(s[0]) && IsDigit(s[1]) && IsDigit(s[2]) && IsDigit(s[3])
    ensures 0 <= DigitsValue(s) < 10000 && Pad4(DigitsValue(s)) == s
  {
    assert s[..3][..2][..1] == [s[0]];
    assert s[..3][..2] == s[..2];
    var a, b, c, d := DigitValue(s[0]), DigitValue(s[1]), DigitValue(s[2]), DigitValue(s[3]);
    assert [s[0]][..0] == [];
    assert DigitsValue(s[..1]) == a;
    assert s[..2][..1] == s[..1];
    assert DigitsValue(s[..2]) == a * 10 + b;
    assert s[..3][..2] == s[..2];
    assert DigitsValue(s[..3]) == (a * 10 + b) * 10 + c;
    var v := DigitsValue(s);
    assert v == ((a * 10 + b) * 10 + c) * 10 + d;
    assert v == 1000 * a + 100 * b + 10 * c + d;
    assert v / 1000 == a;
    assert v / 100 == 10 * a + b;
    assert v / 100 % 10 == b;
    assert v / 10 == 100 * a + 10 * b + c;
    assert v / 10 % 10 == c;
    assert v % 10 == d;
  }

  /** Rendering a date and reading it back gives the date again, so distinct
      dates never print alike. */
  lemma ParseFormatDate(d: CalendarDate)
    ensures ParseDate(FormatDate(d)) == Some(d)
  {
    var s := FormatDate(d);
    assert s[0..4] == Pad4(d.year);
    assert s[6..8] == Pad2(d.month);
    assert s[10..12] == Pad2(d.day);
    Pad4RoundTrip(d.year);
    Pad2RoundTrip(d.month);
    Pad2RoundTrip(d.day);
  }

  /** Every text that reads as a valid date is exactly that date's rendering. */
  lemma FormatParseDate(s: string)
    requires ParseDate(s).Some? && ParseDate(s).value.Valid()
    ensures FormatDate(ParseDate(s).value) == s
  {
    var d := ParseDate(s).value;
    assert IsDigit(s[0]) && IsDigit(s[1]) && IsDigit(s[2]) && IsDigit(s[3]);
    assert IsDigit(s[6]) && IsDigit(s[7]) && IsDigit(s[10]) && IsDigit(s[11]);
    DigitsPad4(s[0..4]);
    DigitsPad2(s[6..8]);
    DigitsPad2(s[10..12]);
    assert s == s[0..4] + s[4..6] + s[6..8] + s[8..10] + s[10..12];
  }

  lemma FormatDateInjective(a: CalendarDate, b: CalendarDate)
    requires FormatDate(a) == FormatDate(b)
    ensures a == b
  {
    ParseFormatDate(a);
    ParseFormatDate(b);
  }
}
