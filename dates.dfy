/** Calendar dates and year-month buckets, as the pipeline uses them after `pd.to_datetime`. */
module Dates {
  import opened Wrappers

  /** A calendar date. The time of day a parsed timestamp may carry is not modelled. */
  datatype Date = Date(year: int, month: int, day: int)

  /** A calendar month, the value of `to_period('M')`. */
  datatype YearMonth = YearMonth(year: int, month: int)

  predicate IsLeapYear(year: int) {
    year % 4 == 0 && (year % 100 != 0 || year % 400 == 0)
  }

  function DaysInMonth(year: int, month: int): int
    requires 1 <= month <= 12
  {
    if month == 2 then (if IsLeapYear(year) then 29 else 28)
    else if month == 4 || month == 6 || month == 9 || month == 11 then 30
    else 31
  }

  /** A date of the proleptic Gregorian calendar with a four-digit year. */
  predicate ValidDate(d: Date) {
    1 <= d.year <= 9999 && 1 <= d.month <= 12 && 1 <= d.day <= DaysInMonth(d.year, d.month)
  }

  predicate ValidMonth(m: YearMonth) {
    1 <= m.year <= 9999 && 1 <= m.month <= 12
  }

  /** Chronological order on dates: `a` is the same day as `b` or earlier. */
  predicate DateLe(a: Date, b: Date) {
    a.year < b.year || (a.year == b.year && (a.month < b.month || (a.month == b.month && a.day <= b.day)))
  }

  /** The first day of a month. */
  function FirstDay(m: YearMonth): Date {
    Date(m.year, m.month, 1)
  }

  /** The last day of a month. */
  function LastDay(m: YearMonth): Date
    requires ValidMonth(m)
  {
    Date(m.year, m.month, DaysInMonth(m.year, m.month))
  }

  /** The month a date falls in (`dt.to_period('M')`): the month whose first and last days enclose it. */
  function MonthOf(d: Date): (m: YearMonth)
    ensures ValidDate(d) ==> ValidMonth(m) && DateLe(FirstDay(m), d) && DateLe(d, LastDay(m))
  {
    YearMonth(d.year, d.month)
  }

  /** No other month encloses a date: MonthOf is the only month the date falls in. */
  lemma MonthOfUnique(d: Date, m: YearMonth)
    requires ValidDate(d) && ValidMonth(m)
    ensures DateLe(FirstDay(m), d) && DateLe(d, LastDay(m)) <==> m == MonthOf(d)
  {
  }

  function Digit(n: int): (c: char)
    requires 0 <= n <= 9
    ensures '0' <= c <= '9'
    ensures DigitValue(c) == n
  {
    ('0' as int + n) as char
  }

  function DigitValue(c: char): int {
    c as int - '0' as int
  }

  predicate IsDigit(c: char) {
    '0' <= c <= '9'
  }

  /** The text of a month as `str()` renders a monthly period: "YYYY-MM", zero-padded. */
  function MonthLabel(m: YearMonth): (s: string)
    requires ValidMonth(m)
    ensures |s| == 7 && s[4] == '-'
    ensures forall i | 0 <= i < 7 && i != 4 :: IsDigit(s[i])
  {
    var y := m.year;
    [Digit(y / 10 / 10 / 10), Digit(y / 10 / 10 % 10), Digit(y / 10 % 10), Digit(y % 10), '-',
     Digit(m.month / 10), Digit(m.month % 10)]
  }

  /** Reads a "YYYY-MM" label back; the inverse of MonthLabel. */
  function ParseMonthLabel(s: string): Option<YearMonth> {
    if |s| == 7 && s[4] == '-' && forall i | 0 <= i < 7 && i != 4 :: IsDigit(s[i]) then
      Some(YearMonth(
        ((DigitValue(s[0]) * 10 + DigitValue(s[1])) * 10 + DigitValue(s[2])) * 10 + DigitValue(s[3]),
        DigitValue(s[5]) * 10 + DigitValue(s[6])))
    else
      None
  }

  lemma {:induction false} MonthLabelRoundTrip(m: YearMonth)
    requires ValidMonth(m)
    ensures ParseMonthLabel(MonthLabel(m)) == Some(m)
  {
    var y1 := m.year / 10;
    var y2 := y1 / 10;
    assert m.year == y1 * 10 + m.year % 10;
    assert y1 == y2 * 10 + y1 % 10;
    assert y2 == y2 / 10 * 10 + y2 % 10;
    assert y2 / 10 <= 9;
  }

  /** Distinct months get distinct labels, so grouping by label groups by month. */
  lemma {:induction false} MonthLabelInjective(a: YearMonth, b: YearMonth)
    requires ValidMonth(a) && ValidMonth(b)
    ensures MonthLabel(a) == MonthLabel(b) <==> a == b
  {
    MonthLabelRoundTrip(a);
    MonthLabelRoundTrip(b);
  }
}
