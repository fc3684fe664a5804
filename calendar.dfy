/**
 * java.time.LocalDate: a proleptic Gregorian date, its ordering, its ISO text
 * (LocalDate.toString) and the minusDays / minusWeeks / minusMonths / minusYears
 * arithmetic the range queries use. "Today" is always a parameter.
 */
module Calendar {
  import opened Wrappers
  import opened Text

  datatype Date = Date(year: int, month: int, day: int)

  predicate IsLeapYear(y: int) {
    y % 4 == 0 && (y % 100 != 0 || y % 400 == 0)
  }

  function LengthOfMonth(y: int, m: int): int {
    if m == 2 then (if IsLeapYear(y) then 29 else 28)
    else if m == 4 || m == 6 || m == 9 || m == 11 then 30
    else 31
  }

  predicate ValidDate(d: Date) {
    1 <= d.month <= 12 && 1 <= d.day <= LengthOfMonth(d.year, d.month)
  }

  /** A LocalDate value: a (year, month, day) triple that names a real day. */
  type LocalDate = d: Date | ValidDate(d) witness Date(1970, 1, 1)

  /** LocalDate.isBefore */
  predicate IsBefore(a: LocalDate, b: LocalDate) {
    || a.year < b.year
    || (a.year == b.year && a.month < b.month)
    || (a.year == b.year && a.month == b.month && a.day < b.day)
  }

  /** LocalDate.isAfter */
  predicate IsAfter(a: LocalDate, b: LocalDate) { IsBefore(b, a) }

  /** The year as LocalDate.toString writes it: at least four digits, '+' above 9999. */
  function YearText(y: int): (r: string)
    ensures |r| >= 4
  {
    if -1000 < y < 1000 then (if y < 0 then "-" else "") + Pad4(if y < 0 then -y else y)
    else if y > 9999 then "+" + NatToString(y)
    else IntToString(y)
  }

  /** LocalDate.toString: uuuu-MM-dd */
  function IsoString(d: LocalDate): (r: string)
    ensures |r| >= 10
  {
    YearText(d.year) + "-" + Pad2(d.month) + "-" + Pad2(d.day)
  }

  /** For a four-digit year the ISO text starts with yyyy-MM. */
  lemma IsoStringFourDigitYear(d: LocalDate)
    requires 0 <= d.year <= 9999
    ensures IsoString(d)[..7] == Pad4(d.year) + "-" + Pad2(d.month)
  {
    if d.year >= 1000 {
      NatToStringFourDigits(d.year);
    }
    assert YearText(d.year) == Pad4(d.year);
  }

  function PrevDay(d: LocalDate): (r: LocalDate)
    ensures IsBefore(r, d)
  {
    if d.day > 1 then Date(d.year, d.month, d.day - 1)
    else if d.month > 1 then Date(d.year, d.month - 1, LengthOfMonth(d.year, d.month - 1))
    else Date(d.year - 1, 12, 31)
  }

  /** LocalDate.minusDays for a non-negative count */
  function MinusDays(d: LocalDate, n: nat): LocalDate
    decreases n
  {
    if n == 0 then d else MinusDays(PrevDay(d), n - 1)
  }

  /** LocalDate.minusWeeks */
  function MinusWeeks(d: LocalDate, n: nat): LocalDate {
    MinusDays(d, 7 * n)
  }

  /** Months since year 0, the quantity LocalDate.plusMonths shifts. */
  function MonthCount(y: int, m: int): int { y * 12 + (m - 1) }

  /** LocalDate.minusMonths: shift the month count, then clamp the day to the month's length. */
  function MinusMonths(d: LocalDate, n: nat): LocalDate {
    var total := MonthCount(d.year, d.month) - n;
    var y := total / 12;
    var m := total % 12 + 1;
    Date(y, m, Min(d.day, LengthOfMonth(y, m)))
  }

  /** LocalDate.minusYears: same month, day clamped (29 February becomes 28 February). */
  function MinusYears(d: LocalDate, n: nat): LocalDate {
    var y := d.year - n;
    Date(y, d.month, Min(d.day, LengthOfMonth(y, d.month)))
  }

  lemma IsBeforeTransitive(a: LocalDate, b: LocalDate, c: LocalDate)
    requires IsBefore(a, b) && IsBefore(b, c)
    ensures IsBefore(a, c)
  {
  }

  /** Going back a positive number of days lands strictly before the start. */
  lemma {:induction false} MinusDaysIsBefore(d: LocalDate, n: nat)
    requires n > 0
    ensures IsBefore(MinusDays(d, n), d)
    decreases n
  {
    if n > 1 {
      MinusDaysIsBefore(PrevDay(d), n - 1);
      IsBeforeTransitive(MinusDays(d, n), PrevDay(d), d);
    }
  }

  /** Going back a positive number of months lands strictly before the start. */
  lemma MinusMonthsIsBefore(d: LocalDate, n: nat)
    requires n > 0
    ensures IsBefore(MinusMonths(d, n), d)
  {
    var total := MonthCount(d.year, d.month) - n;
    var y, m := total / 12, total % 12 + 1;
    assert total == y * 12 + (m - 1);
    assert y <= d.year;
    if y == d.year {
      assert m - 1 < d.month - 1;
    }
  }

  /** Going back a positive number of years lands strictly before the start. */
  lemma MinusYearsIsBefore(d: LocalDate, n: nat)
    requires n > 0
    ensures IsBefore(MinusYears(d, n), d)
  {
  }
}
