/**
 * Calendar dates as Python's `datetime.date` and `dateutil.relativedelta` treat them:
 * a proleptic Gregorian calendar, lexicographic comparison, and month/year addition
 * that clamps the day to the end of the target month.
 */
module Dates {
  import opened Wrappers

  datatype Date = Date(year: int, month: int, day: int)

  predicate IsLeapYear(y: int) {
    (y % 4 == 0 && y % 100 != 0) || y % 400 == 0
  }

  function DaysInMonth(y: int, m: int): (n: int)
    requires 1 <= m <= 12
    ensures 28 <= n <= 31
    ensures m == 2 ==> (n == 29 <==> IsLeapYear(y))
  {
    if m == 2 then (if IsLeapYear(y) then 29 else 28)
    else if m == 4 || m == 6 || m == 9 || m == 11 then 30
    else 31
  }

  predicate ValidDate(d: Date) {
    1 <= d.month <= 12 && 1 <= d.day <= DaysInMonth(d.year, d.month)
  }

  /**
   * A real calendar day: a month in 1..12 and a day within that month. The year is not bounded
   * here; Python's `date` also keeps it in `MinYear..MaxYear`, which only `MakeDate` checks.
   */
  type CalendarDate = d: Date | ValidDate(d) witness Date(2000, 1, 1)

  /** Python's `datetime.MINYEAR` and `datetime.MAXYEAR`. */
  const MinYear := 1
  const MaxYear := 9999

  /** Python's `date(y, m, d)`: `None` stands for the `ValueError` it raises on a bad year, month or day. */
  function MakeDate(y: int, m: int, d: int): (r: Option<CalendarDate>)
    ensures r.Some? <==> MinYear <= y <= MaxYear && 1 <= m <= 12 && 1 <= d <= DaysInMonth(y, m)
    ensures r.Some? ==> r.value == Date(y, m, d) && ValidDate(r.value)
  {
    if MinYear <= y <= MaxYear && 1 <= m <= 12 && 1 <= d <= DaysInMonth(y, m) then Some(Date(y, m, d)) else None
  }

  /** Strict chronological order (`a < b` on Python dates). */
  predicate Before(a: Date, b: Date) {
    a.year < b.year || (a.year == b.year && (a.month < b.month || (a.month == b.month && a.day < b.day)))
  }

  /** `a <= b` on Python dates. */
  predicate AtOrBefore(a: Date, b: Date) {
    Before(a, b) || a == b
  }

  /** Months counted from year 0, so that consecutive calendar months differ by one. */
  function MonthIndex(year: int, month: int): int {
    year * 12 + (month - 1)
  }

  /** The calendar month before (year, month): January steps back to December of the previous year. */
  function PreviousMonth(year: int, month: int): (r: (int, int))
    requires 1 <= month <= 12
    ensures 1 <= r.1 <= 12
    ensures MonthIndex(r.0, r.1) == MonthIndex(year, month) - 1
  {
    if month > 1 then (year, month - 1) else (year - 1, 12)
  }

  /** The calendar month after (year, month): December steps on to January of the next year. */
  function NextMonth(year: int, month: int): (r: (int, int))
    requires 1 <= month <= 12
    ensures 1 <= r.1 <= 12
    ensures MonthIndex(r.0, r.1) == MonthIndex(year, month) + 1
  {
    if month < 12 then (year, month + 1) else (year + 1, 1)
  }

  /** A month within 1..12 is determined by its index, so stepping back and forth returns to the start. */
  lemma MonthStepsUndo(year: int, month: int)
    requires 1 <= month <= 12
    ensures var p := PreviousMonth(year, month); NextMonth(p.0, p.1) == (year, month)
    ensures var n := NextMonth(year, month); PreviousMonth(n.0, n.1) == (year, month)
  {
  }

  /** `d + relativedelta(months=n)`: move n calendar months, then clamp the day to the month's length. */
  function AddMonths(d: Date, n: int): (r: Date)
    requires ValidDate(d)
    ensures ValidDate(r)
    ensures MonthIndex(r.year, r.month) == MonthIndex(d.year, d.month) + n
    ensures r.day <= d.day
    ensures r.day == d.day || r.day == DaysInMonth(r.year, r.month)
  {
    var total := MonthIndex(d.year, d.month) + n;
    var y := total / 12;
    var m := total % 12 + 1;
    var last := DaysInMonth(y, m);
    Date(y, m, if d.day <= last then d.day else last)
  }

  /** `d + relativedelta(years=n)`: same month n years on, 29 February clamped to the 28th. */
  function AddYears(d: Date, n: int): (r: Date)
    requires ValidDate(d)
    ensures ValidDate(r)
    ensures r.year == d.year + n && r.month == d.month
    ensures r.day <= d.day
    ensures r.day == d.day || (d.month == 2 && d.day == 29 && r.day == 28 && !IsLeapYear(r.year))
  {
    var last := DaysInMonth(d.year + n, d.month);
    Date(d.year + n, d.month, if d.day <= last then d.day else last)
  }

  /** One month on is strictly later: the basis of "posting once per period" being idempotent. */
  lemma AddOneMonthIsLater(d: Date)
    requires ValidDate(d)
    ensures Before(d, AddMonths(d, 1))
  {
    var r := AddMonths(d, 1);
    assert MonthIndex(r.year, r.month) == MonthIndex(d.year, d.month) + 1;
  }

  /** One year on is strictly later. */
  lemma AddOneYearIsLater(d: Date)
    requires ValidDate(d)
    ensures Before(d, AddYears(d, 1))
  {
  }
}
