/**
 * Calendar dates and instants as the pages use JavaScript `Date`: a date has a
 * full year, a month counted from 0 (January) as `getMonth()` returns it, and a
 * day of the month; an instant adds the milliseconds elapsed since local midnight.
 * The time zone is fixed (local time throughout).
 */
module CalendarDates {

  datatype Date = Date(year: int, month: int, day: int)

  predicate IsLeapYear(y: int)
  {
    y % 4 == 0 && (y % 100 != 0 || y % 400 == 0)
  }

  function DaysInMonth(y: int, m: int): (n: int)
    requires 0 <= m < 12
    ensures 28 <= n <= 31
  {
    if m == 1 then (if IsLeapYear(y) then 29 else 28)
    else if m == 3 || m == 5 || m == 8 || m == 10 then 30
    else 31
  }

  predicate ValidDate(d: Date)
  {
    0 <= d.month < 12 && 1 <= d.day <= DaysInMonth(d.year, d.month)
  }

  /** A JavaScript `Date` always denotes an existing day of the proleptic Gregorian calendar. */
  type CalendarDate = d: Date | ValidDate(d) witness Date(1970, 0, 1)

  const MillisPerDay: int := 86400000

  /** A point in time: a calendar date and the milliseconds since its midnight. */
  datatype Instant = Instant(date: CalendarDate, millis: int)

  predicate ValidInstant(t: Instant)
  {
    0 <= t.millis < MillisPerDay
  }

  /** `new Date(y, m, d)`: midnight at the start of a calendar date. */
  function Midnight(d: CalendarDate): (t: Instant)
    ensures ValidInstant(t) && t.date == d
  {
    Instant(d, 0)
  }

  /** Chronological order of dates (year, then month, then day). */
  predicate DateBefore(a: Date, b: Date)
  {
    a.year < b.year
    || (a.year == b.year && a.month < b.month)
    || (a.year == b.year && a.month == b.month && a.day < b.day)
  }

  /** `a < b` on two `Date` objects: strict chronological order of instants. */
  predicate Before(a: Instant, b: Instant)
  {
    DateBefore(a.date, b.date) || (a.date == b.date && a.millis < b.millis)
  }

  /** Days from 1 January of year 1 to 1 January of year `y`. */
  function DaysBeforeYear(y: int): int
  {
    var p := y - 1;
    365 * p + p / 4 - p / 100 + p / 400
  }

  /** Days from 1 January of year `y` to the first of month `m`. */
  function DaysBeforeMonth(y: int, m: int): int
    requires 0 <= m < 12
  {
    var leap := if m >= 2 && IsLeapYear(y) then 1 else 0;
    var table := [0, 31, 59, 90, 120, 151, 181, 212, 243, 273, 304, 334];
    table[m] + leap
  }

  /** Consecutive days get consecutive numbers; day 0 is 1 January of year 1, a Monday. */
  function DayNumber(d: CalendarDate): int
  {
    DaysBeforeYear(d.year) + DaysBeforeMonth(d.year, d.month) + d.day - 1
  }

  /** `getDay()`: 0 is Sunday, 6 is Saturday. */
  function Weekday(d: CalendarDate): (w: int)
    ensures 0 <= w < 7
  {
    (DayNumber(d) + 1) % 7
  }

  predicate IsWeekend(d: CalendarDate)
  {
    Weekday(d) == 0 || Weekday(d) == 6
  }

  /** The calendar day after `d`. */
  function NextDay(d: CalendarDate): (n: CalendarDate)
    ensures DateBefore(d, n)
  {
    if d.day < DaysInMonth(d.year, d.month) then Date(d.year, d.month, d.day + 1)
    else if d.month < 11 then Date(d.year, d.month + 1, 1)
    else Date(d.year + 1, 0, 1)
  }

  lemma DivStep(a: int)
    ensures a / 4 - (a - 1) / 4 == (if a % 4 == 0 then 1 else 0)
    ensures a / 100 - (a - 1) / 100 == (if a % 100 == 0 then 1 else 0)
    ensures a / 400 - (a - 1) / 400 == (if a % 400 == 0 then 1 else 0)
  {
  }

  lemma Multiple400(y: int)
    requires y % 400 == 0
    ensures y % 100 == 0
  {
    var k := y / 400;
    assert y == 100 * (4 * k);
  }

  lemma Multiple100(y: int)
    requires y % 100 == 0
    ensures y % 4 == 0
  {
    var k := y / 100;
    assert y == 4 * (25 * k);
  }

  /** A year has 366 days exactly when it is a leap year. */
  lemma {:induction false} YearLength(y: int)
    ensures DaysBeforeYear(y + 1) - DaysBeforeYear(y) == if IsLeapYear(y) then 366 else 365
  {
    assert DaysBeforeYear(y + 1) - DaysBeforeYear(y)
        == 365 + (y / 4 - (y - 1) / 4) - (y / 100 - (y - 1) / 100) + (y / 400 - (y - 1) / 400);
    DivStep(y);
    if y % 400 == 0 {
      Multiple400(y);
      Multiple100(y);
    } else if y % 100 == 0 {
      Multiple100(y);
    }
  }

  /** The month table agrees with the month lengths. */
  lemma MonthLength(y: int, m: int)
    requires 0 <= m < 11
    ensures DaysBeforeMonth(y, m + 1) - DaysBeforeMonth(y, m) == DaysInMonth(y, m)
  {
  }

  /** The day numbering has no gaps or repeats. */
  lemma NextDayNumber(d: CalendarDate)
    ensures DayNumber(NextDay(d)) == DayNumber(d) + 1
  {
    var n := NextDay(d);
    if d.day < DaysInMonth(d.year, d.month) {
      assert n == Date(d.year, d.month, d.day + 1);
    } else if d.month < 11 {
      assert n == Date(d.year, d.month + 1, 1);
      MonthLength(d.year, d.month);
    } else {
      assert n == Date(d.year + 1, 0, 1);
      assert d.day == 31;
      assert DaysBeforeMonth(d.year, 11) == 334 + (if IsLeapYear(d.year) then 1 else 0);
      YearLength(d.year);
    }
  }

  /** So the weekday advances by one each day, Saturday being followed by Sunday. */
  lemma NextWeekday(d: CalendarDate)
    ensures Weekday(NextDay(d)) == (Weekday(d) + 1) % 7
  {
    NextDayNumber(d);
    var k := DayNumber(d) + 1;
    assert Weekday(NextDay(d)) == (k + 1) % 7;
    assert Weekday(d) == k % 7;
    ModSevenStep(k);
  }

  lemma ModSevenStep(k: int)
    ensures (k + 1) % 7 == (k % 7 + 1) % 7
  {
  }

  /** 1 January 1970 (the Unix epoch) was a Thursday. */
  lemma EpochIsThursday()
    ensures Weekday(Date(1970, 0, 1)) == 4
  {
  }
}
