/**
  Calendar dates as Python's `datetime.date` has them (proleptic Gregorian,
  years 1 to 9999), numbered by days since 1970-01-01 so that the
  dashboard's date windows can be compared with decision timestamps.
 */
module Calendar {

  datatype Date = Date(year: int, month: int, day: int)

  predicate IsLeapYear(y: int) {
    y % 4 == 0 && (y % 100 != 0 || y % 400 == 0)
  }

  function DaysInMonth(y: int, m: int): int
    requires 1 <= m <= 12
  {
    if m == 2 then (if IsLeapYear(y) then 29 else 28)
    else if m == 4 || m == 6 || m == 9 || m == 11 then 30
    else 31
  }

  /** The dates `datetime.date` can represent. */
  predicate Valid(d: Date) {
    1 <= d.year <= 9999 && 1 <= d.month <= 12 && 1 <= d.day <= DaysInMonth(d.year, d.month)
  }

  /** The number of leap years among the years 1 to `n`. */
  function LeapYearsThrough(n: nat): int {
    n / 4 - n / 100 + n / 400
  }

  /** Days from 1970-01-01 to January 1 of year `y`. */
  function DaysBeforeYear(y: int): int
    requires y >= 1
  {
    365 * (y - 1970) + LeapYearsThrough(y - 1) - LeapYearsThrough(1969)
  }

  /** Days from January 1 to the first day of month `m` of year `y`. */
  function DaysBeforeMonth(y: int, m: int): int
    requires 1 <= m <= 12
  {
    if m == 1 then 0 else DaysBeforeMonth(y, m - 1) + DaysInMonth(y, m - 1)
  }

  /** Days since 1970-01-01: `d.toordinal() - date(1970, 1, 1).toordinal()`. */
  function DayNumber(d: Date): int
    requires Valid(d)
  {
    DaysBeforeYear(d.year) + DaysBeforeMonth(d.year, d.month) + d.day - 1
  }

  /** `date.weekday()` of a day number: Monday is 0 and Sunday 6 (1970-01-01 was a Thursday). */
  function Weekday(n: int): (w: int)
    ensures 0 <= w < 7
  {
    (n + 3) % 7
  }

  /** `today - timedelta(days=today.weekday())`: the Monday on or before `today`. */
  function WeekStart(today: Date): (monday: int)
    requires Valid(today)
    ensures Weekday(monday) == 0
    ensures monday <= DayNumber(today) < monday + 7
  {
    var n := DayNumber(today);
    var k := (n + 3) / 7;
    assert n + 3 == 7 * k + (n + 3) % 7;
    assert n - Weekday(n) + 3 == 7 * k;
    n - Weekday(n)
  }

  /** `today.replace(day=1)`: the first day of `today`'s month. */
  function MonthStart(today: Date): (first: Date)
    requires Valid(today)
    ensures Valid(first) && first.day == 1
    ensures first.year == today.year && first.month == today.month
    ensures DayNumber(first) <= DayNumber(today)
    ensures DayNumber(today) - DayNumber(first) == today.day - 1
  {
    today.(day := 1)
  }

  /** Consecutive days of one month have consecutive day numbers. */
  lemma NextDayInMonth(d: Date)
    requires Valid(d) && d.day < DaysInMonth(d.year, d.month)
    ensures Valid(d.(day := d.day + 1))
    ensures DayNumber(d.(day := d.day + 1)) == DayNumber(d) + 1
  {
  }

  /** A month's last day and the next month's first day, within one year, have consecutive day numbers. */
  lemma NextDayInYear(d: Date)
    requires Valid(d) && d.month < 12 && d.day == DaysInMonth(d.year, d.month)
    ensures Valid(Date(d.year, d.month + 1, 1))
    ensures DayNumber(Date(d.year, d.month + 1, 1)) == DayNumber(d) + 1
  {
  }

  /** Multiples of 4, 100 and 400 among 1 to `n` grow by one exactly at a multiple. */
  lemma MultipleStep(n: int)
    requires n >= 1
    ensures n / 4 - (n - 1) / 4 == if n % 4 == 0 then 1 else 0
    ensures n / 100 - (n - 1) / 100 == if n % 100 == 0 then 1 else 0
    ensures n / 400 - (n - 1) / 400 == if n % 400 == 0 then 1 else 0
  {
  }

  /** A multiple of 400 is a multiple of 100. */
  lemma Multiple400(q: int)
    ensures (400 * q) % 100 == 0
  {
    assert 400 * q == 100 * (4 * q) + 0;
  }

  /** A multiple of 100 is a multiple of 4. */
  lemma Multiple100(q: int)
    ensures (100 * q) % 4 == 0
  {
    assert 100 * q == 4 * (25 * q) + 0;
  }

  /** Leap years among 1 to `n` exceed those among 1 to `n - 1` exactly when `n` is a leap year. */
  lemma LeapYearStep(n: int)
    requires n >= 1
    ensures LeapYearsThrough(n) - LeapYearsThrough(n - 1) == if IsLeapYear(n) then 1 else 0
  {
    MultipleStep(n);
    Multiple400(n / 400);
    Multiple100(n / 100);
  }

  /** December 31 and the following January 1 have consecutive day numbers. */
  lemma NextDayAcrossYear(y: int)
    requires 1 <= y < 9999
    ensures Valid(Date(y, 12, 31)) && Valid(Date(y + 1, 1, 1))
    ensures DayNumber(Date(y + 1, 1, 1)) == DayNumber(Date(y, 12, 31)) + 1
  {
    LeapYearStep(y);
    var leap := if IsLeapYear(y) then 1 else 0;
    assert DaysBeforeMonth(y, 2) == 31;
    assert DaysBeforeMonth(y, 3) == 59 + leap;
    assert DaysBeforeMonth(y, 4) == 90 + leap;
    assert DaysBeforeMonth(y, 5) == 120 + leap;
    assert DaysBeforeMonth(y, 6) == 151 + leap;
    assert DaysBeforeMonth(y, 7) == 181 + leap;
    assert DaysBeforeMonth(y, 8) == 212 + leap;
    assert DaysBeforeMonth(y, 9) == 243 + leap;
    assert DaysBeforeMonth(y, 10) == 273 + leap;
    assert DaysBeforeMonth(y, 11) == 304 + leap;
    assert DaysBeforeMonth(y, 12) == 334 + leap;
  }

  /** `weekday()` advances by one, modulo 7, from each day to the next. */
  lemma WeekdayStep(n: int)
    ensures Weekday(n + 1) == (Weekday(n) + 1) % 7
  {
  }

  /** Day numbers start at 1970-01-01, a Thursday; 2024-01-01 was a Monday. */
  lemma Anchors()
    ensures DayNumber(Date(1970, 1, 1)) == 0 && Weekday(0) == 3
    ensures Weekday(DayNumber(Date(2024, 1, 1))) == 0
  {
  }
}
