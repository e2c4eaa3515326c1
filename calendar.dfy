/**
 * Proleptic Gregorian calendar dates, counted as whole days since 1970-01-01,
 * and the three calendar steps the purchase schedule uses: one day, one week
 * and one calendar month with end-of-month clamping (date-fns addDays,
 * addWeeks and addMonths).
 */
module Calendar {

  /** Milliseconds in one calendar day. */
  const MsPerDay: int := 86_400_000

  /** The year whose first of January is day 0. */
  const EpochYear: int := 1970

  datatype CivilDate = CivilDate(year: int, month: int, day: int)

  predicate IsLeap(y: int) {
    y % 4 == 0 && (y % 100 != 0 || y % 400 == 0)
  }

  function YearLength(y: int): int {
    if IsLeap(y) then 366 else 365
  }

  function DaysInMonth(y: int, m: int): (n: int)
    requires 1 <= m <= 12
    ensures 28 <= n <= 31
    ensures m == 2 ==> (n == 29 <==> IsLeap(y))
  {
    if m == 2 then (if IsLeap(y) then 29 else 28)
    else if m == 4 || m == 6 || m == 9 || m == 11 then 30
    else 31
  }

  /** A date that exists on the calendar. */
  predicate ValidDate(d: CivilDate) {
    1 <= d.month <= 12 && 1 <= d.day <= DaysInMonth(d.year, d.month)
  }

  /** Days of the year before the first day of month m. */
  function DaysBeforeMonth(y: int, m: int): int
    requires 1 <= m <= 12
  {
    var common :=
      match m
      case 1 => 0
      case 2 => 31
      case 3 => 59
      case 4 => 90
      case 5 => 120
      case 6 => 151
      case 7 => 181
      case 8 => 212
      case 9 => 243
      case 10 => 273
      case 11 => 304
      case _ => 334;
    if m > 2 && IsLeap(y) then common + 1 else common
  }

  /** Days from 1970-01-01 to the first of January of year y (negative before 1970). */
  function DaysBeforeYear(y: int): int
    decreases if y >= EpochYear then y - EpochYear else EpochYear - y
  {
    if y == EpochYear then 0
    else if y > EpochYear then DaysBeforeYear(y - 1) + YearLength(y - 1)
    else DaysBeforeYear(y + 1) - YearLength(y)
  }

  /** The day number of a date: 1970-01-01 is 0, the next day 1, the day before -1. */
  function DayNumber(d: CivilDate): int
    requires ValidDate(d)
  {
    DaysBeforeYear(d.year) + DaysBeforeMonth(d.year, d.month) + d.day - 1
  }

  /** The calendar day that contains the instant t (milliseconds since the epoch, local time). */
  function DayOf(t: int): int {
    t / MsPerDay
  }

  /** The instant at which day number n begins: startOfDay(...).getTime(). */
  function MidnightOf(n: int): (t: int)
    ensures DayOf(t) == n
    ensures t % MsPerDay == 0
  {
    n * MsPerDay
  }

  lemma YearStep(y: int)
    ensures DaysBeforeYear(y + 1) == DaysBeforeYear(y) + YearLength(y)
  {
  }

  lemma MonthStep(y: int, m: int)
    requires 1 <= m < 12
    ensures DaysBeforeMonth(y, m + 1) == DaysBeforeMonth(y, m) + DaysInMonth(y, m)
  {
  }

  lemma DecemberEnds(y: int)
    ensures DaysBeforeMonth(y, 12) + DaysInMonth(y, 12) == YearLength(y)
  {
  }

  /** The date that follows d on the calendar (date-fns addDays(d, 1)). */
  function NextDay(d: CivilDate): (r: CivilDate)
    requires ValidDate(d)
    ensures ValidDate(r)
    ensures DayNumber(r) == DayNumber(d) + 1
  {
    if d.day < DaysInMonth(d.year, d.month) then
      d.(day := d.day + 1)
    else if d.month < 12 then
      MonthStep(d.year, d.month);
      CivilDate(d.year, d.month + 1, 1)
    else
      YearStep(d.year);
      DecemberEnds(d.year);
      CivilDate(d.year + 1, 1, 1)
  }

  /** date-fns addDays(d, n) for n >= 0: n steps of one calendar day. */
  function AddDays(d: CivilDate, n: nat): (r: CivilDate)
    requires ValidDate(d)
    ensures ValidDate(r)
    ensures DayNumber(r) == DayNumber(d) + n
  {
    if n == 0 then d else NextDay(AddDays(d, n - 1))
  }

  /**
   * date-fns addMonths(d, 1): the same day of the next month, or the last day
   * of the next month when that month is too short.
   */
  function AddOneMonth(d: CivilDate): (r: CivilDate)
    requires ValidDate(d)
    ensures ValidDate(r)
    ensures r.year == (if d.month == 12 then d.year + 1 else d.year)
    ensures r.month == (if d.month == 12 then 1 else d.month + 1)
    ensures r.day == d.day || (r.day < d.day && r.day == DaysInMonth(r.year, r.month))
    ensures 28 <= DayNumber(r) - DayNumber(d) <= 31
  {
    var (y, m) := if d.month == 12 then (d.year + 1, 1) else (d.year, d.month + 1);
    var last := DaysInMonth(y, m);
    var r := CivilDate(y, m, if d.day <= last then d.day else last);
    if d.month == 12 then
      YearStep(d.year);
      DecemberEnds(d.year);
      r
    else
      MonthStep(d.year, d.month);
      r
  }
}
