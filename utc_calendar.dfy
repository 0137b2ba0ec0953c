/** The calendar fields that the label engine reads from and writes to a
    `GregorianCalendar`, on epoch milliseconds in UTC with the proleptic
    Gregorian calendar. */
module UtcCalendar {
  import opened JavaNumerics

  const SECOND: int := 1000
  const MINUTE: int := 60_000
  const HOUR: int := 3_600_000
  const DAY: int := 86_400_000

  /** `Calendar.MILLISECOND`. */
  function MillisOfSecond(t: int): int { t % SECOND }

  /** `Calendar.MINUTE`. */
  function MinuteOfHour(t: int): int { (t / MINUTE) % 60 }

  /** `Calendar.HOUR_OF_DAY`. */
  function HourOfDay(t: int): int { (t / HOUR) % 24 }

  /** The start of the hour (or day) holding `t`. */
  function HourStart(t: int): int { t - t % HOUR }
  function DayStart(t: int): int { t - t % DAY }

  /** The fields below the day: hour, then the rest of the hour. */
  lemma DayFields(t: int)
    ensures t % DAY == HourOfDay(t) * HOUR + t % HOUR
    ensures 0 <= HourOfDay(t) < 24
  {
    ModSplit(t, HOUR, 24);
  }

  /** The fields below the hour: minute, then the rest of the minute. */
  lemma HourFields(t: int)
    ensures t % HOUR == MinuteOfHour(t) * MINUTE + t % MINUTE
    ensures 0 <= MinuteOfHour(t) < 60
  {
    ModSplit(t, MINUTE, 60);
  }

  /** The rest of the minute is the seconds field over the milliseconds. */
  lemma MinuteFields(t: int)
    ensures MillisOfSecond(t) <= t % MINUTE <= MillisOfSecond(t) + 59 * SECOND
  {
    ModSplit(t, SECOND, 60);
  }

  /** Whole days since 1970-01-01, rounded down. */
  function DayNumber(t: int): int { t / DAY }

  predicate IsLeapYear(y: int) {
    (y % 4 == 0 && y % 100 != 0) || y % 400 == 0
  }

  function YearLength(y: int): int {
    if IsLeapYear(y) then 366 else 365
  }

  /** The day number of January 1 of year `y`. */
  function YearStartDay(y: int): int
    decreases if y >= 1970 then y - 1970 else 1970 - y
  {
    if y == 1970 then 0
    else if y > 1970 then YearStartDay(y - 1) + YearLength(y - 1)
    else YearStartDay(y + 1) - YearLength(y)
  }

  lemma YearStartStep(y: int)
    ensures YearStartDay(y + 1) == YearStartDay(y) + YearLength(y)
  {}

  /** Year starts strictly increase. */
  lemma {:induction false} YearStartMonotone(a: int, b: int)
    requires a < b
    ensures YearStartDay(a) < YearStartDay(b)
    decreases b - a
  {
    YearStartStep(a);
    if a + 1 < b {
      YearStartMonotone(a + 1, b);
    }
  }

  function YearUp(y: int, d: int): (r: int)
    requires YearStartDay(y) <= d
    ensures YearStartDay(r) <= d < YearStartDay(r + 1)
    decreases d - YearStartDay(y)
  {
    YearStartStep(y);
    if d < YearStartDay(y + 1) then y else YearUp(y + 1, d)
  }

  function YearDown(y: int, d: int): (r: int)
    requires d < YearStartDay(y + 1)
    ensures YearStartDay(r) <= d < YearStartDay(r + 1)
    decreases YearStartDay(y + 1) - d
  {
    YearStartStep(y);
    if YearStartDay(y) <= d then y else YearDown(y - 1, d)
  }

  /** `Calendar.YEAR` of a day number: the year whose span holds it. */
  function YearOf(d: int): (y: int)
    ensures YearStartDay(y) <= d < YearStartDay(y + 1)
  {
    if d >= 0 then YearUp(1970, d) else YearDown(1969, d)
  }

  /** The year holding a day is the only year whose span holds it. */
  lemma YearOfUnique(d: int, y: int)
    requires YearStartDay(y) <= d < YearStartDay(y + 1)
    ensures YearOf(d) == y
  {
    var z := YearOf(d);
    if z + 1 < y + 1 {
      YearStartMonotone(z + 1, y);
    } else if y + 1 < z {
      YearStartMonotone(y + 1, z);
    }
  }

  /** The position of a day number in its year, counted from 1. */
  function DayInYear(d: int): (n: int)
    ensures 1 <= n <= YearLength(YearOf(d))
  {
    YearStartStep(YearOf(d));
    d - YearStartDay(YearOf(d)) + 1
  }

  /** `Calendar.DAY_OF_YEAR`, counted from 1. */
  function DayOfYear(t: int): (n: int)
    ensures 1 <= n <= YearLength(YearOf(DayNumber(t)))
  {
    DayInYear(DayNumber(t))
  }

  /** The days of 1970 are counted from the epoch. */
  lemma DaysOf1970(d: int)
    requires 0 <= d < 365
    ensures DayInYear(d) == d + 1
  {
    YearStartStep(1970);
    YearOfUnique(d, 1970);
  }

  /** The next day is the next one of the year, or the first of the next
      year, which only follows a day 365 or 366. */
  lemma DayInYearNext(d: int)
    ensures DayInYear(d + 1) == DayInYear(d) + 1 || DayInYear(d + 1) == 1
    ensures DayInYear(d) == 1 ==> DayInYear(d + 1) == 2
    ensures DayInYear(d + 1) == 1 ==> DayInYear(d) >= 365
  {
    var y := YearOf(d);
    if d + 1 < YearStartDay(y + 1) {
      SameYearNext(d, y);
    } else {
      NewYearNext(d, y);
    }
  }

  /** Within a year the day of the year counts up by one. */
  lemma SameYearNext(d: int, y: int)
    requires YearStartDay(y) <= d && d + 1 < YearStartDay(y + 1)
    ensures DayInYear(d + 1) == DayInYear(d) + 1 >= 2
  {
    YearOfUnique(d, y);
    YearOfUnique(d + 1, y);
  }

  /** The day after the last of a year is the first of the next, and the
      last is day 365 or 366. */
  lemma NewYearNext(d: int, y: int)
    requires d + 1 == YearStartDay(y + 1)
    ensures DayInYear(d + 1) == 1 && DayInYear(d) >= 365
  {
    YearStartGap(y);
    YearStartGap(y + 1);
    YearOfUnique(d, y);
    YearOfUnique(d + 1, y + 1);
  }

  /** A year is 365 or 366 days long. */
  lemma YearStartGap(y: int)
    ensures 365 <= YearStartDay(y + 1) - YearStartDay(y) <= 366
  {
    YearStartStep(y);
  }

  /** One day later the day of the year is the next one, or the first day of
      the next year; after a first day it is always the second. */
  lemma DayOfYearNext(t: int)
    ensures DayOfYear(t + DAY) == DayOfYear(t) + 1 || DayOfYear(t + DAY) == 1
    ensures DayOfYear(t) == 1 ==> DayOfYear(t + DAY) == 2
    ensures DayOfYear(t + DAY) == 1 ==> DayOfYear(t) >= 365
  {
    assert DayNumber(t + DAY) == DayNumber(t) + 1;
    DayInYearNext(DayNumber(t));
  }
}
