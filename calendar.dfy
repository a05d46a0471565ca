/** Calendar dates and the period truncation of `getPeriodStart`
  * (utils/predictionDataProcessor.js). Dates are proleptic Gregorian;
  * day numbers count from 1970-01-01, which was a Thursday. */
module Calendar {

  const MillisPerDay: int := 86_400_000

  datatype Date = Date(year: int, month: int, day: int)

  /** A JavaScript `Date`: a calendar date and the milliseconds into that day. */
  datatype Timestamp = Timestamp(date: Date, millis: int)

  /** The bucket sizes `getPeriodStart` recognises; any other string is `Unrecognised`. */
  datatype Period = Daily | Weekly | Monthly | Unrecognised

  predicate IsLeapYear(y: int)
  {
    y % 4 == 0 && (y % 100 != 0 || y % 400 == 0)
  }

  function DaysInMonth(y: int, m: int): int
    requires 1 <= m <= 12
  {
    if m == 2 then (if IsLeapYear(y) then 29 else 28)
    else if m == 4 || m == 6 || m == 9 || m == 11 then 30
    else 31
  }

  predicate ValidDate(d: Date)
  {
    1 <= d.month <= 12 && 1 <= d.day <= DaysInMonth(d.year, d.month)
  }

  predicate ValidTimestamp(t: Timestamp)
  {
    ValidDate(t.date) && 0 <= t.millis < MillisPerDay
  }

  /** Chronological order of dates (lexicographic on year, month, day). */
  predicate DateBefore(a: Date, b: Date)
  {
    a.year < b.year
    || (a.year == b.year && a.month < b.month)
    || (a.year == b.year && a.month == b.month && a.day < b.day)
  }

  /** Days of the year that precede the first of month m. */
  function DaysBeforeMonth(y: int, m: int): int
    requires 1 <= m <= 12
  {
    var common :=
      if m == 1 then 0 else if m == 2 then 31 else if m == 3 then 59
      else if m == 4 then 90 else if m == 5 then 120 else if m == 6 then 151
      else if m == 7 then 181 else if m == 8 then 212 else if m == 9 then 243
      else if m == 10 then 273 else if m == 11 then 304 else 334;
    if m > 2 && IsLeapYear(y) then common + 1 else common
  }

  /** Leap years in 1..x, minus those in 1..0 (Euclidean division makes it exact for every x). */
  function LeapYearsThrough(x: int): int
  {
    x / 4 - x / 100 + x / 400
  }

  /** Days from 1970-01-01 to the first of January of year y. */
  function DaysBeforeYear(y: int): int
  {
    365 * y + LeapYearsThrough(y - 1) - 719527
  }

  function DayNumber(d: Date): int
    requires 1 <= d.month <= 12
  {
    DaysBeforeYear(d.year) + DaysBeforeMonth(d.year, d.month) + d.day - 1
  }

  /** The weekday of a day number: 0 is Sunday, 6 is Saturday (day 0 was a Thursday). */
  function DayOfWeek(n: int): (w: int)
    ensures 0 <= w < 7
  {
    (n + 4) % 7
  }

  /** `getDay()`. */
  function Weekday(d: Date): (w: int)
    requires 1 <= d.month <= 12
    ensures 0 <= w < 7
  {
    DayOfWeek(DayNumber(d))
  }

  lemma EpochIsThursday()
    ensures DayNumber(Date(1970, 1, 1)) == 0 && Weekday(Date(1970, 1, 1)) == 4
  {
    assert 1969 / 4 == 492 && 1969 / 100 == 19 && 1969 / 400 == 4;
  }

  /** Stepping x down by one moves x / 4, x / 100 and x / 400 exactly when x is a multiple. */
  lemma DivSteps(x: int)
    ensures x / 4 - (x - 1) / 4 == if x % 4 == 0 then 1 else 0
    ensures x / 100 - (x - 1) / 100 == if x % 100 == 0 then 1 else 0
    ensures x / 400 - (x - 1) / 400 == if x % 400 == 0 then 1 else 0
    ensures x % 100 == 0 ==> x % 4 == 0
    ensures x % 400 == 0 ==> x % 100 == 0
  {
  }

  /** Consecutive years differ by the length of the earlier one. */
  lemma {:induction false} YearLength(y: int)
    ensures DaysBeforeYear(y + 1) - DaysBeforeYear(y) == if IsLeapYear(y) then 366 else 365
  {
    DivSteps(y);
  }

  /** The day before a valid date, rolling back over month and year ends as `setDate(0)` does. */
  function PrevDay(d: Date): (p: Date)
    requires ValidDate(d)
    ensures ValidDate(p)
  {
    if d.day > 1 then Date(d.year, d.month, d.day - 1)
    else if d.month > 1 then Date(d.year, d.month - 1, DaysInMonth(d.year, d.month - 1))
    else Date(d.year - 1, 12, 31)
  }

  lemma PrevDayNumber(d: Date)
    requires ValidDate(d)
    ensures DayNumber(PrevDay(d)) == DayNumber(d) - 1
  {
    if d.day == 1 && d.month == 1 {
      YearLength(d.year - 1);
    }
  }

  /** The date k days earlier. */
  function SubDays(d: Date, k: nat): (p: Date)
    requires ValidDate(d)
    ensures ValidDate(p)
    decreases k
  {
    if k == 0 then d else SubDays(PrevDay(d), k - 1)
  }

  lemma {:induction false} SubDaysNumber(d: Date, k: nat)
    requires ValidDate(d)
    ensures DayNumber(SubDays(d, k)) == DayNumber(d) - k
    decreases k
  {
    if k > 0 {
      PrevDayNumber(d);
      SubDaysNumber(PrevDay(d), k - 1);
    }
  }

  /** The Sunday on or before d: `setDate(getDate() - getDay())`. */
  function WeekStart(d: Date): Date
    requires ValidDate(d)
  {
    SubDays(d, Weekday(d))
  }

  /** `getPeriodStart`: daily and monthly keep or reset the day, weekly goes back to Sunday,
    * the three known periods zero the time of day, and any other period leaves the value as it is. */
  function PeriodStart(t: Timestamp, p: Period): Timestamp
    requires ValidTimestamp(t)
  {
    match p
    case Daily => Timestamp(t.date, 0)
    case Weekly => Timestamp(WeekStart(t.date), 0)
    case Monthly => Timestamp(Date(t.date.year, t.date.month, 1), 0)
    case Unrecognised => t
  }

  /** A weekly start is a Sunday, 0 to 6 days at or before the input. */
  lemma WeekStartIsSunday(d: Date)
    requires ValidDate(d)
    ensures ValidDate(WeekStart(d))
    ensures Weekday(WeekStart(d)) == 0
    ensures DayNumber(WeekStart(d)) == DayNumber(d) - Weekday(d)
    ensures DayNumber(d) - 6 <= DayNumber(WeekStart(d)) <= DayNumber(d)
  {
    SubDaysNumber(d, Weekday(d));
    BackToSunday(DayNumber(d));
  }

  lemma BackToSunday(n: int)
    ensures (n - (n + 4) % 7 + 4) % 7 == 0
  {
    var w := (n + 4) % 7;
    assert n - w + 4 == 7 * ((n + 4) / 7);
  }

  /** Every period start is a valid timestamp; the three known periods start at midnight. */
  lemma PeriodStartValid(t: Timestamp, p: Period)
    requires ValidTimestamp(t)
    ensures ValidTimestamp(PeriodStart(t, p))
    ensures p != Unrecognised ==> PeriodStart(t, p).millis == 0
  {
    if p == Weekly {
      WeekStartIsSunday(t.date);
    }
  }

  /** Truncating twice is truncating once, for every period. */
  lemma PeriodStartIdempotent(t: Timestamp, p: Period)
    requires ValidTimestamp(t)
    ensures ValidTimestamp(PeriodStart(t, p))
    ensures PeriodStart(PeriodStart(t, p), p) == PeriodStart(t, p)
  {
    PeriodStartValid(t, p);
    if p == Weekly {
      WeekStartIsSunday(t.date);
    }
  }

  /** What each period does to a timestamp: the daily start keeps the date, the weekly start is the
    * Sunday of the same week, the monthly start is the first of the same month, and an
    * unrecognised period changes nothing. */
  lemma PeriodStartShape(t: Timestamp, p: Period)
    requires ValidTimestamp(t)
    ensures p == Daily ==> PeriodStart(t, p) == Timestamp(t.date, 0)
    ensures p == Weekly ==> var s := PeriodStart(t, p).date;
      ValidDate(s) && Weekday(s) == 0 && DayNumber(t.date) - 6 <= DayNumber(s) <= DayNumber(t.date)
    ensures p == Monthly ==> var s := PeriodStart(t, p).date;
      s.year == t.date.year && s.month == t.date.month && s.day == 1 && PeriodStart(t, p).millis == 0
    ensures p == Unrecognised ==> PeriodStart(t, p) == t
  {
    if p == Weekly {
      WeekStartIsSunday(t.date);
    }
  }
}
