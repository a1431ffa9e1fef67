/**
 * The calendar behind JavaScript's `Date` in local time, on a time line of
 * integer milliseconds: the proleptic Gregorian calendar, `new Date(y, m, d)`
 * with its roll-over of out-of-range months and days, and `getDay`.
 * A month is named by its month number 12 * year + monthIndex (January = 0).
 */
module Calendar {

  const DayMs: int := 86400000

  /** January 1970, the month the time line starts in. */
  const EpochMonth: int := 1970 * 12

  predicate IsLeapYear(y: int) {
    y % 4 == 0 && (y % 100 != 0 || y % 400 == 0)
  }

  /** The length of month number `n`. */
  function DaysInMonth(n: int): (d: int)
    ensures 28 <= d <= 31
  {
    var m := n % 12;
    if m == 1 then (if IsLeapYear(n / 12) then 29 else 28)
    else if m == 3 || m == 5 || m == 8 || m == 10 then 30
    else 31
  }

  /** Days from 1970-01-01 to the first day of month number `n` (negative before 1970). */
  function MonthStartDay(n: int): int
    decreases if n >= EpochMonth then n - EpochMonth else EpochMonth - n
  {
    if n == EpochMonth then 0
    else if n > EpochMonth then MonthStartDay(n - 1) + DaysInMonth(n - 1)
    else MonthStartDay(n + 1) - DaysInMonth(n)
  }

  /** Consecutive months follow each other without gap or overlap. */
  lemma MonthStartStep(n: int)
    ensures MonthStartDay(n + 1) == MonthStartDay(n) + DaysInMonth(n)
  {
  }

  /** `new Date(year, month, day)`: local midnight of that day, rolling months and days over. */
  function DateOf(year: int, month: int, day: int): int {
    (MonthStartDay(12 * year + month) + day - 1) * DayMs
  }

  /** Midnight of the 1st of month number `n`. */
  function MonthStart(n: int): int {
    MonthStartDay(n) * DayMs
  }

  /** `new Date(y, m + 1, 0)`: midnight at the start of the last day of month number `n`. */
  function MonthLastMidnight(n: int): (t: int)
    ensures t == MonthStart(n + 1) - DayMs
    ensures MonthStart(n) < t
  {
    MonthStartStep(n);
    (MonthStartDay(n + 1) - 1) * DayMs
  }

  /** Local midnight at the start of the day that contains `t`. */
  function DayStart(t: int): int {
    (t / DayMs) * DayMs
  }

  /** Date.prototype.getDay: 0 is Sunday, and 1970-01-01 was a Thursday. */
  function WeekDay(t: int): (w: int)
    ensures 0 <= w < 7
  {
    (t / DayMs + 4) % 7
  }

  /** The clock reading "now", broken down as `getFullYear`, `getMonth`, `getDate` and the time of day. */
  datatype Now = Now(year: int, month: int, day: int, msOfDay: int)
  {
    predicate Valid() {
      0 <= month < 12 && 1 <= day <= DaysInMonth(12 * year + month) && 0 <= msOfDay < DayMs
    }

    function MonthNumber(): int {
      12 * year + month
    }

    /** `new Date(now.getFullYear(), now.getMonth(), now.getDate())`. */
    function Midnight(): int {
      DateOf(year, month, day)
    }

    function Time(): int {
      Midnight() + msOfDay
    }
  }

  /** Day 0 of a month is the last day of the month before, and day DaysInMonth + 1 is the first of the next. */
  lemma RollOver(year: int, month: int)
    ensures DateOf(year, month, 0) == DateOf(year, month - 1, DaysInMonth(12 * year + month - 1))
    ensures DateOf(year, month, DaysInMonth(12 * year + month) + 1) == DateOf(year, month + 1, 1)
  {
    MonthStartStep(12 * year + month - 1);
    MonthStartStep(12 * year + month);
  }

  /** A valid day of a month lies within that month's span of the time line. */
  lemma DayWithinMonth(year: int, month: int, day: int)
    requires 1 <= day <= DaysInMonth(12 * year + month)
    ensures DateOf(year, month, 1) <= DateOf(year, month, day) < DateOf(year, month + 1, 1)
  {
    MonthStartStep(12 * year + month);
  }

  /** The reading "now" lies in the day that starts at its midnight, and in its month. */
  lemma NowWithin(now: Now)
    requires now.Valid()
    ensures now.Midnight() <= now.Time() < now.Midnight() + DayMs
    ensures DateOf(now.year, now.month, 1) <= now.Time() < DateOf(now.year, now.month + 1, 1)
    ensures DayStart(now.Time()) == now.Midnight()
  {
    DayWithinMonth(now.year, now.month, now.day);
    MonthStartStep(now.MonthNumber());
    var k := MonthStartDay(now.MonthNumber()) + now.day - 1;
    assert now.Time() == k * DayMs + now.msOfDay;
    assert now.Time() / DayMs == k;
  }

  /** The next day is the next weekday, Saturday wrapping round to Sunday. */
  lemma WeekDayNext(t: int)
    ensures WeekDay(t + DayMs) == (WeekDay(t) + 1) % 7
  {
    assert (t + DayMs) / DayMs == t / DayMs + 1;
  }

  /** The Gregorian leap-year rule on a few years. */
  lemma LeapYears()
    ensures DaysInMonth(12 * 2024 + 1) == 29 && DaysInMonth(12 * 2025 + 1) == 28
    ensures DaysInMonth(12 * 2000 + 1) == 29 && DaysInMonth(12 * 2100 + 1) == 28
  {
  }
}
