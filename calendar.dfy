/**
 * An abstract local calendar standing in for JavaScript's `Date`: a date-time
 * is a proleptic Gregorian year, a month 0..11 (as `getMonth` returns it), a
 * day of the month (`getDate`) and the milliseconds since midnight. The day of
 * the week (`getDay`, 0 = Sunday) is derived from the day number counted from
 * 1970-01-01, which was a Thursday. Time zones are not modelled: local time is
 * the time of the epoch.
 */
module Calendar {

  const MsPerDay: int := 86400000

  /** A point in time, in milliseconds since the epoch (how the store compares timestamps). */
  type Instant = int

  datatype DateTime = DateTime(year: int, month: int, date: int, time: int)

  predicate IsLeapYear(y: int)
  {
    (y % 4 == 0 && y % 100 != 0) || y % 400 == 0
  }

  function DaysInMonth(y: int, m: int): (n: int)
    requires 0 <= m < 12
    ensures 28 <= n <= 31
  {
    if m == 1 then (if IsLeapYear(y) then 29 else 28)
    else if m == 3 || m == 5 || m == 8 || m == 10 then 30
    else 31
  }

  function YearLength(y: int): int
  {
    if IsLeapYear(y) then 366 else 365
  }

  /** A well-formed date-time: a real calendar day and a time of day below 24 hours. */
  predicate Valid(dt: DateTime)
  {
    && 0 <= dt.month < 12
    && 1 <= dt.date <= DaysInMonth(dt.year, dt.month)
    && 0 <= dt.time < MsPerDay
  }

  function DaysBeforeMonth(y: int, m: int): int
    requires 0 <= m <= 12
    decreases m
  {
    if m == 0 then 0 else DaysBeforeMonth(y, m - 1) + DaysInMonth(y, m - 1)
  }

  function DaysBeforeYear(y: int): int
    decreases if y >= 1970 then y - 1970 else 1970 - y
  {
    if y == 1970 then 0
    else if y > 1970 then DaysBeforeYear(y - 1) + YearLength(y - 1)
    else DaysBeforeYear(y + 1) - YearLength(y)
  }

  /**
   * The day number of day `d` of month `m` of year `y`, counted from
   * 1970-01-01. `d` may lie outside the month: the count then runs on into
   * the neighbouring months, as JavaScript's date arithmetic does.
   */
  function DayIndex(y: int, m: int, d: int): int
    requires 0 <= m < 12
  {
    DaysBeforeYear(y) + DaysBeforeMonth(y, m) + d - 1
  }

  function DayNumber(dt: DateTime): int
    requires 0 <= dt.month < 12
  {
    DayIndex(dt.year, dt.month, dt.date)
  }

  /** The instant a date-time denotes (`getTime`). */
  function Millis(dt: DateTime): Instant
    requires 0 <= dt.month < 12
  {
    DayNumber(dt) * MsPerDay + dt.time
  }

  /** The day of the week of day number `n`: 0 is Sunday, 1 is Monday, ..., 6 is Saturday. */
  function DayOfWeek(n: int): (w: int)
    ensures 0 <= w < 7
  {
    (n + 4) % 7
  }

  /** `getDay`. */
  function Weekday(dt: DateTime): (w: int)
    requires 0 <= dt.month < 12
    ensures 0 <= w < 7
  {
    DayOfWeek(DayNumber(dt))
  }

  /** `new Date(0)`. */
  const Epoch: DateTime := DateTime(1970, 0, 1, 0)

  lemma EpochIsZero()
    ensures Valid(Epoch) && Millis(Epoch) == 0 && Weekday(Epoch) == 4
  {
    assert DaysBeforeYear(1970) == 0;
    assert DaysBeforeMonth(1970, 0) == 0;
  }

  lemma {:induction false} DaysBeforeYearStep(y: int)
    ensures DaysBeforeYear(y) == DaysBeforeYear(y - 1) + YearLength(y - 1)
  {
  }

  /** The twelve months make up the year. */
  lemma MonthsMakeYear(y: int)
    ensures DaysBeforeMonth(y, 12) == YearLength(y)
  {
    assert DaysBeforeMonth(y, 1) == 31;
    assert DaysBeforeMonth(y, 2) == 31 + DaysInMonth(y, 1);
    assert DaysBeforeMonth(y, 3) == 62 + DaysInMonth(y, 1);
    assert DaysBeforeMonth(y, 4) == 92 + DaysInMonth(y, 1);
    assert DaysBeforeMonth(y, 5) == 123 + DaysInMonth(y, 1);
    assert DaysBeforeMonth(y, 6) == 153 + DaysInMonth(y, 1);
    assert DaysBeforeMonth(y, 7) == 184 + DaysInMonth(y, 1);
    assert DaysBeforeMonth(y, 8) == 215 + DaysInMonth(y, 1);
    assert DaysBeforeMonth(y, 9) == 245 + DaysInMonth(y, 1);
    assert DaysBeforeMonth(y, 10) == 276 + DaysInMonth(y, 1);
    assert DaysBeforeMonth(y, 11) == 306 + DaysInMonth(y, 1);
  }

  /** The month before month `m` of year `y`. */
  function PrevMonth(y: int, m: int): (r: (int, int))
    requires 0 <= m < 12
    ensures 0 <= r.1 < 12
  {
    if m == 0 then (y - 1, 11) else (y, m - 1)
  }

  /** The day after the last of the previous month is the first of this one. */
  lemma PrevMonthIndex(y: int, m: int)
    requires 0 <= m < 12
    ensures var r := PrevMonth(y, m);
            DayIndex(r.0, r.1, DaysInMonth(r.0, r.1) + 1) == DayIndex(y, m, 1)
  {
    if m == 0 {
      DaysBeforeYearStep(y);
      MonthsMakeYear(y - 1);
    }
  }

  /** The month after month `m` of year `y`. */
  function NextMonth(y: int, m: int): (r: (int, int))
    requires 0 <= m < 12
    ensures 0 <= r.1 < 12
  {
    if m == 11 then (y + 1, 0) else (y, m + 1)
  }

  /** The first of the next month is the day after the last of this one. */
  lemma NextMonthIndex(y: int, m: int)
    requires 0 <= m < 12
    ensures var r := NextMonth(y, m);
            DayIndex(r.0, r.1, 1) == DayIndex(y, m, DaysInMonth(y, m) + 1)
  {
    if m == 11 {
      DaysBeforeYearStep(y + 1);
      MonthsMakeYear(y);
    }
  }

  /**
   * JavaScript's `MakeDay`: day `d` of month `m` of year `y` brought into
   * range by moving whole months, so that the day number is unchanged.
   */
  function MakeDate(y: int, m: int, d: int, time: int): (r: DateTime)
    requires 0 <= m < 12
    ensures 0 <= r.month < 12 && 1 <= r.date <= DaysInMonth(r.year, r.month)
    ensures r.time == time
    ensures DayNumber(r) == DayIndex(y, m, d)
    decreases (if d < 1 then 1 - d else 0), (if d < 1 then 0 else d)
  {
    if d < 1 then
      var p := PrevMonth(y, m);
      PrevMonthIndex(y, m);
      MakeDate(p.0, p.1, d + DaysInMonth(p.0, p.1), time)
    else if d > DaysInMonth(y, m) then
      var n := NextMonth(y, m);
      NextMonthIndex(y, m);
      MakeDate(n.0, n.1, d - DaysInMonth(y, m), time)
    else
      DateTime(y, m, d, time)
  }

  /** A day that is already inside its month is left where it is. */
  lemma MakeDateInRange(y: int, m: int, d: int, time: int)
    requires 0 <= m < 12 && 1 <= d <= DaysInMonth(y, m)
    ensures MakeDate(y, m, d, time) == DateTime(y, m, d, time)
  {
  }

  /** `setHours(0, 0, 0, 0)`. */
  function SetMidnight(dt: DateTime): DateTime
  {
    dt.(time := 0)
  }

  /** `setDate(d)`: day `d` of the current month, out-of-range days rolling over. */
  function SetDate(dt: DateTime, d: int): DateTime
    requires 0 <= dt.month < 12
  {
    MakeDate(dt.year, dt.month, d, dt.time)
  }

  /** The day before, at the same time of day. */
  function PrevDay(dt: DateTime): (p: DateTime)
    requires Valid(dt)
    ensures Valid(p) && p.time == dt.time
  {
    if dt.date > 1 then
      dt.(date := dt.date - 1)
    else
      var pm := PrevMonth(dt.year, dt.month);
      DateTime(pm.0, pm.1, DaysInMonth(pm.0, pm.1), dt.time)
  }

  /** The day before has the previous day number. */
  lemma PrevDayNumber(dt: DateTime)
    requires Valid(dt)
    ensures DayNumber(PrevDay(dt)) == DayNumber(dt) - 1
  {
    if dt.date == 1 {
      PrevMonthIndex(dt.year, dt.month);
    }
  }

  /** `k` days earlier, at the same time of day, one day at a time. */
  function StepBack(dt: DateTime, k: nat): (r: DateTime)
    requires Valid(dt)
    ensures Valid(r) && r.time == dt.time
    decreases k
  {
    if k == 0 then dt else PrevDay(StepBack(dt, k - 1))
  }

  /** Going back `k` days lowers the day number by `k`. */
  lemma {:induction false} StepBackNumber(dt: DateTime, k: nat)
    requires Valid(dt)
    ensures DayNumber(StepBack(dt, k)) == DayNumber(dt) - k
    decreases k
  {
    if k > 0 {
      StepBackNumber(dt, k - 1);
      PrevDayNumber(StepBack(dt, k - 1));
    }
  }

  lemma {:induction false} StepBackWithinMonth(dt: DateTime, k: nat)
    requires Valid(dt) && k < dt.date
    ensures StepBack(dt, k) == dt.(date := dt.date - k)
  {
    if k > 0 {
      StepBackWithinMonth(dt, k - 1);
    }
  }

  /** Inside a month the day before is the previous date. */
  lemma PrevDayWithin(dt: DateTime)
    requires Valid(dt) && dt.date > 1
    ensures PrevDay(dt) == dt.(date := dt.date - 1)
  {
  }

  /** The day before the first is the last day of the previous month. */
  lemma PrevDayFirst(dt: DateTime)
    requires Valid(dt) && dt.date == 1
    ensures var p := PrevMonth(dt.year, dt.month);
            PrevDay(dt) == DateTime(p.0, p.1, DaysInMonth(p.0, p.1), dt.time)
  {
  }

  /** Going back `k` days is going back `k - 1` days and then one more. */
  lemma StepBackOnce(dt: DateTime, k: nat)
    requires Valid(dt) && k > 0
    ensures StepBack(dt, k) == PrevDay(StepBack(dt, k - 1))
  {
  }

  lemma {:induction false} StepBackAcrossMonth(dt: DateTime, k: nat)
    requires Valid(dt) && dt.date <= k < dt.date + 28
    ensures var p := PrevMonth(dt.year, dt.month);
            StepBack(dt, k) == DateTime(p.0, p.1, DaysInMonth(p.0, p.1) + dt.date - k, dt.time)
    decreases k
  {
    StepBackOnce(dt, k);
    if k == dt.date {
      StepBackWithinMonth(dt, k - 1);
      PrevDayFirst(StepBack(dt, k - 1));
    } else {
      StepBackAcrossMonth(dt, k - 1);
      PrevDayWithin(StepBack(dt, k - 1));
    }
  }

  /**
   * Setting the day of the month to `date - k` with JavaScript's roll-over is
   * the same as going back `k` days one at a time, as long as at most one
   * month boundary is crossed.
   */
  lemma SetDateIsStepBack(dt: DateTime, k: nat)
    requires Valid(dt) && k < dt.date + 28
    ensures SetDate(dt, dt.date - k) == StepBack(dt, k)
  {
    if k < dt.date {
      StepBackWithinMonth(dt, k);
    } else {
      StepBackAcrossMonth(dt, k);
      var p := PrevMonth(dt.year, dt.month);
      assert SetDate(dt, dt.date - k)
          == MakeDate(p.0, p.1, dt.date - k + DaysInMonth(p.0, p.1), dt.time);
    }
  }
}
