/**
 * Period resolution (`getStartDate` in bot/src/services/stats.service.ts,
 * repeated verbatim in bot/src/services/wordcloud.service.ts): the start of
 * the window that a symbolic period covers, given the current local time.
 */
module Period {
  import opened Calendar

  datatype Period = Today | Week | Month | All

  /** How many days back the Monday of the current week lies (6 on a Sunday). */
  function DaysSinceMonday(now: DateTime): (k: nat)
    requires 0 <= now.month < 12
    ensures k <= 6
  {
    var day := Weekday(now);
    if day == 0 then 6 else day - 1
  }

  /**
   * The reference definition of a period's start: today at midnight; the
   * Monday of this week, reached by stepping back day by day, at the current
   * time of day (the week start is not moved to midnight); the first of the
   * month at midnight; the epoch.
   */
  function PeriodStart(p: Period, now: DateTime): (start: DateTime)
    requires Valid(now)
    ensures Valid(start)
  {
    match p
    case Today => now.(time := 0)
    case Week => StepBack(now, DaysSinceMonday(now))
    case Month => DateTime(now.year, now.month, 1, 0)
    case All => EpochIsZero(); Epoch
  }

  /** The milliseconds the queries compare `message_date` with. */
  function StartMillis(p: Period, now: DateTime): Instant
    requires Valid(now)
  {
    Millis(PeriodStart(p, now))
  }

  /**
   * `getStartDate`: the JavaScript code reads the clock into a `Date` and then
   * moves it with `setHours` or `setDate`, or builds a fresh `Date`.
   */
  method GetStartDate(p: Period, now: DateTime) returns (start: DateTime)
    requires Valid(now)
    ensures start == PeriodStart(p, now)
  {
    var d := now;
    if p == Today {
      d := SetMidnight(d);
      return d;
    }
    if p == Week {
      var day := Weekday(d);
      var diff := d.date - day + (if day == 0 then -6 else 1);
      assert diff == d.date - DaysSinceMonday(d);
      SetDateIsStepBack(d, DaysSinceMonday(d));
      assert SetDate(d, diff) == PeriodStart(Week, now);
      d := SetDate(d, diff);
      return d;
    }
    if p == Month {
      MakeDateInRange(d.year, d.month, 1, 0);
      return MakeDate(d.year, d.month, 1, 0);
    }
    return Epoch;
  }

  /** `today` starts at the last midnight not after `now`. */
  lemma TodayStart(now: DateTime)
    requires Valid(now)
    ensures var start := PeriodStart(Today, now);
            && start.time == 0
            && (start.year, start.month, start.date) == (now.year, now.month, now.date)
            && Millis(now) - MsPerDay < Millis(start) <= Millis(now)
  {
  }

  /** Going back DaysSinceMonday days from day number `dn` lands on the nearest Monday. */
  lemma MondayArithmetic(dn: int, k: int)
    requires k == (if DayOfWeek(dn) == 0 then 6 else DayOfWeek(dn) - 1)
    ensures DayOfWeek(dn - k) == 1
    ensures forall n :: dn - k < n <= dn ==> DayOfWeek(n) != 1
  {
    var w := DayOfWeek(dn);
    var q := (dn + 4) / 7;
    assert dn + 4 == 7 * q + w;
    assert dn - k + 4 == 7 * (q - (if w == 0 then 1 else 0)) + 1;
    forall n | dn - k < n <= dn
      ensures DayOfWeek(n) != 1
    {
      var base := 7 * (q - (if w == 0 then 1 else 0));
      assert base + 1 < n + 4 < base + 8;
    }
  }

  /** A date-time DaysSinceMonday days before `now`, at the same time of day, is the week start. */
  lemma MondayBack(now: DateTime, start: DateTime)
    requires Valid(now) && Valid(start) && start.time == now.time
    requires DayNumber(start) == DayNumber(now) - DaysSinceMonday(now)
    ensures && Weekday(start) == 1
            && DayNumber(now) - 6 <= DayNumber(start) <= DayNumber(now)
            && (Weekday(now) == 0 ==> DayNumber(start) == DayNumber(now) - 6)
            && (forall n :: DayNumber(start) < n <= DayNumber(now) ==> DayOfWeek(n) != 1)
            && Millis(start) <= Millis(now)
  {
    MondayArithmetic(DayNumber(now), DaysSinceMonday(now));
  }

  /**
   * `week` starts on a Monday at most six days back (exactly six on a
   * Sunday), with no Monday in between, at the current time of day.
   */
  lemma WeekStart(now: DateTime)
    requires Valid(now)
    ensures var start := PeriodStart(Week, now);
            && Weekday(start) == 1
            && start.time == now.time
            && DayNumber(now) - 6 <= DayNumber(start) <= DayNumber(now)
            && (Weekday(now) == 0 ==> DayNumber(start) == DayNumber(now) - 6)
            && (forall n :: DayNumber(start) < n <= DayNumber(now) ==> DayOfWeek(n) != 1)
            && Millis(start) <= Millis(now)
  {
    StepBackNumber(now, DaysSinceMonday(now));
    MondayBack(now, PeriodStart(Week, now));
  }

  /** `month` starts on day 1 of the current month at midnight. */
  lemma MonthStart(now: DateTime)
    requires Valid(now)
    ensures var start := PeriodStart(Month, now);
            && start.date == 1 && start.time == 0
            && (start.year, start.month) == (now.year, now.month)
            && DayNumber(start) == DayNumber(now) - (now.date - 1)
            && Millis(start) <= Millis(now)
  {
  }

  /** `all` is the epoch; every period starts no later than `now` (for a clock past the epoch). */
  lemma StartNotAfterNow(p: Period, now: DateTime)
    requires Valid(now) && Millis(now) >= 0
    ensures Millis(PeriodStart(p, now)) <= Millis(now)
    ensures p == All ==> Millis(PeriodStart(p, now)) == 0
  {
    match p
    case Today => TodayStart(now);
    case Week => WeekStart(now);
    case Month => MonthStart(now);
    case All => EpochIsZero();
  }
}
