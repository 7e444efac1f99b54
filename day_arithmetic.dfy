/** Calendar arithmetic with whole days, as `date + timedelta(days=k)` and
    `datetime + timedelta(days=k)` do it: through the day ordinal. */
module DayArithmetic {
  import opened Calendar

  /** `date + timedelta(days=k)`: the date exactly k days after d. Python
      raises OverflowError when the result leaves years 1..9999, which the
      precondition excludes. */
  function AddDays(d: Date, k: int): (r: Date)
    requires ValidDate(d) && 1 <= ToOrdinal(d) + k <= MaxOrdinal
    ensures ValidDate(r) && ToOrdinal(r) == ToOrdinal(d) + k
  {
    FromOrdinal(ToOrdinal(d) + k)
  }

  /** Whether adding k days to d stays within Python's date range. */
  predicate CanAddDays(d: Date, k: int)
    requires ValidDate(d)
  {
    1 <= ToOrdinal(d) + k <= MaxOrdinal
  }

  /** The following calendar day, counted by hand: the next day of the month,
      else the first of the next month, else the first of January. */
  function NextDay(d: Date): (r: Date)
    requires 1 <= d.month <= 12
    ensures 1 <= r.month <= 12
  {
    if d.day < DaysInMonth(d.year, d.month) then Date(d.year, d.month, d.day + 1)
    else if d.month < 12 then Date(d.year, d.month + 1, 1)
    else Date(d.year + 1, 1, 1)
  }

  lemma NextDayOrdinal(d: Date)
    requires ValidDate(d) && d.year < MaxYear
    ensures ValidDate(NextDay(d)) && ToOrdinal(NextDay(d)) == ToOrdinal(d) + 1
  {
    if d.day < DaysInMonth(d.year, d.month) {
    } else if d.month < 12 {
      DaysBeforeMonthStep(d.year, d.month);
    } else {
      DaysBeforeYearStep(d.year);
    }
  }

  /** Adding one day is stepping to the next calendar day, across month,
      year and leap-day boundaries. */
  lemma AddOneDayIsNextDay(d: Date)
    requires ValidDate(d) && d != Date(MaxYear, 12, 31)
    ensures CanAddDays(d, 1) && AddDays(d, 1) == NextDay(d)
  {
    var e := NextDay(d);
    if d.year < MaxYear {
      NextDayOrdinal(d);
    } else {
      assert e.year == MaxYear;
      if d.month < 12 && d.day == DaysInMonth(d.year, d.month) {
        DaysBeforeMonthStep(d.year, d.month);
      }
    }
    assert ValidDate(e) && ToOrdinal(e) == ToOrdinal(d) + 1;
    OrdinalRange(e);
    OrdinalInjective(AddDays(d, 1), e);
  }

  /** The last date Python can represent has the largest ordinal. */
  lemma LastDateOrdinal()
    ensures ValidDate(Date(MaxYear, 12, 31)) && ToOrdinal(Date(MaxYear, 12, 31)) == MaxOrdinal
  {
  }

  /** NextDay applied k times. */
  function StepDays(d: Date, k: nat): Date
    requires 1 <= d.month <= 12
    decreases k
  {
    if k == 0 then d else StepDays(NextDay(d), k - 1)
  }

  /** A valid date with the right ordinal is the result of an addition. */
  lemma {:induction false} AddDaysByOrdinal(d: Date, k: int, r: Date)
    requires ValidDate(d) && ValidDate(r) && ToOrdinal(r) == ToOrdinal(d) + k
    ensures CanAddDays(d, k) && AddDays(d, k) == r
  {
    OrdinalRange(r);
    OrdinalInjective(AddDays(d, k), r);
  }

  /** Stepping k days one by one moves the ordinal by k. */
  lemma {:induction false} StepDaysOrdinal(d: Date, k: nat)
    requires ValidDate(d) && CanAddDays(d, k)
    ensures ValidDate(StepDays(d, k)) && ToOrdinal(StepDays(d, k)) == ToOrdinal(d) + k
    decreases k
  {
    if k > 0 {
      LastDateOrdinal();
      AddOneDayIsNextDay(d);
      StepDaysOrdinal(NextDay(d), k - 1);
    }
  }

  /** Adding k >= 0 days is counting k calendar days one by one. */
  lemma AddDaysIsCounting(d: Date, k: nat)
    requires ValidDate(d) && CanAddDays(d, k)
    ensures AddDays(d, k) == StepDays(d, k)
  {
    StepDaysOrdinal(d, k);
    AddDaysByOrdinal(d, k, StepDays(d, k));
  }

  /** Successive additions compose. */
  lemma AddDaysCompose(d: Date, a: int, b: int)
    requires ValidDate(d) && CanAddDays(d, a) && CanAddDays(AddDays(d, a), b)
    ensures CanAddDays(d, a + b) && AddDays(AddDays(d, a), b) == AddDays(d, a + b)
  {
    OrdinalInjective(AddDays(AddDays(d, a), b), AddDays(d, a + b));
  }

  /** `datetime + timedelta(days=k)`: the date moves, the wall-clock time stays. */
  function PlusDays(t: DateTime, k: int): (r: DateTime)
    requires ValidDateTime(t) && CanAddDays(t.date, k)
    ensures ValidDateTime(r)
    ensures ToOrdinal(r.date) == ToOrdinal(t.date) + k
    ensures r.hour == t.hour && r.minute == t.minute
    ensures r.second == t.second && r.microsecond == t.microsecond
  {
    t.(date := AddDays(t.date, k))
  }
}
