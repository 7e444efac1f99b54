/** The due-date expression the three scripts share,
    `datetime.combine(base_date + timedelta(days=day), time(hour=23))`,
    and the comprehension that maps it over a tuple of day offsets. */
module Schedule {
  import opened Calendar
  import opened DayArithmetic

  /** The spaced-repetition cadence every script's `main` uses. */
  const Cadence: seq<int> := [2, 7, 14, 30, 90]

  /** The cadence's offsets strictly increase. */
  lemma CadenceIncreasing(i: int, j: int)
    requires 0 <= i < j < |Cadence|
    ensures Cadence[i] < Cadence[j]
  {
    assert Cadence[0] < Cadence[1] < Cadence[2] < Cadence[3] < Cadence[4];
  }

  /** Every element is a datetime Python can hold. */
  predicate ValidTimes(ts: seq<DateTime>) {
    forall k :: 0 <= k < |ts| ==> ValidDateTime(ts[k])
  }

  /** Every offset of `days` keeps `base` inside Python's date range. */
  predicate InRange(base: DateTime, days: seq<int>) {
    ValidDateTime(base) && forall i :: 0 <= i < |days| ==> CanAddDays(base.date, days[i])
  }

  /** `base` plus the cadence's longest offset is a date Python can hold. */
  predicate CadenceFits(base: DateTime) {
    ValidDateTime(base) && ToOrdinal(base.date) + 90 <= MaxOrdinal
  }

  /** The whole cadence fits exactly when its longest offset does. */
  lemma CadenceFitsExactly(base: DateTime)
    ensures CadenceFits(base) <==> InRange(base, Cadence)
  {
    if ValidDateTime(base) {
      OrdinalRange(base.date);
      assert Cadence[4] == 90;
    }
  }

  /** The datetime `day` calendar days after `base`'s date, at 23:00:00.000000,
      whatever `base`'s own time of day was. */
  function DueAt(base: DateTime, day: int): (r: DateTime)
    requires ValidDateTime(base) && CanAddDays(base.date, day)
    ensures ValidDateTime(r)
    ensures r.date == AddDays(base.date, day)
    ensures ToOrdinal(r.date) == ToOrdinal(base.date) + day
    ensures r.hour == 23 && r.minute == 0 && r.second == 0 && r.microsecond == 0
  {
    var shifted := PlusDays(base, day);
    DateTime(shifted.date, 23, 0, 0, 0)
  }

  /** Google's `generate_due_dates`: one due datetime per offset, in the
      offsets' own order. */
  function DueDates(base: DateTime, days: seq<int>): (r: seq<DateTime>)
    requires InRange(base, days)
    ensures |r| == |days|
    ensures forall i :: 0 <= i < |days| ==>
      && ValidDateTime(r[i])
      && ToOrdinal(r[i].date) == ToOrdinal(base.date) + days[i]
      && r[i].hour == 23 && r[i].minute == 0 && r[i].second == 0 && r[i].microsecond == 0
  {
    seq(|days|, i requires 0 <= i < |days| => DueAt(base, days[i]))
  }

  /** Reordering the offsets reorders the results the same way: entry i of
      the result belongs to offset i, not to a sorted position. */
  lemma DueDatesFollowOffsets(base: DateTime, days: seq<int>, order: seq<nat>)
    requires InRange(base, days)
    requires forall j :: 0 <= j < |order| ==> order[j] < |days|
    ensures InRange(base, seq(|order|, j requires 0 <= j < |order| => days[order[j]]))
    ensures DueDates(base, seq(|order|, j requires 0 <= j < |order| => days[order[j]]))
         == seq(|order|, j requires 0 <= j < |order| => DueDates(base, days)[order[j]])
  {
    var picked := seq(|order|, j requires 0 <= j < |order| => days[order[j]]);
    assert InRange(base, picked);
    var lhs := DueDates(base, picked);
    var rhs := seq(|order|, j requires 0 <= j < |order| => DueDates(base, days)[order[j]]);
    assert |lhs| == |rhs|;
    forall j | 0 <= j < |order| ensures lhs[j] == rhs[j] {
      assert picked[j] == days[order[j]];
      assert lhs[j] == DueAt(base, picked[j]);
      assert rhs[j] == DueDates(base, days)[order[j]] == DueAt(base, days[order[j]]);
    }
    assert lhs == rhs;
  }

  /** Example: one day after 2024-01-31, at any time of day, is 2024-02-01 at 23:00. */
  lemma MonthBoundaryExample(base: DateTime)
    requires ValidDateTime(base) && base.date == Date(2024, 1, 31)
    ensures InRange(base, [1])
    ensures DueDates(base, [1]) == [DateTime(Date(2024, 2, 1), 23, 0, 0, 0)]
  {
    assert CanAddDays(base.date, 1) && DueAt(base, 1) == DateTime(Date(2024, 2, 1), 23, 0, 0, 0) by {
      assert NextDay(base.date) == Date(2024, 2, 1);
      AddOneDayIsNextDay(base.date);
    }
    SingleOffset(base, 1);
  }

  lemma SingleOffset(base: DateTime, day: int)
    requires ValidDateTime(base) && CanAddDays(base.date, day)
    ensures InRange(base, [day]) && DueDates(base, [day]) == [DueAt(base, day)]
  {
    assert DueDates(base, [day])[0] == DueAt(base, day);
  }

  /** Example: 2024 is a leap year, so 28 February is followed by the 29th. */
  lemma LeapYearExample()
    ensures ValidDate(Date(2024, 2, 28)) && CanAddDays(Date(2024, 2, 28), 1)
    ensures AddDays(Date(2024, 2, 28), 1) == Date(2024, 2, 29)
  {
    AddOneDayIsNextDay(Date(2024, 2, 28));
  }

  /** Example: 1900 is a century year not divisible by 400, so not a leap year. */
  lemma CenturyYearExample()
    ensures ValidDate(Date(1900, 2, 28)) && CanAddDays(Date(1900, 2, 28), 1)
    ensures AddDays(Date(1900, 2, 28), 1) == Date(1900, 3, 1)
  {
    assert !IsLeapYear(1900);
    assert NextDay(Date(1900, 2, 28)) == Date(1900, 3, 1);
    AddOneDayIsNextDay(Date(1900, 2, 28));
  }

  /** Adding a non-negative offset is counting that many calendar days. */
  lemma DueAtCountsDays(base: DateTime, day: nat)
    requires ValidDateTime(base) && CanAddDays(base.date, day)
    ensures DueAt(base, day).date == StepDays(base.date, day)
  {
    AddDaysIsCounting(base.date, day);
  }
}
