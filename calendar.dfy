/** The proleptic Gregorian calendar as Python's `datetime` module uses it:
    a date is a (year, month, day) triple in years 1..9999, and calendar
    arithmetic (`date + timedelta(days=k)`) goes through the day ordinal,
    where 0001-01-01 is day 1. The leap-year rule is the Gregorian one
    (Appendix C of RFC 3339). */
module Calendar {

  const MaxYear: int := 9999

  predicate IsLeapYear(y: int) {
    y % 4 == 0 && (y % 100 != 0 || y % 400 == 0)
  }

  function DaysInYear(y: int): int {
    if IsLeapYear(y) then 366 else 365
  }

  function DaysInMonth(y: int, m: int): (n: int)
    requires 1 <= m <= 12
    ensures 28 <= n <= 31
    ensures n == 29 <==> m == 2 && IsLeapYear(y)
  {
    if m == 2 then (if IsLeapYear(y) then 29 else 28)
    else if m == 4 || m == 6 || m == 9 || m == 11 then 30
    else 31
  }

  datatype Date = Date(year: int, month: int, day: int)

  /** A date Python's `date` type can hold. */
  predicate ValidDate(d: Date) {
    && 1 <= d.year <= MaxYear
    && 1 <= d.month <= 12
    && 1 <= d.day <= DaysInMonth(d.year, d.month)
  }

  /** Lexicographic calendar order, stated without ordinals. */
  predicate DateBefore(a: Date, b: Date) {
    || a.year < b.year
    || (a.year == b.year && a.month < b.month)
    || (a.year == b.year && a.month == b.month && a.day < b.day)
  }

  /** Number of days in the years 1 .. y-1. */
  function DaysBeforeYear(y: int): int
    requires y >= 1
  {
    var p := y - 1;
    p * 365 + p / 4 - p / 100 + p / 400
  }

  /** Number of days in the months 1 .. m-1 of year y. */
  function DaysBeforeMonth(y: int, m: int): int
    requires 1 <= m <= 12
  {
    [0, 31, 59, 90, 120, 151, 181, 212, 243, 273, 304, 334][m - 1]
      + (if m > 2 && IsLeapYear(y) then 1 else 0)
  }

  /** The day ordinal of the last date Python can represent, 9999-12-31. */
  const MaxOrdinal: int := 3652059

  function ToOrdinal(d: Date): int
    requires ValidDate(d)
  {
    DaysBeforeYear(d.year) + DaysBeforeMonth(d.year, d.month) + d.day
  }

  lemma DaysBeforeYearStep(y: int)
    requires y >= 1
    ensures DaysBeforeYear(y + 1) == DaysBeforeYear(y) + DaysInYear(y)
  {
    assert y / 4 == (y - 1) / 4 + (if y % 4 == 0 then 1 else 0);
    assert y / 100 == (y - 1) / 100 + (if y % 100 == 0 then 1 else 0);
    assert y / 400 == (y - 1) / 400 + (if y % 400 == 0 then 1 else 0);
  }

  lemma DaysBeforeMonthStep(y: int, m: int)
    requires 1 <= m < 12
    ensures DaysBeforeMonth(y, m + 1) == DaysBeforeMonth(y, m) + DaysInMonth(y, m)
  {
  }

  lemma {:induction false} DaysBeforeYearMonotone(y1: int, y2: int)
    requires 1 <= y1 <= y2
    ensures DaysBeforeYear(y1) + 365 * (y2 - y1) <= DaysBeforeYear(y2)
    decreases y2 - y1
  {
    if y1 < y2 {
      DaysBeforeYearMonotone(y1, y2 - 1);
      DaysBeforeYearStep(y2 - 1);
    }
  }

  /** The days before a date's month, plus its day, stay inside its year. */
  lemma DayOfYearBounds(d: Date)
    requires ValidDate(d)
    ensures 1 <= DaysBeforeMonth(d.year, d.month) + d.day <= DaysInYear(d.year)
  {
  }

  /** The year holding ordinal n, searched upwards from year y. */
  function YearOf(n: int, y: int): (r: int)
    requires y >= 1 && DaysBeforeYear(y) < n
    ensures r >= y && DaysBeforeYear(r) < n <= DaysBeforeYear(r + 1)
    decreases n - DaysBeforeYear(y)
  {
    DaysBeforeYearStep(y);
    if n <= DaysBeforeYear(y + 1) then y else YearOf(n, y + 1)
  }

  /** The month holding day-of-year r of year y, searched upwards from m. */
  function MonthOf(y: int, r: int, m: int): (k: int)
    requires 1 <= m <= 12 && DaysBeforeMonth(y, m) < r <= DaysInYear(y)
    ensures m <= k <= 12
    ensures DaysBeforeMonth(y, k) < r <= DaysBeforeMonth(y, k) + DaysInMonth(y, k)
    decreases 12 - m
  {
    if m == 12 || r <= DaysBeforeMonth(y, m) + DaysInMonth(y, m) then m
    else
      DaysBeforeMonthStep(y, m);
      MonthOf(y, r, m + 1)
  }

  /** A year no later than the one holding ordinal n: 400 Gregorian years
      have 146097 days. The search in YearOf starts here. */
  function YearEstimate(n: int): (y: int)
    requires n >= 1
    ensures y >= 1 && DaysBeforeYear(y) < n
  {
    var p := ((n - 1) * 400) / 146097;
    assert 146097 * p <= (n - 1) * 400;
    assert 4 * (p / 4) <= p && 100 * (p / 100) >= p - 99 && 400 * (p / 400) <= p;
    assert 400 * DaysBeforeYear(p + 1) <= 146097 * p + 396;
    p + 1
  }

  /** Python's `date.fromordinal`: the date whose ordinal is n. */
  function FromOrdinal(n: int): (d: Date)
    requires 1 <= n <= MaxOrdinal
    ensures ValidDate(d) && ToOrdinal(d) == n
  {
    var y := YearOf(n, YearEstimate(n));
    if y > MaxYear then
      DaysBeforeYearMonotone(MaxYear + 1, y);
      assert false;
      Date(1, 1, 1)
    else
      var r := n - DaysBeforeYear(y);
      DaysBeforeYearStep(y);
      var m := MonthOf(y, r, 1);
      Date(y, m, r - DaysBeforeMonth(y, m))
  }

  /** The ordinal follows calendar order, in both directions. */
  lemma OrdinalOrder(a: Date, b: Date)
    requires ValidDate(a) && ValidDate(b)
    ensures ToOrdinal(a) < ToOrdinal(b) <==> DateBefore(a, b)
  {
    if a.year < b.year {
      OrdinalBelowNextYear(a);
      DaysBeforeYearMonotone(a.year + 1, b.year);
    } else if b.year < a.year {
      OrdinalBelowNextYear(b);
      DaysBeforeYearMonotone(b.year + 1, a.year);
    } else if a.month < b.month {
      OrdinalBelowNextMonth(a, b.month);
    } else if b.month < a.month {
      OrdinalBelowNextMonth(b, a.month);
    }
  }

  lemma OrdinalBelowNextYear(d: Date)
    requires ValidDate(d)
    ensures ToOrdinal(d) <= DaysBeforeYear(d.year + 1)
  {
    DayOfYearBounds(d);
    DaysBeforeYearStep(d.year);
  }

  lemma {:induction false} OrdinalBelowNextMonth(d: Date, m: int)
    requires ValidDate(d) && d.month < m <= 12
    ensures DaysBeforeMonth(d.year, d.month) + d.day <= DaysBeforeMonth(d.year, m)
    decreases m
  {
    DaysBeforeMonthStep(d.year, m - 1);
    if d.month < m - 1 {
      OrdinalBelowNextMonth(d, m - 1);
    }
  }

  /** Distinct dates have distinct ordinals. */
  lemma OrdinalInjective(a: Date, b: Date)
    requires ValidDate(a) && ValidDate(b) && ToOrdinal(a) == ToOrdinal(b)
    ensures a == b
  {
    OrdinalOrder(a, b);
    OrdinalOrder(b, a);
  }

  /** Every valid date has an ordinal in 1 .. MaxOrdinal. */
  lemma OrdinalRange(d: Date)
    requires ValidDate(d)
    ensures 1 <= ToOrdinal(d) <= MaxOrdinal
  {
    DayOfYearBounds(d);
    OrdinalBelowNextYear(d);
    DaysBeforeYearMonotone(d.year + 1, MaxYear + 1);
  }

  /** The other half of the round trip: ordinal, then back, gives the date. */
  lemma FromToOrdinal(d: Date)
    requires ValidDate(d)
    ensures 1 <= ToOrdinal(d) <= MaxOrdinal && FromOrdinal(ToOrdinal(d)) == d
  {
    OrdinalRange(d);
    OrdinalInjective(FromOrdinal(ToOrdinal(d)), d);
  }

  datatype DateTime = DateTime(date: Date, hour: int, minute: int, second: int, microsecond: int)

  /** A naive `datetime` Python can hold. */
  predicate ValidDateTime(t: DateTime) {
    && ValidDate(t.date)
    && 0 <= t.hour < 24
    && 0 <= t.minute < 60
    && 0 <= t.second < 60
    && 0 <= t.microsecond < 1000000
  }

  /** The `due_date` argument of a `create_todo`: a datetime, or any other
      object, which the `isinstance` check turns away. */
  datatype DueValue = DateTimeValue(t: DateTime) | NotDateTime

}
