/** Calendar dates as the recurrence rules use them: the proleptic Gregorian calendar in UTC,
    with the month-end clamping of `checked_add_months` (apps/api/src/store.rs:1776-1788). */
module CivilTime {
  import opened Prelude

  /** `second` counts from midnight. */
  datatype DateTime = DateTime(year: int, month: int, day: int, second: int)

  /** Years outside this range are not representable and make the addition fail. */
  const MIN_YEAR: int := -262143
  const MAX_YEAR: int := 262142

  predicate Leap(year: int) {
    year % 4 == 0 && (year % 100 != 0 || year % 400 == 0)
  }

  function DaysInMonth(year: int, month: int): int {
    if month == 2 then if Leap(year) then 29 else 28
    else if month == 4 || month == 6 || month == 9 || month == 11 then 30
    else 31
  }

  predicate Valid(t: DateTime) {
    && MIN_YEAR <= t.year <= MAX_YEAR
    && 1 <= t.month <= 12
    && 1 <= t.day <= DaysInMonth(t.year, t.month)
    && 0 <= t.second < 86400
  }

  /** A date and time that exists. */
  type Moment = t: DateTime | Valid(t) witness DateTime(1970, 1, 1, 0)

  function DaysBeforeMonth(year: int, month: int): int
    requires 1 <= month <= 12
    decreases month
  {
    if month == 1 then 0 else DaysBeforeMonth(year, month - 1) + DaysInMonth(year, month - 1)
  }

  function LeapsBefore(year: int): int {
    (year - 1) / 4 - (year - 1) / 100 + (year - 1) / 400
  }

  function DayNumber(year: int, month: int, day: int): int
    requires 1 <= month <= 12
  {
    365 * (year - 1) + LeapsBefore(year) + DaysBeforeMonth(year, month) + day
  }

  /** Seconds on the time line. */
  function Instant(t: DateTime): int
    requires 1 <= t.month <= 12
  {
    86400 * DayNumber(t.year, t.month, t.day) + t.second
  }

  function NextDay(t: DateTime): DateTime {
    if t.day < DaysInMonth(t.year, t.month) then t.(day := t.day + 1)
    else if t.month < 12 then t.(month := t.month + 1, day := 1)
    else t.(year := t.year + 1, month := 1, day := 1)
  }

  function AddDays(t: DateTime, n: nat): Option<DateTime>
    decreases n
  {
    if n == 0 then Some(t)
    else if NextDay(t).year > MAX_YEAR then None
    else AddDays(NextDay(t), n - 1)
  }

  function AddMonths(t: DateTime, n: nat): Option<DateTime> {
    var months := t.year * 12 + (t.month - 1) + n;
    var year, month := months / 12, months % 12 + 1;
    if year > MAX_YEAR then None
    else
      var last := DaysInMonth(year, month);
      Some(DateTime(year, month, if t.day > last then last else t.day, t.second))
  }

  lemma QuotientStep(year: int)
    ensures year / 4 == (year - 1) / 4 + if year % 4 == 0 then 1 else 0
    ensures year / 100 == (year - 1) / 100 + if year % 100 == 0 then 1 else 0
    ensures year / 400 == (year - 1) / 400 + if year % 400 == 0 then 1 else 0
  {
  }

  lemma CenturiesAreMultiples(year: int)
    ensures year % 400 == 0 ==> year % 100 == 0
    ensures year % 100 == 0 ==> year % 4 == 0
  {
  }

  lemma LeapsBeforeNextYear(year: int)
    ensures LeapsBefore(year + 1) == LeapsBefore(year) + if Leap(year) then 1 else 0
  {
    QuotientStep(year);
    CenturiesAreMultiples(year);
  }

  lemma DaysInYear(year: int)
    ensures DaysBeforeMonth(year, 12) + 31 == if Leap(year) then 366 else 365
  {
    var feb := DaysInMonth(year, 2);
    assert DaysBeforeMonth(year, 3) == DaysBeforeMonth(year, 2) + feb == 31 + feb;
    assert DaysBeforeMonth(year, 5) == DaysBeforeMonth(year, 4) + 30 == 92 + feb;
    assert DaysBeforeMonth(year, 7) == DaysBeforeMonth(year, 6) + 30 == 153 + feb;
    assert DaysBeforeMonth(year, 9) == DaysBeforeMonth(year, 8) + 31 == 215 + feb;
    assert DaysBeforeMonth(year, 11) == DaysBeforeMonth(year, 10) + 31 == 276 + feb;
  }

  /** The first of the next month follows the last of this one. */
  lemma MonthEnd(year: int, month: int)
    requires 1 <= month <= 12
    ensures var (y, m) := if month < 12 then (year, month + 1) else (year + 1, 1);
            DayNumber(y, m, 1) == DayNumber(year, month, DaysInMonth(year, month)) + 1
  {
    if month == 12 {
      LeapsBeforeNextYear(year);
      DaysInYear(year);
    }
  }

  /** Carrying day by day is adding days on the time line. */
  lemma {:induction false} AddDaysIsExact(t: DateTime, n: nat)
    requires Valid(t)
    ensures AddDays(t, n).Some? ==>
              Valid(AddDays(t, n).value) && Instant(AddDays(t, n).value) == Instant(t) + 86400 * n
    decreases n
  {
    if n > 0 && NextDay(t).year <= MAX_YEAR {
      MonthEnd(t.year, t.month);
      AddDaysIsExact(NextDay(t), n - 1);
    }
  }

  lemma {:induction false} YearStep(year: int, month: int)
    requires 1 <= month <= 12
    ensures DaysBeforeMonth(year + 1, month) >= DaysBeforeMonth(year, month) - 1
    decreases month
  {
    if month > 1 {
      YearStep(year, month - 1);
      if month > 3 {
        assert DaysInMonth(year + 1, month - 1) == DaysInMonth(year, month - 1);
      } else if month == 3 {
        assert DaysBeforeMonth(year, 2) == 31 == DaysBeforeMonth(year + 1, 2);
      }
    }
  }

  /** The day of the month is kept unless the month is too short, when it is its last day. */
  ghost predicate Clamped(t: DateTime, u: DateTime) {
    && u.second == t.second
    && (u.day == t.day || (u.day < t.day && u.day == DaysInMonth(u.year, u.month)))
  }

  lemma MonthsCarry(year: int, month: int)
    requires 1 <= month <= 12
    ensures var months := year * 12 + month;
            (months / 12, months % 12 + 1) == if month < 12 then (year, month + 1) else (year + 1, 1)
  {
  }

  lemma DayInNextMonth(t: DateTime, u: DateTime)
    requires Valid(t) && Valid(u) && u.second == t.second
    requires (u.year, u.month) == if t.month < 12 then (t.year, t.month + 1) else (t.year + 1, 1)
    ensures Instant(u) > Instant(t)
  {
    MonthEnd(t.year, t.month);
    var last := DaysInMonth(t.year, t.month);
    assert DayNumber(u.year, u.month, u.day) - DayNumber(t.year, t.month, t.day) == u.day + last - t.day > 0;
  }

  lemma NextMonthIsLater(t: DateTime)
    requires Valid(t) && AddMonths(t, 1).Some?
    ensures var u := AddMonths(t, 1).value; Valid(u) && Clamped(t, u) && Instant(u) > Instant(t)
    ensures var u := AddMonths(t, 1).value;
            (u.year, u.month) == if t.month < 12 then (t.year, t.month + 1) else (t.year + 1, 1)
  {
    MonthsCarry(t.year, t.month);
    DayInNextMonth(t, AddMonths(t, 1).value);
  }

  lemma NextYearIsLater(t: DateTime)
    requires Valid(t) && AddMonths(t, 12).Some?
    ensures var u := AddMonths(t, 12).value; Valid(u) && Clamped(t, u) && Instant(u) > Instant(t)
    ensures var u := AddMonths(t, 12).value; u.year == t.year + 1 && u.month == t.month
  {
    var months := t.year * 12 + (t.month - 1) + 12;
    assert months / 12 == t.year + 1 && months % 12 == t.month - 1;
    LeapsBeforeNextYear(t.year);
    YearStep(t.year, t.month);
  }
}
