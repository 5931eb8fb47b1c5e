/**
  ECMAScript time values in local time: the day number of a calendar day
  (MakeDay, DayFromYear) and the millisecond value of a moment within it, and the
  fact that comparing two such values is comparing the calendar days first.
 */
module Calendar {
  import opened Types

  const MsPerDay: int := 86400000

  predicate IsLeapYear(y: int) {
    y % 4 == 0 && (y % 100 != 0 || y % 400 == 0)
  }

  function DaysInYear(y: int): (r: int)
    ensures r == 365 || r == 366
  {
    if IsLeapYear(y) then 366 else 365
  }

  function DaysInMonth(y: int, m: int): (r: int)
    requires 0 <= m < 12
    ensures 28 <= r <= 31
  {
    [31, 28, 31, 30, 31, 30, 31, 31, 30, 31, 30, 31][m] + (if m == 1 && IsLeapYear(y) then 1 else 0)
  }

  /** Days in year `y` before the first of month `m`. */
  function MonthStart(y: int, m: int): int
    requires 0 <= m < 12
  {
    [0, 31, 59, 90, 120, 151, 181, 212, 243, 273, 304, 334][m] + (if m >= 2 && IsLeapYear(y) then 1 else 0)
  }

  /** A day the `Date` getters can report. */
  predicate ValidDay(d: CalendarDay) {
    0 <= d.month0 < 12 && 1 <= d.day <= DaysInMonth(d.year, d.month0)
  }

  type Day = d: CalendarDay | ValidDay(d) witness CalendarDay(1970, 0, 1)

  /** A moment in local time: its calendar day and the milliseconds since that day's midnight. */
  datatype Moment = Moment(day: CalendarDay, msOfDay: int)

  type LocalTime = t: Moment | ValidDay(t.day) && 0 <= t.msOfDay < MsPerDay
    witness Moment(CalendarDay(1970, 0, 1), 0)

  /** DayFromYear: the day number of January 1 of year `y`, counted from 1970-01-01. */
  function DayFromYear(y: int): int {
    365 * (y - 1970) + LeapDays(y)
  }

  /** The leap-day terms of DayFromYear: `floor((y - 1969) / 4) - floor((y - 1901) / 100) + floor((y - 1601) / 400)`. */
  function LeapDays(y: int): int {
    (y - 1969) / 4 - (y - 1901) / 100 + (y - 1601) / 400
  }

  /** MakeDay for a valid day. */
  function DayNumber(d: Day): int {
    DayFromYear(d.year) + MonthStart(d.year, d.month0) + d.day - 1
  }

  /** The time value of a moment (local time, no offset). */
  function TimeValue(t: LocalTime): int {
    DayNumber(t.day) * MsPerDay + t.msOfDay
  }

  /** `setHours(0, 0, 0, 0)`: midnight of the same day. */
  function StartOfDay(t: LocalTime): LocalTime {
    Moment(t.day, 0)
  }

  /** Calendar order on (year, month, day) triples. */
  predicate LexBefore(a: CalendarDay, b: CalendarDay) {
    || a.year < b.year
    || (a.year == b.year && a.month0 < b.month0)
    || (a.year == b.year && a.month0 == b.month0 && a.day < b.day)
  }

  /** The Julian, century and 400-year terms of DayFromYear each grow by one exactly at their leap years. */
  lemma Step4(y: int)
    ensures (y + 1 - 1969) / 4 - (y - 1969) / 4 == if y % 4 == 0 then 1 else 0
  {
    var a := y - 1969;
    assert y + 1 - 1969 == a + 1;
    assert (a + 1) % 4 == 0 <==> y % 4 == 0;
  }

  lemma Step100(y: int)
    ensures (y + 1 - 1901) / 100 - (y - 1901) / 100 == if y % 100 == 0 then 1 else 0
  {
    var a := y - 1901;
    assert y + 1 - 1901 == a + 1;
    assert (a + 1) % 100 == 0 <==> y % 100 == 0;
  }

  lemma Step400(y: int)
    ensures (y + 1 - 1601) / 400 - (y - 1601) / 400 == if y % 400 == 0 then 1 else 0
  {
    var a := y - 1601;
    assert y + 1 - 1601 == a + 1;
    assert (a + 1) % 400 == 0 <==> y % 400 == 0;
  }

  /** Consecutive years are DaysInYear apart. */
  lemma DayFromYearStep(y: int)
    ensures DayFromYear(y + 1) == DayFromYear(y) + DaysInYear(y)
  {
    LeapDaysStep(y);
  }

  /** The leap-day count grows by one exactly after a leap year. */
  lemma LeapDaysStep(y: int)
    ensures LeapDays(y + 1) == LeapDays(y) + (if IsLeapYear(y) then 1 else 0)
  {
    Step4(y);
    Step100(y);
    Step400(y);
    CenturiesAreJulianLeap(y);
  }

  /** A multiple of 400 is a multiple of 100, and a multiple of 100 a multiple of 4. */
  lemma CenturiesAreJulianLeap(y: int)
    ensures y % 400 == 0 ==> y % 100 == 0
    ensures y % 100 == 0 ==> y % 4 == 0
  {
    if y % 400 == 0 {
      var k := y / 400;
      assert y == 400 * k;
      MultipleOf100(4 * k);
    }
    if y % 100 == 0 {
      var k := y / 100;
      assert y == 100 * k;
      MultipleOf4(25 * k);
    }
  }

  lemma MultipleOf4(k: int)
    ensures (4 * k) % 4 == 0
  {
  }

  lemma MultipleOf100(k: int)
    ensures (100 * k) % 100 == 0
  {
  }

  /** Every day of a year lies before January 1 of any later year. */
  lemma {:induction false} DayFromYearGrows(y1: int, y2: int)
    requires y1 < y2
    ensures DayFromYear(y1) + DaysInYear(y1) <= DayFromYear(y2)
    decreases y2 - y1
  {
    DayFromYearStep(y1);
    if y1 + 1 < y2 {
      DayFromYearGrows(y1 + 1, y2);
    }
  }

  /** A day's number lies within its year. */
  lemma DayNumberInYear(d: Day)
    ensures DayFromYear(d.year) <= DayNumber(d) < DayFromYear(d.year) + DaysInYear(d.year)
  {
  }

  /** Within one year, every day of a month lies before the first of a later month. */
  lemma MonthStartGrows(y: int, m1: int, m2: int)
    requires 0 <= m1 < m2 < 12
    ensures MonthStart(y, m1) + DaysInMonth(y, m1) <= MonthStart(y, m2)
  {
  }

  /** Day numbers follow calendar order. */
  lemma DayNumberOrder(a: Day, b: Day)
    ensures LexBefore(a, b) ==> DayNumber(a) < DayNumber(b)
  {
    if a.year < b.year {
      DayNumberInYear(a);
      DayNumberInYear(b);
      DayFromYearGrows(a.year, b.year);
    } else if a.year == b.year && a.month0 < b.month0 {
      MonthStartGrows(a.year, a.month0, b.month0);
    }
  }

  /** Two days are the same exactly when their day numbers are. */
  lemma DayNumberInjective(a: Day, b: Day)
    ensures DayNumber(a) == DayNumber(b) <==> a == b
  {
    DayNumberOrder(a, b);
    DayNumberOrder(b, a);
  }

  /**
    Time values compare by calendar day first: a moment is earlier than midnight
    of another day exactly when its calendar day is earlier.
   */
  lemma EarlierThanMidnight(e: LocalTime, now: LocalTime)
    ensures TimeValue(e) < TimeValue(StartOfDay(now)) <==> LexBefore(e.day, now.day)
  {
    DayNumberOrder(e.day, now.day);
    DayNumberOrder(now.day, e.day);
    DayNumberInjective(e.day, now.day);
    var de, dn := DayNumber(e.day), DayNumber(now.day);
    if de < dn {
      assert de * MsPerDay + e.msOfDay < (de + 1) * MsPerDay <= dn * MsPerDay;
    } else {
      assert dn * MsPerDay <= de * MsPerDay;
    }
  }

  /** 1970-01-01 is day 0, and 2000-03-01 follows 2000-02-29. */
  lemma DayNumberExamples()
    ensures DayNumber(CalendarDay(1970, 0, 1)) == 0
    ensures DayNumber(CalendarDay(2000, 2, 1)) == DayNumber(CalendarDay(2000, 1, 29)) + 1
    ensures DayNumber(CalendarDay(2000, 0, 1)) == 10957
  {
  }
}
