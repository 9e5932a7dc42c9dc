/** The proleptic Gregorian calendar of Python's `datetime`, counted in days and minutes so
    that moving a time stamp across a time zone offset can be stated as arithmetic. */
module Calendar {

  datatype Date = Date(year: int, month: int, day: int)

  predicate IsLeap(y: int) {
    y % 4 == 0 && (y % 100 != 0 || y % 400 == 0)
  }

  function DaysInYear(y: int): int {
    if IsLeap(y) then 366 else 365
  }

  function DaysInMonth(y: int, m: int): int
    requires 1 <= m <= 12
  {
    if m == 2 then (if IsLeap(y) then 29 else 28)
    else if m == 4 || m == 6 || m == 9 || m == 11 then 30
    else 31
  }

  /** A day that exists in the calendar, in any year. */
  predicate OnCalendar(d: Date) {
    1 <= d.month <= 12 && 1 <= d.day <= DaysInMonth(d.year, d.month)
  }

  /** A date `datetime.date` accepts: on the calendar, and a year from MINYEAR 1 to MAXYEAR 9999. */
  predicate ValidDate(d: Date) {
    OnCalendar(d) && 1 <= d.year <= 9999
  }

  /** Days from 1 January of year 1 to 1 January of year `y`. */
  function YearStart(y: int): int
    decreases if y >= 1 then y - 1 else 1 - y
  {
    if y == 1 then 0
    else if y > 1 then YearStart(y - 1) + DaysInYear(y - 1)
    else YearStart(y + 1) - DaysInYear(y)
  }

  /** Days from 1 January to the first of month `m` (13 stands for the next 1 January). */
  function MonthStart(y: int, m: int): int
    requires 1 <= m <= 13
  {
    [0, 31, 59, 90, 120, 151, 181, 212, 243, 273, 304, 334, 365][m - 1] + (if m > 2 && IsLeap(y) then 1 else 0)
  }

  /** Day number of a date: 0 for 1 January of year 1. */
  function DayNumber(d: Date): int
    requires 1 <= d.month <= 12
  {
    YearStart(d.year) + MonthStart(d.year, d.month) + d.day - 1
  }

  lemma YearStartStep(y: int)
    ensures YearStart(y + 1) == YearStart(y) + DaysInYear(y)
  {
  }

  lemma MonthStartStep(y: int, m: int)
    requires 1 <= m <= 12
    ensures MonthStart(y, m + 1) == MonthStart(y, m) + DaysInMonth(y, m)
  {
  }

  /** The day after `d`. */
  function NextDay(d: Date): (n: Date)
    requires OnCalendar(d)
    ensures OnCalendar(n) && DayNumber(n) == DayNumber(d) + 1
  {
    if d.day < DaysInMonth(d.year, d.month) then Date(d.year, d.month, d.day + 1)
    else if d.month < 12 then
      MonthStartStep(d.year, d.month);
      Date(d.year, d.month + 1, 1)
    else
      YearStartStep(d.year);
      Date(d.year + 1, 1, 1)
  }

  /** The day before `d`. */
  function PreviousDay(d: Date): (p: Date)
    requires OnCalendar(d)
    ensures OnCalendar(p) && DayNumber(p) == DayNumber(d) - 1
  {
    if d.day > 1 then Date(d.year, d.month, d.day - 1)
    else if d.month > 1 then
      MonthStartStep(d.year, d.month - 1);
      Date(d.year, d.month - 1, DaysInMonth(d.year, d.month - 1))
    else
      YearStartStep(d.year - 1);
      Date(d.year - 1, 12, 31)
  }

  /** The date `n` days after `d` (before it when `n` is negative). */
  function ShiftDays(d: Date, n: int): (r: Date)
    requires OnCalendar(d)
    ensures OnCalendar(r) && DayNumber(r) == DayNumber(d) + n
    decreases if n >= 0 then n else -n
  {
    if n == 0 then d
    else if n > 0 then ShiftDays(NextDay(d), n - 1)
    else ShiftDays(PreviousDay(d), n + 1)
  }

  /** Every day of year `y` is numbered from the year's start up to the next year's start. */
  lemma DayNumberInYear(d: Date)
    requires OnCalendar(d)
    ensures YearStart(d.year) <= DayNumber(d) < YearStart(d.year + 1)
  {
    YearStartStep(d.year);
    MonthStartStep(d.year, d.month);
  }

  /** Years start in increasing order. */
  lemma {:induction false} YearStartIncreasing(a: int, b: int)
    requires a < b
    ensures YearStart(a) < YearStart(b)
    decreases b - a
  {
    YearStartStep(a);
    if a + 1 < b {
      YearStartIncreasing(a + 1, b);
    }
  }

  /** Months start in increasing order within a year. */
  lemma MonthStartIncreasing(y: int, a: int, b: int)
    requires 1 <= a < b <= 13
    ensures MonthStart(y, a) < MonthStart(y, b)
  {
  }

  /** A day number names one date: two calendar dates with the same number are the same date. */
  lemma DayNumberInjective(a: Date, b: Date)
    requires OnCalendar(a) && OnCalendar(b) && DayNumber(a) == DayNumber(b)
    ensures a == b
  {
    DayNumberInYear(a);
    DayNumberInYear(b);
    if a.year < b.year {
      YearStartIncreasing(a.year + 1, b.year + 1);
      if a.year + 1 < b.year { YearStartIncreasing(a.year + 1, b.year); }
      assert false;
    } else if b.year < a.year {
      if b.year + 1 < a.year { YearStartIncreasing(b.year + 1, a.year); }
      assert false;
    }
    assert a.year == b.year;
    if a.month < b.month {
      MonthStartStep(a.year, a.month);
      if a.month + 1 < b.month { MonthStartIncreasing(a.year, a.month + 1, b.month); }
      assert false;
    } else if b.month < a.month {
      MonthStartStep(b.year, b.month);
      if b.month + 1 < a.month { MonthStartIncreasing(b.year, b.month + 1, a.month); }
      assert false;
    }
  }
}
