/**
 Calendar arithmetic on days (packages/domain/src/dates.ts). A day is numbered
 as in ECMAScript's time values, and the numbering follows the calendar order.
 */
module Calendar {
  import opened Prelude
  import opened Dates

  /** The order of `compareDateOnly`. */
  predicate Before(a: Date, b: Date) {
    a.year < b.year || (a.year == b.year && (a.month < b.month || (a.month == b.month && a.day < b.day)))
  }

  /** Days from 1 January 1970 to 1 January of a year. */
  function YearStart(year: int): int {
    365 * (year - 1970) + (year - 1969) / 4 - (year - 1901) / 100 + (year - 1601) / 400
  }

  function YearLength(year: int): int {
    if IsLeap(year) then 366 else 365
  }

  lemma {:induction false} NextYearStart(year: int)
    ensures YearStart(year + 1) == YearStart(year) + YearLength(year)
  {
    FourthYears(year);
    Centuries(year);
    FourthCenturies(year);
  }

  lemma {:induction false} FourthYears(year: int)
    ensures (year - 1968) / 4 == (year - 1969) / 4 + if year % 4 == 0 then 1 else 0
  {
  }

  lemma {:induction false} Centuries(year: int)
    ensures (year - 1900) / 100 == (year - 1901) / 100 + if year % 100 == 0 then 1 else 0
    ensures year % 100 == 0 ==> year % 4 == 0
  {
    var q, n := year / 100, year % 100;
    assert year - 1900 == 100 * (q - 19) + n;
    assert year - 1901 == if n == 0 then 100 * (q - 20) + 99 else 100 * (q - 19) + n - 1;
    assert n == 0 ==> year == 4 * (25 * q);
  }

  lemma {:induction false} FourthCenturies(year: int)
    ensures (year - 1600) / 400 == (year - 1601) / 400 + if year % 400 == 0 then 1 else 0
    ensures year % 400 == 0 ==> year % 100 == 0
  {
    var q, n := year / 400, year % 400;
    assert year - 1600 == 400 * (q - 4) + n;
    assert year - 1601 == if n == 0 then 400 * (q - 5) + 399 else 400 * (q - 4) + n - 1;
    assert n == 0 ==> year == 100 * (4 * q);
  }

  /** Days from 1 January to the first of a month. */
  function MonthStart(year: int, month: int): int
    requires 1 <= month <= 13
    decreases month
  {
    if month == 1 then 0 else MonthStart(year, month - 1) + DaysInMonth(year, month - 1)
  }

  lemma {:induction false} MonthsFillYear(year: int)
    ensures MonthStart(year, 13) == YearLength(year)
  {
    assert MonthStart(year, 4) == MonthStart(year, 1) + 31 + DaysInMonth(year, 2) + 31;
    assert MonthStart(year, 7) == MonthStart(year, 4) + 30 + 31 + 30;
    assert MonthStart(year, 10) == MonthStart(year, 7) + 31 + 31 + 30;
  }

  function DayNumber(d: Date): int
    requires ValidDate(d)
  {
    YearStart(d.year) + MonthStart(d.year, d.month) + d.day - 1
  }

  /** 1 January 1970 was a Thursday. */
  function WeekdayIso(d: Date): (w: int)
    requires ValidDate(d)
    ensures 1 <= w <= 7
  {
    (DayNumber(d) + 3) % 7 + 1
  }

  function NextDay(d: Date): (next: Date)
    requires ValidDate(d)
    ensures ValidDate(next) && Before(d, next)
  {
    if d.day < DaysInMonth(d.year, d.month) then Date(d.year, d.month, d.day + 1)
    else if d.month < 12 then Date(d.year, d.month + 1, 1)
    else Date(d.year + 1, 1, 1)
  }

  lemma {:induction false} NextDayNumber(d: Date)
    requires ValidDate(d)
    ensures DayNumber(NextDay(d)) == DayNumber(d) + 1
  {
    hide YearStart, YearLength, DaysInMonth;
    if d.day == DaysInMonth(d.year, d.month) {
      if d.month < 12 {
        MonthFollows(d.year, d.month);
      } else {
        NextYearStart(d.year);
        MonthsFillYear(d.year);
        MonthFollows(d.year, 12);
      }
    }
  }

  lemma {:induction false} MonthFollows(year: int, month: int)
    requires 1 <= month <= 12
    ensures MonthStart(year, month + 1) == MonthStart(year, month) + DaysInMonth(year, month)
  {
  }

  function AddDays(d: Date, n: nat): (later: Date)
    requires ValidDate(d)
    ensures ValidDate(later)
  {
    if n == 0 then d else NextDay(AddDays(d, n - 1))
  }

  lemma {:induction false} AddDaysNumber(d: Date, n: nat)
    requires ValidDate(d)
    ensures DayNumber(AddDays(d, n)) == DayNumber(d) + n
  {
    if n > 0 {
      AddDaysNumber(d, n - 1);
      NextDayNumber(AddDays(d, n - 1));
    }
  }

  lemma {:induction false} MonthStartGrows(year: int, m: int, n: int)
    requires 1 <= m < n <= 13
    ensures MonthStart(year, m) + DaysInMonth(year, m) <= MonthStart(year, n)
    decreases n
  {
    if m < n - 1 {
      MonthStartGrows(year, m, n - 1);
    }
  }

  lemma {:induction false} YearStartGrows(y: int, z: int)
    requires y < z
    ensures YearStart(y) + YearLength(y) <= YearStart(z)
    decreases z - y
  {
    NextYearStart(z - 1);
    if y < z - 1 {
      YearStartGrows(y, z - 1);
    }
  }

  lemma {:induction false} DayInYear(d: Date)
    requires ValidDate(d)
    ensures YearStart(d.year) <= DayNumber(d) < YearStart(d.year) + YearLength(d.year)
  {
    MonthsFillYear(d.year);
    MonthStartGrows(d.year, d.month, 13);
    if 1 < d.month {
      MonthStartGrows(d.year, 1, d.month);
    }
  }

  lemma {:induction false} EarlierHasSmallerNumber(a: Date, b: Date)
    requires ValidDate(a) && ValidDate(b) && Before(a, b)
    ensures DayNumber(a) < DayNumber(b)
  {
    if a.year < b.year {
      DayInYear(a);
      DayInYear(b);
      YearStartGrows(a.year, b.year);
    } else if a.month < b.month {
      MonthStartGrows(a.year, a.month, b.month);
    }
  }

  /** Day numbers order the days as the calendar does. */
  lemma {:induction false} NumbersFollowCalendar(a: Date, b: Date)
    requires ValidDate(a) && ValidDate(b)
    ensures Before(a, b) <==> DayNumber(a) < DayNumber(b)
    ensures a == b <==> DayNumber(a) == DayNumber(b)
  {
    hide DayNumber;
    if Before(a, b) {
      EarlierHasSmallerNumber(a, b);
    } else if Before(b, a) {
      EarlierHasSmallerNumber(b, a);
    } else {
      assert a == b;
    }
  }

  /** Months counted from year 0. */
  function MonthIndex(d: Date): int {
    12 * d.year + d.month - 1
  }

  function MonthLength(index: int): int {
    DaysInMonth(index / 12, index % 12 + 1)
  }

  function OfMonth(index: int, day: int): (d: Date)
    ensures MonthIndex(d) == index && d.day == day && 1 <= d.month <= 12
    ensures 1 <= day <= MonthLength(index) ==> ValidDate(d)
  {
    Date(index / 12, index % 12 + 1, day)
  }

  /** `addMonthsClamped`. */
  function AddMonthsClamped(d: Date, n: int): (later: Date)
    requires ValidDate(d)
    ensures ValidDate(later) && MonthIndex(later) == MonthIndex(d) + n
    ensures later.day == Min(d.day, DaysInMonth(later.year, later.month))
  {
    var index := MonthIndex(d) + n;
    OfMonth(index, Min(d.day, MonthLength(index)))
  }

  lemma {:induction false} LaterMonthIsLater(a: Date, b: Date)
    requires ValidDate(a) && ValidDate(b) && MonthIndex(a) < MonthIndex(b)
    ensures Before(a, b)
  {
  }

  lemma {:induction false} LaterYearIsLater(a: Date, b: Date)
    requires a.year < b.year
    ensures Before(a, b)
  {
  }
}
