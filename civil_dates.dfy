/**
 * Calendar dates as JavaScript's `Date` handles them: proleptic Gregorian
 * years, zero-based months, and the normalisation `new Date(y, m, d)`,
 * `setDate` and `setMonth` apply to out-of-range months and days.  A day is
 * identified by its day number, counted from 1970-01-01; `getDay` is that
 * number shifted so that 1970-01-01 is a Thursday (4), Sunday being 0.
 * Time of day plays no part here.
 */
module CivilDates {

  datatype Date = Date(year: int, month: int, day: int)

  predicate IsLeapYear(y: int) {
    y % 4 == 0 && (y % 100 != 0 || y % 400 == 0)
  }

  function DaysInMonth(y: int, m: int): (n: int)
    requires 0 <= m < 12
    ensures 28 <= n <= 31
  {
    if m == 1 then (if IsLeapYear(y) then 29 else 28)
    else if m == 3 || m == 5 || m == 8 || m == 10 then 30
    else 31
  }

  predicate Valid(d: Date) {
    0 <= d.month < 12 && 1 <= d.day <= DaysInMonth(d.year, d.month)
  }

  function DaysBeforeMonth(y: int, m: int): (n: int)
    requires 0 <= m <= 12
    ensures 28 * m <= n <= 31 * m
  {
    if m == 0 then 0 else DaysBeforeMonth(y, m - 1) + DaysInMonth(y, m - 1)
  }

  function DaysInYear(y: int): int {
    if IsLeapYear(y) then 366 else 365
  }

  /** Day number of January 1st of year `y`; `(y + 3) / 4` is the ceiling of `y / 4` under floor division. */
  function YearStart(y: int): int {
    365 * y + LeapsBefore(y) - 719528
  }

  function DayNumber(d: Date): int
    requires 0 <= d.month < 12
  {
    YearStart(d.year) + DaysBeforeMonth(d.year, d.month) + d.day - 1
  }

  /** `getDay()`: 0 for Sunday through 6 for Saturday. */
  function Weekday(d: Date): (w: int)
    requires 0 <= d.month < 12
    ensures 0 <= w < 7
  {
    (DayNumber(d) + 4) % 7
  }

  lemma CeilStep4(y: int)
    ensures (y + 4) / 4 - (y + 3) / 4 == if y % 4 == 0 then 1 else 0
  {
  }

  lemma CeilStep100(y: int)
    ensures (y + 100) / 100 - (y + 99) / 100 == if y % 100 == 0 then 1 else 0
  {
  }

  lemma CeilStep400(y: int)
    ensures (y + 400) / 400 - (y + 399) / 400 == if y % 400 == 0 then 1 else 0
  {
  }

  lemma DivisorsOfCenturies(y: int)
    ensures y % 400 == 0 ==> y % 100 == 0
    ensures y % 100 == 0 ==> y % 4 == 0
  {
    if y % 400 == 0 {
      CenturyOf400(y);
    }
    if y % 100 == 0 {
      LeapOf100(y);
    }
  }

  lemma CenturyOf400(y: int)
    requires y % 400 == 0
    ensures y % 100 == 0
  {
    var m := 4 * (y / 400);
    assert y == 100 * m;
  }

  lemma LeapOf100(y: int)
    requires y % 100 == 0
    ensures y % 4 == 0
  {
    var m := 25 * (y / 100);
    assert y == 4 * m;
  }

  function LeapsBefore(y: int): int {
    (y + 3) / 4 - (y + 99) / 100 + (y + 399) / 400
  }

  lemma LeapsStep(y: int)
    ensures LeapsBefore(y + 1) == LeapsBefore(y) + (if IsLeapYear(y) then 1 else 0)
  {
    CeilStep4(y);
    CeilStep100(y);
    CeilStep400(y);
    DivisorsOfCenturies(y);
  }

  /** Consecutive years start a year's length apart. */
  lemma YearStartStep(y: int)
    ensures YearStart(y + 1) == YearStart(y) + DaysInYear(y)
  {
    LeapsStep(y);
    assert YearStart(y) == 365 * y + LeapsBefore(y) - 719528;
    assert YearStart(y + 1) == 365 * y + 365 + LeapsBefore(y + 1) - 719528;
  }

  lemma DaysBeforeDecember(y: int)
    ensures DaysBeforeMonth(y, 12) == DaysInYear(y)
  {
    assert DaysBeforeMonth(y, 2) == 31 + DaysInMonth(y, 1);
    assert DaysBeforeMonth(y, 4) == DaysBeforeMonth(y, 2) + 61;
    assert DaysBeforeMonth(y, 6) == DaysBeforeMonth(y, 4) + 61;
    assert DaysBeforeMonth(y, 8) == DaysBeforeMonth(y, 6) + 62;
    assert DaysBeforeMonth(y, 10) == DaysBeforeMonth(y, 8) + 61;
    assert DaysBeforeMonth(y, 12) == DaysBeforeMonth(y, 10) + 61;
  }

  lemma {:induction false} DaysBeforeMonthMonotone(y: int, a: int, b: int)
    requires 0 <= a <= b <= 12
    ensures DaysBeforeMonth(y, a) + (b - a) * 28 <= DaysBeforeMonth(y, b)
    decreases b - a
  {
    if a < b { DaysBeforeMonthMonotone(y, a, b - 1); }
  }

  lemma {:induction false} YearStartMonotone(a: int, b: int)
    requires a <= b
    ensures YearStart(a) + 365 * (b - a) <= YearStart(b)
    decreases b - a
  {
    if a < b {
      YearStartMonotone(a, b - 1);
      YearStartStep(b - 1);
    }
  }

  /** A valid date lies inside its year and month. */
  lemma DayNumberBounds(d: Date)
    requires Valid(d)
    ensures YearStart(d.year) + DaysBeforeMonth(d.year, d.month) <= DayNumber(d)
    ensures DayNumber(d) < YearStart(d.year) + DaysBeforeMonth(d.year, d.month + 1)
    ensures DayNumber(d) < YearStart(d.year + 1)
  {
    YearStartStep(d.year);
    DaysBeforeDecember(d.year);
    DaysBeforeMonthMonotone(d.year, d.month + 1, 12);
  }

  /** A valid date before year `y` has a smaller day number than any valid date in year `y` or later. */
  lemma EarlierYear(a: Date, b: Date)
    requires Valid(a) && Valid(b) && a.year < b.year
    ensures DayNumber(a) < DayNumber(b)
  {
    DayNumberBounds(a);
    YearStartMonotone(a.year + 1, b.year);
    assert YearStart(b.year) <= DayNumber(b);
  }

  lemma EarlierMonth(a: Date, b: Date)
    requires Valid(a) && Valid(b) && a.year == b.year && a.month < b.month
    ensures DayNumber(a) < DayNumber(b)
  {
    DayNumberBounds(a);
    DaysBeforeMonthMonotone(a.year, a.month + 1, b.month);
  }

  /** Different valid dates have different day numbers. */
  lemma DayNumberInjective(a: Date, b: Date)
    requires Valid(a) && Valid(b) && DayNumber(a) == DayNumber(b)
    ensures a == b
  {
    if a.year < b.year {
      EarlierYear(a, b);
    } else if b.year < a.year {
      EarlierYear(b, a);
    } else if a.month < b.month {
      EarlierMonth(a, b);
    } else if b.month < a.month {
      EarlierMonth(b, a);
    }
  }

  function NextMonth(y: int, m: int): (r: (int, int))
    requires 0 <= m < 12
    ensures 0 <= r.1 < 12
  {
    if m == 11 then (y + 1, 0) else (y, m + 1)
  }

  function PrevMonth(y: int, m: int): (r: (int, int))
    requires 0 <= m < 12
    ensures 0 <= r.1 < 12
  {
    if m == 0 then (y - 1, 11) else (y, m - 1)
  }

  lemma NextMonthStart(y: int, m: int)
    requires 0 <= m < 12
    ensures var n := NextMonth(y, m);
      DayNumber(Date(n.0, n.1, 1)) == DayNumber(Date(y, m, 1)) + DaysInMonth(y, m)
  {
    if m == 11 {
      YearStartStep(y);
      DaysBeforeDecember(y);
    }
  }

  /**
   * The date `d - 1` days after the first of month `m` of year `y`, for any
   * integer `d`: how JavaScript resolves an out-of-range day of the month.
   */
  function Normalize(y: int, m: int, d: int): (r: Date)
    requires 0 <= m < 12
    ensures Valid(r)
    ensures DayNumber(r) == DayNumber(Date(y, m, 1)) + d - 1
    decreases if d < 1 then 1 - d else 0, if d < 1 then 0 else d
  {
    if d < 1 then
      var p := PrevMonth(y, m);
      PrevMonthStart(y, m);
      Normalize(p.0, p.1, d + DaysInMonth(p.0, p.1))
    else if d > DaysInMonth(y, m) then
      var n := NextMonth(y, m);
      NextMonthStart(y, m);
      Normalize(n.0, n.1, d - DaysInMonth(y, m))
    else
      Date(y, m, d)
  }

  lemma PrevMonthStart(y: int, m: int)
    requires 0 <= m < 12
    ensures var p := PrevMonth(y, m);
      DayNumber(Date(p.0, p.1, 1)) + DaysInMonth(p.0, p.1) == DayNumber(Date(y, m, 1))
  {
    var p := PrevMonth(y, m);
    NextMonthStart(p.0, p.1);
    assert NextMonth(p.0, p.1) == (y, m);
  }

  /** `new Date(y, m, d)` for any integer month and day. */
  function MakeDate(y: int, m: int, d: int): (r: Date)
    ensures Valid(r)
    ensures DayNumber(r) == DayNumber(Date(y + m / 12, m % 12, 1)) + d - 1
  {
    Normalize(y + m / 12, m % 12, d)
  }

  /** A valid date is left as it is by normalisation. */
  lemma NormalizeValid(d: Date)
    requires Valid(d)
    ensures Normalize(d.year, d.month, d.day) == d
  {
  }

  /** `date.setDate(date.getDate() + n)`: the date `n` days later. */
  function AddDays(d: Date, n: int): (r: Date)
    requires Valid(d)
    ensures Valid(r) && DayNumber(r) == DayNumber(d) + n
  {
    Normalize(d.year, d.month, d.day + n)
  }

  /** Moving `n` days and then `-n` days returns to the start. */
  lemma AddDaysInverse(d: Date, n: int)
    requires Valid(d)
    ensures AddDays(AddDays(d, n), -n) == d
  {
    DayNumberInjective(AddDays(AddDays(d, n), -n), d);
  }

  /** `date.setMonth(date.getMonth() + n)`: keeps the day of the month, which may spill into the month after. */
  function AddMonths(d: Date, n: int): (r: Date)
    requires Valid(d)
    ensures Valid(r)
    ensures var m := d.month + n; DayNumber(r) == DayNumber(Date(d.year + m / 12, m % 12, 1)) + d.day - 1
  {
    MakeDate(d.year, d.month + n, d.day)
  }

  lemma ModSevenShift(a: int, n: int)
    ensures (a + n) % 7 == (a % 7 + n) % 7
  {
    var q := a / 7;
    assert a == 7 * q + a % 7;
    assert a + n == 7 * q + (a % 7 + n);
  }

  /** Moving `n` days moves the weekday on by `n`, modulo 7. */
  lemma WeekdayAddDays(d: Date, n: int)
    requires Valid(d)
    ensures Weekday(AddDays(d, n)) == (Weekday(d) + n) % 7
  {
    ModSevenShift(DayNumber(d) + 4, n);
    assert DayNumber(AddDays(d, n)) + 4 == DayNumber(d) + 4 + n;
  }
}
