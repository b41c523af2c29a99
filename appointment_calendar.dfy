/**
 * The appointment calendar's arithmetic: 12-hour time labels, the hourly
 * slots of the daily view, the seven days of the weekly view, the 42-cell
 * grid of the monthly view, moving the current date by one step of the
 * view, and how many cards a cell shows.  Dates are the calendar dates of
 * `CivilDates`; the time of day a JavaScript `Date` also carries plays no
 * part in any of these.
 */
module AppointmentCalendar {
  import opened Wrappers
  import opened JsText
  import opened CivilDates
  import Sorting

  // ------------------------------------------------------------- time text

  /** JavaScript's `%` on integers, which truncates towards zero. */
  function JsRem(a: int, b: int): (r: int)
    requires b > 0
    ensures a >= 0 ==> r == a % b
    ensures a < 0 ==> -b < r <= 0
  {
    if a >= 0 then a % b else -((-a) % b)
  }

  /** `hour % 12 || 12` for the parsed hour; `NaN` is falsy, so it shows as 12. */
  function DisplayHour(hour: Option<int>): (r: string)
    ensures hour.None? ==> r == "12"
    ensures hour.Some? && 0 <= hour.value ==> r == NatToString(if hour.value % 12 == 0 then 12 else hour.value % 12)
  {
    if hour.None? then "12"
    else
      var h := JsRem(hour.value, 12);
      if h == 0 then "12" else IntToString(h)
  }

  /**
   * `formatTime`: the text before the first colon is parsed as the hour,
   * the text between the first and the second colon (all of the rest when
   * there is no second colon) is kept as the minutes (`undefined` when there
   * is no colon), and the suffix is PM exactly when the hour is at least 12.
   */
  function FormatTime(time: string): (r: string)
    ensures var parts := Split(time, ':');
      r == DisplayHour(ParseInt(parts[0])) + ":" + (if |parts| > 1 then parts[1] else "undefined")
        + (if ParseInt(parts[0]).Some? && ParseInt(parts[0]).value >= 12 then " PM" else " AM")
  {
    var parts := Split(time, ':');
    var hour := ParseInt(parts[0]);
    var minutes := if |parts| > 1 then parts[1] else "undefined";
    DisplayHour(hour) + ":" + minutes + (if hour.Some? && hour.value >= 12 then " PM" else " AM")
  }

  /** The 12-hour clock: hours 0 and 12 show as 12, and AM means before noon. */
  function TwelveHour(hour: nat): (r: nat)
    ensures 1 <= r <= 12
    ensures hour < 24 ==> (r == 12 <==> hour == 0 || hour == 12)
    ensures r % 12 == hour % 12
  {
    if hour % 12 == 0 then 12 else hour % 12
  }

  /**
   * For a well-formed "HH:MM" the label is the 12-hour hour, the minutes as
   * written, and AM exactly before noon.
   */
  lemma FormatWellFormedTime(hour: nat, minutes: string)
    requires hour < 100 && ':' !in minutes
    ensures FormatTime(Pad2(hour) + ":" + minutes)
      == NatToString(TwelveHour(hour)) + ":" + minutes + (if hour < 12 then " AM" else " PM")
  {
    var parts := [Pad2(hour), minutes];
    assert ':' !in Pad2(hour) by {
      forall k | 0 <= k < |Pad2(hour)| ensures Pad2(hour)[k] != ':' {
        assert '0' <= Pad2(hour)[k] <= '9';
      }
    }
    JoinCons(Pad2(hour), [minutes], [':']);
    assert Join(parts, [':']) == Pad2(hour) + ":" + minutes;
    SplitJoin(parts, ':');
    ParsePad2(hour);
  }

  /** `String(12)` is "12". */
  lemma TwelveText()
    ensures NatToString(12) == "12"
  {
    assert NatToString(12) == NatToString(1) + [DigitChar(2)];
  }

  /** Midnight shows as 12 AM. */
  lemma Midnight(minutes: string)
    requires ':' !in minutes
    ensures FormatTime("00:" + minutes) == "12:" + minutes + " AM"
  {
    var twelve := NatToString(TwelveHour(0));
    assert FormatTime("00:" + minutes) == twelve + ":" + minutes + " AM" by {
      assert "00:" + minutes == Pad2(0) + ":" + minutes by {
        Pad2Digits(0);
      }
      FormatWellFormedTime(0, minutes);
    }
    assert twelve + ":" == "12:" by {
      TwelveText();
    }
  }

  /** Noon shows as 12 PM. */
  lemma Noon(minutes: string)
    requires ':' !in minutes
    ensures FormatTime("12:" + minutes) == "12:" + minutes + " PM"
  {
    Pad2Digits(12);
    assert Pad2(12) + ":" + minutes == "12:" + minutes;
    TwelveText();
    FormatWellFormedTime(12, minutes);
  }

  // ------------------------------------------------------------ hour slots

  const FirstHour := 8
  const LastHour := 18

  /** The label of the slot starting at `hour`. */
  function SlotLabel(hour: nat): (r: string)
    ensures hour < 100 ==> |r| == 5 && r[2..] == ":00"
  {
    Pad2(hour) + ":00"
  }

  /** `getTimeSlots`: one slot an hour from 08:00 to 18:00. */
  method GetTimeSlots() returns (slots: seq<string>)
    ensures |slots| == LastHour - FirstHour + 1
    ensures forall k :: 0 <= k < |slots| ==> slots[k] == SlotLabel(FirstHour + k)
  {
    slots := [];
    var hour := FirstHour;
    while hour <= LastHour
      invariant FirstHour <= hour <= LastHour + 1
      invariant |slots| == hour - FirstHour
      invariant forall k :: 0 <= k < |slots| ==> slots[k] == SlotLabel(FirstHour + k)
    {
      slots := slots + [SlotLabel(hour)];
      hour := hour + 1;
    }
  }

  /** Later hours have labels later in string order, so the slots are strictly ascending. */
  lemma SlotLabelsAscend(a: nat, b: nat)
    requires a < b < 100
    ensures Sorting.StringLe(SlotLabel(a), SlotLabel(b)) && SlotLabel(a) != SlotLabel(b)
  {
    Pad2Digits(a);
    Pad2Digits(b);
    DigitCharValue(a / 10);
    DigitCharValue(b / 10);
    DigitCharValue(a % 10);
    DigitCharValue(b % 10);
    var sa, sb := SlotLabel(a), SlotLabel(b);
    assert sa[0] == DigitChar(a / 10) && sb[0] == DigitChar(b / 10);
    assert sa[1..][0] == DigitChar(a % 10) && sb[1..][0] == DigitChar(b % 10);
    if a / 10 == b / 10 {
      assert a % 10 < b % 10;
      assert sa[1] != sb[1];
    } else {
      assert sa[0] != sb[0];
    }
  }

  /** The first slot is 08:00, the last 18:00. */
  lemma SlotEnds()
    ensures SlotLabel(FirstHour) == "08:00" && SlotLabel(LastHour) == "18:00"
  {
    Pad2Digits(18);
  }

  // ----------------------------------------------------------- week and month

  /** `getWeekDays`: the start date and the six days after it. */
  method GetWeekDays(start: Date) returns (days: seq<Date>)
    requires Valid(start)
    ensures |days| == 7
    ensures forall k :: 0 <= k < 7 ==> Valid(days[k]) && DayNumber(days[k]) == DayNumber(start) + k
  {
    days := [];
    var i := 0;
    while i < 7
      invariant 0 <= i <= 7 && |days| == i
      invariant forall k :: 0 <= k < i ==> Valid(days[k]) && DayNumber(days[k]) == DayNumber(start) + k
    {
      days := days + [AddDays(start, i)];
      i := i + 1;
    }
  }

  /** The Sunday the weekly view starts from: `getDate() - getDay()`. */
  function WeekStart(d: Date): (r: Date)
    requires Valid(d)
    ensures Valid(r) && Weekday(r) == 0
    ensures DayNumber(r) == DayNumber(d) - Weekday(d)
  {
    WeekdayAddDays(d, -Weekday(d));
    AddDays(d, -Weekday(d))
  }

  datatype DayCell = DayCell(date: Date, isCurrentMonth: bool)

  /** The number of leading cells from the previous month: the weekday of the first. */
  function Lead(year: int, month: int): (n: int)
    requires 0 <= month < 12
    ensures 0 <= n < 7
  {
    Weekday(Date(year, month, 1))
  }

  /** The day number the grid starts on. */
  function GridStart(year: int, month: int): int
    requires 0 <= month < 12
  {
    DayNumber(Date(year, month, 1)) - Lead(year, month)
  }

  /** The grid's first cell is a Sunday. */
  lemma GridStartsOnSunday(year: int, month: int)
    requires 0 <= month < 12
    ensures (GridStart(year, month) + 4) % 7 == 0
  {
    DropRemainder(DayNumber(Date(year, month, 1)) + 4);
  }

  lemma DropRemainder(n: int)
    ensures (n - n % 7) % 7 == 0
  {
    var q := n / 7;
    assert n - n % 7 == 7 * q;
  }

  /** `new Date(y, m, -i)`: `i + 1` days before the first of the month. */
  lemma LeadingCell(year: int, month: int, i: int)
    requires 0 <= month < 12
    ensures DayNumber(MakeDate(year, month, -i)) == DayNumber(Date(year, month, 1)) - i - 1
  {
    assert year + month / 12 == year && month % 12 == month;
  }

  /** `new Date(y, m, d)` for a day of the month is that date. */
  lemma CurrentCell(year: int, month: int, d: int)
    requires Valid(Date(year, month, d))
    ensures MakeDate(year, month, d) == Date(year, month, d)
    ensures DayNumber(Date(year, month, d)) == DayNumber(Date(year, month, 1)) + d - 1
  {
    assert year + month / 12 == year && month % 12 == month;
    NormalizeValid(Date(year, month, d));
  }

  /** `new Date(y, m + 1, d)`: `d - 1` days after the first of the next month. */
  lemma TrailingCell(year: int, month: int, d: int)
    requires 0 <= month < 12
    ensures DayNumber(MakeDate(year, month + 1, d)) == DayNumber(Date(year, month, 1)) + DaysInMonth(year, month) + d - 1
  {
    NextMonthStart(year, month);
    NextMonthArithmetic(year, month);
  }

  /** `MakeDate`'s carry from month `m + 1` is the next month. */
  lemma NextMonthArithmetic(year: int, month: int)
    requires 0 <= month < 12
    ensures NextMonth(year, month) == (year + (month + 1) / 12, (month + 1) % 12)
  {
    if month == 11 {
      assert (month + 1) / 12 == 1 && (month + 1) % 12 == 0;
    } else {
      assert (month + 1) / 12 == 0 && (month + 1) % 12 == month + 1;
    }
  }

  /** `new Date(y, m + 1, 0)`: the last day of month `m`. */
  lemma LastDayOfMonth(year: int, month: int)
    requires 0 <= month < 12
    ensures MakeDate(year, month + 1, 0) == Date(year, month, DaysInMonth(year, month))
  {
    NextMonthStart(year, month);
    NextMonthArithmetic(year, month);
    DayNumberInjective(MakeDate(year, month + 1, 0), Date(year, month, DaysInMonth(year, month)));
  }

  /**
   * `getMonthDays`: 42 consecutive days from the Sunday on or before the
   * first of the month; the cells of the month itself are marked current
   * and are its days 1 to the last, in order.
   */
  method GetMonthDays(year: int, month: int) returns (cells: seq<DayCell>)
    requires 0 <= month < 12
    ensures |cells| == 42
    ensures forall k :: 0 <= k < 42 ==> Valid(cells[k].date) && DayNumber(cells[k].date) == GridStart(year, month) + k
    ensures forall k :: 0 <= k < 42 ==>
      (cells[k].isCurrentMonth <==> Lead(year, month) <= k < Lead(year, month) + DaysInMonth(year, month))
    ensures forall k :: 0 <= k < 42 && cells[k].isCurrentMonth ==> cells[k].date == Date(year, month, k - Lead(year, month) + 1)
  {
    var firstDay := MakeDate(year, month, 1);
    CurrentCell(year, month, 1);
    var lastDay := MakeDate(year, month + 1, 0);
    LastDayOfMonth(year, month);
    var lead := Weekday(firstDay);
    var leading := LeadingDays(year, month, lead);
    var current := CurrentDays(year, month, lastDay.day);
    var trailing := TrailingDays(year, month, 42 - (lead + lastDay.day));
    cells := leading + current + trailing;
    SplitGrid(year, month, leading, current, trailing);
  }

  /** The first loop: the `lead` days before the first of the month, oldest first. */
  method LeadingDays(year: int, month: int, lead: int) returns (cells: seq<DayCell>)
    requires 0 <= month < 12 && lead >= 0
    ensures |cells| == lead
    ensures forall k :: 0 <= k < lead ==> (!cells[k].isCurrentMonth && Valid(cells[k].date)
      && DayNumber(cells[k].date) == DayNumber(Date(year, month, 1)) - lead + k)
  {
    cells := [];
    var i := lead - 1;
    while i >= 0
      invariant -1 <= i < lead && |cells| == lead - 1 - i
      invariant forall k :: 0 <= k < |cells| ==> (!cells[k].isCurrentMonth && Valid(cells[k].date)
        && DayNumber(cells[k].date) == DayNumber(Date(year, month, 1)) - lead + k)
    {
      LeadingCell(year, month, i);
      cells := cells + [DayCell(MakeDate(year, month, -i), false)];
      i := i - 1;
    }
  }

  /** The second loop: days 1 to `last` of the month. */
  method CurrentDays(year: int, month: int, last: int) returns (cells: seq<DayCell>)
    requires 0 <= month < 12 && last == DaysInMonth(year, month)
    ensures |cells| == last
    ensures forall k :: 0 <= k < last ==> cells[k] == DayCell(Date(year, month, k + 1), true)
  {
    cells := [];
    var day := 1;
    while day <= last
      invariant 1 <= day <= last + 1 && |cells| == day - 1
      invariant forall k :: 0 <= k < |cells| ==> cells[k] == DayCell(Date(year, month, k + 1), true)
    {
      CurrentCell(year, month, day);
      cells := cells + [DayCell(MakeDate(year, month, day), true)];
      day := day + 1;
    }
  }

  /** The third loop: the first `count` days of the next month. */
  method TrailingDays(year: int, month: int, count: int) returns (cells: seq<DayCell>)
    requires 0 <= month < 12 && count >= 0
    ensures |cells| == count
    ensures forall k :: 0 <= k < count ==> (!cells[k].isCurrentMonth && Valid(cells[k].date)
      && DayNumber(cells[k].date) == DayNumber(Date(year, month, 1)) + DaysInMonth(year, month) + k)
  {
    cells := [];
    var day := 1;
    while day <= count
      invariant 1 <= day <= count + 1 && |cells| == day - 1
      invariant forall k :: 0 <= k < |cells| ==> (!cells[k].isCurrentMonth && Valid(cells[k].date)
        && DayNumber(cells[k].date) == DayNumber(Date(year, month, 1)) + DaysInMonth(year, month) + k)
    {
      TrailingCell(year, month, day);
      cells := cells + [DayCell(MakeDate(year, month + 1, day), false)];
      day := day + 1;
    }
  }

  /** The three runs put together make the grid `GetMonthDays` promises. */
  lemma SplitGrid(year: int, month: int, leading: seq<DayCell>, current: seq<DayCell>, trailing: seq<DayCell>)
    requires 0 <= month < 12
    requires |leading| == Lead(year, month) && |current| == DaysInMonth(year, month)
    requires |leading| + |current| + |trailing| == 42
    requires forall k :: 0 <= k < |leading| ==> (!leading[k].isCurrentMonth && Valid(leading[k].date)
      && DayNumber(leading[k].date) == DayNumber(Date(year, month, 1)) - |leading| + k)
    requires forall k :: 0 <= k < |current| ==> current[k] == DayCell(Date(year, month, k + 1), true)
    requires forall k :: 0 <= k < |trailing| ==> (!trailing[k].isCurrentMonth && Valid(trailing[k].date)
      && DayNumber(trailing[k].date) == DayNumber(Date(year, month, 1)) + |current| + k)
    ensures var cells := leading + current + trailing;
      && (forall k :: 0 <= k < 42 ==> Valid(cells[k].date) && DayNumber(cells[k].date) == GridStart(year, month) + k)
      && (forall k :: 0 <= k < 42 ==>
        (cells[k].isCurrentMonth <==> Lead(year, month) <= k < Lead(year, month) + DaysInMonth(year, month)))
      && (forall k :: 0 <= k < 42 && cells[k].isCurrentMonth ==> cells[k].date == Date(year, month, k - Lead(year, month) + 1))
  {
    var cells := leading + current + trailing;
    var l, c := |leading|, |current|;
    forall k | 0 <= k < 42
      ensures Valid(cells[k].date) && DayNumber(cells[k].date) == GridStart(year, month) + k
      ensures cells[k].isCurrentMonth <==> l <= k < l + c
      ensures cells[k].isCurrentMonth ==> cells[k].date == Date(year, month, k - l + 1)
    {
      if k < l {
        assert cells[k] == leading[k];
      } else if k < l + c {
        assert cells[k] == current[k - l];
        CurrentCell(year, month, k - l + 1);
      } else {
        assert cells[k] == trailing[k - l - c];
      }
    }
  }

  // ------------------------------------------------------------ navigation

  datatype View = Daily | Weekly | Monthly
  datatype Direction = Prev | Next

  /** `navigateDate`: one day, one week or one month back or forth. */
  function NavigateDate(view: View, direction: Direction, d: Date): (r: Date)
    requires Valid(d)
    ensures Valid(r)
    ensures view == Daily ==> DayNumber(r) == DayNumber(d) + (if direction == Next then 1 else -1)
    ensures view == Weekly ==> DayNumber(r) == DayNumber(d) + (if direction == Next then 7 else -7)
    ensures view == Monthly ==> r == AddMonths(d, if direction == Next then 1 else -1)
  {
    match view
    case Daily => AddDays(d, if direction == Next then 1 else -1)
    case Weekly => AddDays(d, if direction == Next then 7 else -7)
    case Monthly => AddMonths(d, if direction == Next then 1 else -1)
  }

  /** In the daily and weekly views, next then previous (or previous then next) gives the date back. */
  lemma NavigateRoundTrip(view: View, d: Date)
    requires Valid(d) && view != Monthly
    ensures NavigateDate(view, Prev, NavigateDate(view, Next, d)) == d
    ensures NavigateDate(view, Next, NavigateDate(view, Prev, d)) == d
  {
    var n := if view == Daily then 1 else 7;
    AddDaysInverse(d, n);
    AddDaysInverse(d, -n);
  }

  /** Weekly navigation keeps the weekday, so the view's Sunday start moves by exactly a week. */
  lemma WeeklyStepKeepsSunday(d: Date, direction: Direction)
    requires Valid(d)
    ensures DayNumber(WeekStart(NavigateDate(Weekly, direction, d))) == DayNumber(WeekStart(d)) + (if direction == Next then 7 else -7)
  {
    var n := if direction == Next then 7 else -7;
    var e := NavigateDate(Weekly, direction, d);
    assert e == AddDays(d, n);
    WeekdayAddDays(d, n);
    var w := Weekday(d);
    assert Weekday(e) == w by { WholeWeek(w, n); }
    assert DayNumber(WeekStart(e)) == DayNumber(e) - w;
  }

  lemma WholeWeek(w: int, n: int)
    requires 0 <= w < 7 && (n == 7 || n == -7)
    ensures (w + n) % 7 == w
  {
  }

  // ------------------------------------------------------------ cell caps

  const WeeklyCap := 3
  const MonthlyCap := 2

  /** The cards a cell shows, and how many it leaves out. */
  function Cards<T>(appts: seq<T>, cap: nat): (r: (seq<T>, nat))
    ensures r.0 <= appts && |r.0| <= cap
    ensures |r.0| + r.1 == |appts|
    ensures r.1 > 0 <==> |appts| > cap
    ensures r.1 == 0 ==> r.0 == appts
  {
    if |appts| <= cap then (appts, 0) else (appts[..cap], |appts| - cap)
  }

  /** A weekly cell: up to three cards, then "+n more". */
  function WeeklyCell<T>(appts: seq<T>): (r: (seq<T>, Option<string>))
    ensures r.0 == Cards(appts, WeeklyCap).0
    ensures r.1.Some? <==> |appts| > WeeklyCap
    ensures r.1.Some? ==> r.1.value == "+" + NatToString(|appts| - WeeklyCap) + " more"
  {
    var c := Cards(appts, WeeklyCap);
    (c.0, if c.1 > 0 then Some("+" + NatToString(c.1) + " more") else None)
  }

  /** A monthly cell: up to two entries, then "+n". */
  function MonthlyCell<T>(appts: seq<T>): (r: (seq<T>, Option<string>))
    ensures r.0 == Cards(appts, MonthlyCap).0
    ensures r.1.Some? <==> |appts| > MonthlyCap
    ensures r.1.Some? ==> r.1.value == "+" + NatToString(|appts| - MonthlyCap)
  {
    var c := Cards(appts, MonthlyCap);
    (c.0, if c.1 > 0 then Some("+" + NatToString(c.1)) else None)
  }
}
