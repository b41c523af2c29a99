/**
 * The UTC date helpers behind the PocketBase filters: the
 * `YYYY-MM-DD HH:MM:SS` rendering of a date's UTC fields, and the start of
 * the day, the end of the day and the start of the (Monday-based) week
 * around "now".  A JavaScript `Date` is `UtcDate`, an object holding its
 * UTC fields that `setUTCHours` and `setUTCDate` change in place; "now" is
 * a parameter.
 */
module DateUtils {
  import opened Wrappers
  import opened JsText
  import opened CivilDates
  import Sorting

  /** The UTC fields of a `Date`: its calendar date (months from 0) and time of day. */
  datatype UtcTime = UtcTime(date: Date, hours: int, minutes: int, seconds: int, millis: int)

  predicate ValidTime(t: UtcTime) {
    Valid(t.date) && 0 <= t.hours < 24 && 0 <= t.minutes < 60 && 0 <= t.seconds < 60 && 0 <= t.millis < 1000
  }

  /** The date half of the rendering, up to and including the separating space. */
  function DatePart(t: UtcTime): (r: string)
    requires ValidTime(t)
    ensures |r| == |IntToString(t.date.year)| + 7
  {
    IntToString(t.date.year) + "-" + Pad2(t.date.month + 1) + "-" + Pad2(t.date.day) + " "
  }

  function TimePart(t: UtcTime): (r: string)
    requires ValidTime(t)
    ensures |r| == 8
  {
    Pad2(t.hours) + ":" + Pad2(t.minutes) + ":" + Pad2(t.seconds)
  }

  /** `formatDateForPB`: the unpadded year, the 1-based month, and every other field in two digits. */
  function FormatForPB(t: UtcTime): (r: string)
    requires ValidTime(t)
    ensures |r| == |IntToString(t.date.year)| + 15
  {
    DatePart(t) + TimePart(t)
  }

  lemma FourDigits(n: nat)
    requires 1000 <= n < 10000
    ensures |NatToString(n)| == 4
  {
    var a := n / 10;
    assert 100 <= a < 1000;
    var b := a / 10;
    assert 10 <= b < 100;
    var c := b / 10;
    assert 1 <= c < 10;
    assert |NatToString(b)| == |NatToString(c)| + 1;
    assert |NatToString(a)| == |NatToString(b)| + 1;
    assert |NatToString(n)| == |NatToString(a)| + 1;
  }

  /**
   * For a four-digit year the rendering is 19 characters with its
   * separators in fixed places, and every field reads back from its slot.
   */
  lemma FormatReadsBack(t: UtcTime)
    requires ValidTime(t) && 1000 <= t.date.year < 10000
    ensures var r := FormatForPB(t);
      |r| == 19 && r[4..5] == "-" && r[7..8] == "-" && r[10..11] == " " && r[13..14] == ":" && r[16..17] == ":"
      && r[..4] == NatToString(t.date.year)
      && ParseInt(r[5..7]) == Some(t.date.month + 1) && ParseInt(r[8..10]) == Some(t.date.day)
      && ParseInt(r[11..13]) == Some(t.hours) && ParseInt(r[14..16]) == Some(t.minutes)
      && ParseInt(r[17..19]) == Some(t.seconds)
  {
    var r, dp, tp := FormatForPB(t), DatePart(t), TimePart(t);
    DatePartSlices(t);
    TimePartSlices(t);
    assert r == dp + tp;
    JoinedSlices(dp, tp);
    ParsePad2(t.date.month + 1);
    ParsePad2(t.date.day);
    ParsePad2(t.hours);
    ParsePad2(t.minutes);
    ParsePad2(t.seconds);
  }

  /** The slots of an 11-character date half followed by an 8-character time half. */
  lemma JoinedSlices(dp: string, tp: string)
    requires |dp| == 11 && |tp| == 8
    ensures var r := dp + tp;
      r[..4] == dp[..4] && r[4..5] == dp[4..5] && r[5..7] == dp[5..7] && r[7..8] == dp[7..8]
      && r[8..10] == dp[8..10] && r[10..11] == dp[10..11]
      && r[11..13] == tp[0..2] && r[13..14] == tp[2..3] && r[14..16] == tp[3..5]
      && r[16..17] == tp[5..6] && r[17..19] == tp[6..8]
  {
  }

  lemma DatePartSlices(t: UtcTime)
    requires ValidTime(t) && 1000 <= t.date.year < 10000
    ensures var p := DatePart(t);
      |p| == 11 && p[..4] == NatToString(t.date.year) && p[4..5] == "-" && p[5..7] == Pad2(t.date.month + 1)
      && p[7..8] == "-" && p[8..10] == Pad2(t.date.day) && p[10..11] == " "
  {
    FourDigits(t.date.year);
    var y, mo, d := NatToString(t.date.year), Pad2(t.date.month + 1), Pad2(t.date.day);
    assert DatePart(t) == y + "-" + mo + "-" + d + " ";
  }

  lemma TimePartSlices(t: UtcTime)
    requires ValidTime(t)
    ensures var p := TimePart(t);
      p[0..2] == Pad2(t.hours) && p[2..3] == ":" && p[3..5] == Pad2(t.minutes)
      && p[5..6] == ":" && p[6..8] == Pad2(t.seconds)
  {
  }

  /** Two-digit renderings compare as the numbers do. */
  lemma Pad2Order(a: nat, b: nat)
    requires a < b < 100
    ensures Sorting.StringLe(Pad2(a), Pad2(b)) && Pad2(a) != Pad2(b)
  {
    Pad2Digits(a);
    Pad2Digits(b);
    DigitCharValue(a / 10);
    DigitCharValue(b / 10);
    DigitCharValue(a % 10);
    DigitCharValue(b % 10);
    var pa, pb := Pad2(a), Pad2(b);
    if a / 10 == b / 10 {
      assert pa[1..][0] < pb[1..][0];
    }
  }

  /** Time of day, to the second, in order. */
  predicate SecondsLe(a: UtcTime, b: UtcTime) {
    a.hours < b.hours
    || (a.hours == b.hours && (a.minutes < b.minutes || (a.minutes == b.minutes && a.seconds <= b.seconds)))
  }

  /** Later in the day to the second, later in text. */
  lemma TimePartOrder(a: UtcTime, b: UtcTime)
    requires ValidTime(a) && ValidTime(b) && SecondsLe(a, b)
    ensures Sorting.StringLe(TimePart(a), TimePart(b))
  {
    TimePartShape(a);
    TimePartShape(b);
    var ha, hb := Pad2(a.hours), Pad2(b.hours);
    var ra, rb := MinutesAndSeconds(a), MinutesAndSeconds(b);
    if a.hours < b.hours {
      Pad2Order(a.hours, b.hours);
      Sorting.StringLeDecidedEarly(ha, hb, ra, rb);
    } else {
      MinutesPartOrder(a, b);
      Sorting.StringLeAfterPrefix(ha, ra, rb);
    }
  }

  /** What follows the hour in the time half. */
  function MinutesAndSeconds(t: UtcTime): string
    requires ValidTime(t)
  {
    ":" + Pad2(t.minutes) + ":" + Pad2(t.seconds)
  }

  lemma TimePartShape(t: UtcTime)
    requires ValidTime(t)
    ensures TimePart(t) == Pad2(t.hours) + MinutesAndSeconds(t)
  {
  }

  lemma MinutesPartOrder(a: UtcTime, b: UtcTime)
    requires ValidTime(a) && ValidTime(b) && SecondsLe(a, b) && a.hours == b.hours
    ensures Sorting.StringLe(MinutesAndSeconds(a), MinutesAndSeconds(b))
  {
    var ma, mb := Pad2(a.minutes), Pad2(b.minutes);
    var sa, sb := Pad2(a.seconds), Pad2(b.seconds);
    if a.minutes < b.minutes {
      Pad2Order(a.minutes, b.minutes);
      MinutesDecide(ma, mb, sa, sb);
    } else {
      if a.seconds < b.seconds {
        Pad2Order(a.seconds, b.seconds);
      } else {
        Sorting.StringLeTotal(sa, sb);
      }
      Sorting.StringLeAfterPrefix(":" + ma + ":", sa, sb);
    }
  }

  /** Different two-digit minutes decide the order of ":mm:ss" whatever the seconds. */
  lemma MinutesDecide(ma: string, mb: string, sa: string, sb: string)
    requires |ma| == |mb| && Sorting.StringLe(ma, mb) && ma != mb
    ensures Sorting.StringLe(":" + ma + ":" + sa, ":" + mb + ":" + sb)
  {
    Sorting.StringLeDecidedEarly(ma, mb, ":" + sa, ":" + sb);
    assert ma + (":" + sa) == ma + ":" + sa && mb + (":" + sb) == mb + ":" + sb;
    Sorting.StringLeAfterPrefix(":", ma + ":" + sa, mb + ":" + sb);
    assert ":" + (ma + ":" + sa) == ":" + ma + ":" + sa;
    assert ":" + (mb + ":" + sb) == ":" + mb + ":" + sb;
  }

  /** On one day the renderings are in the order of the times, as PocketBase's text comparison needs. */
  lemma SameDayOrder(a: UtcTime, b: UtcTime)
    requires ValidTime(a) && ValidTime(b) && a.date == b.date && SecondsLe(a, b)
    ensures Sorting.StringLe(FormatForPB(a), FormatForPB(b))
  {
    TimePartOrder(a, b);
    Sorting.StringLeAfterPrefix(DatePart(a), TimePart(a), TimePart(b));
  }

  // ----------------------------------------------------------- the Date

  /** A `Date` object, as far as these helpers use it. */
  class UtcDate {
    var time: UtcTime

    constructor(t: UtcTime)
      ensures time == t
    {
      time := t;
    }

    /** `setUTCHours(h, m, s, ms)` with every argument in range. */
    method SetUTCHours(h: int, m: int, s: int, ms: int)
      requires 0 <= h < 24 && 0 <= m < 60 && 0 <= s < 60 && 0 <= ms < 1000
      modifies this
      ensures time == old(time).(hours := h, minutes := m, seconds := s, millis := ms)
    {
      time := time.(hours := h, minutes := m, seconds := s, millis := ms);
    }

    /** `setUTCDate(d)`: day `d` of the current month, an out-of-range `d` running into the neighbouring months. */
    method SetUTCDate(d: int)
      requires ValidTime(time)
      modifies this
      ensures time == old(time).(date := Normalize(old(time).date.year, old(time).date.month, d))
      ensures ValidTime(time)
    {
      time := time.(date := Normalize(time.date.year, time.date.month, d));
    }
  }

  // -------------------------------------------------------- day and week

  /** Midnight at the start of the UTC day of `now`. */
  function StartOfDay(now: UtcTime): (r: UtcTime)
    requires ValidTime(now)
    ensures ValidTime(r) && r.date == now.date
    ensures r.hours == 0 && r.minutes == 0 && r.seconds == 0 && r.millis == 0
  {
    now.(hours := 0, minutes := 0, seconds := 0, millis := 0)
  }

  /** The last millisecond of the UTC day of `now`. */
  function EndOfDay(now: UtcTime): (r: UtcTime)
    requires ValidTime(now)
    ensures ValidTime(r) && r.date == now.date
    ensures r.hours == 23 && r.minutes == 59 && r.seconds == 59 && r.millis == 999
  {
    now.(hours := 23, minutes := 59, seconds := 59, millis := 999)
  }

  /** Every moment of the day lies between its start and its end. */
  lemma WithinDay(now: UtcTime, t: UtcTime)
    requires ValidTime(now) && ValidTime(t) && t.date == now.date
    ensures SecondsLe(StartOfDay(now), t) && SecondsLe(t, EndOfDay(now))
  {
  }

  /** The day's start renders no later than its end, so the pair brackets the day in a text filter. */
  lemma StartStringBeforeEndString(now: UtcTime)
    requires ValidTime(now)
    ensures Sorting.StringLe(FormatForPB(StartOfDay(now)), FormatForPB(EndOfDay(now)))
  {
    SameDayOrder(StartOfDay(now), EndOfDay(now));
  }

  /** The day offset to the week's Monday: `1 - dow`, and `-6` on a Sunday. */
  function MondayOffset(dow: int): (r: int)
    requires 0 <= dow < 7
    ensures -6 <= r <= 0 && (dow + r) % 7 == 1
  {
    -dow + (if dow == 0 then -6 else 1)
  }

  /** Midnight of the Monday on or before the UTC day of `now`. */
  function StartOfWeek(now: UtcTime): (r: UtcTime)
    requires ValidTime(now)
    ensures ValidTime(r) && r.hours == 0 && r.minutes == 0 && r.seconds == 0 && r.millis == 0
    ensures Weekday(r.date) == 1
    ensures 0 <= DayNumber(now.date) - DayNumber(r.date) <= 6
  {
    var offset := MondayOffset(Weekday(now.date));
    WeekdayAddDays(now.date, offset);
    UtcTime(AddDays(now.date, offset), 0, 0, 0, 0)
  }

  /** That Monday is the only Monday among the seven days ending with today. */
  lemma StartOfWeekUnique(now: UtcTime, d: Date)
    requires ValidTime(now) && Valid(d)
    requires Weekday(d) == 1 && 0 <= DayNumber(now.date) - DayNumber(d) <= 6
    ensures d == StartOfWeek(now).date
  {
    var m := StartOfWeek(now).date;
    var x, k := DayNumber(m) + 4, DayNumber(d) - DayNumber(m);
    assert -6 <= k <= 6;
    assert x % 7 == 1 && (x + k) % 7 == 1;
    ModSevenShift(x, k);
    assert k == 0 by { SmallShiftOfSeven(k); }
    DayNumberInjective(d, m);
  }

  lemma SmallShiftOfSeven(k: int)
    requires -6 <= k <= 6 && (1 + k) % 7 == 1
    ensures k == 0
  {
  }

  /** `getStartOfDayUTC`. */
  method GetStartOfDayUTC(now: UtcTime) returns (r: UtcTime)
    requires ValidTime(now)
    ensures r == StartOfDay(now)
  {
    var date := new UtcDate(now);
    date.SetUTCHours(0, 0, 0, 0);
    r := date.time;
  }

  /** `getEndOfDayUTC`. */
  method GetEndOfDayUTC(now: UtcTime) returns (r: UtcTime)
    requires ValidTime(now)
    ensures r == EndOfDay(now)
  {
    var date := new UtcDate(now);
    date.SetUTCHours(23, 59, 59, 999);
    r := date.time;
  }

  /** `getStartOfWeekUTC`: move to the Monday with `setUTCDate`, then to its midnight. */
  method GetStartOfWeekUTC(now: UtcTime) returns (r: UtcTime)
    requires ValidTime(now)
    ensures r == StartOfWeek(now)
  {
    var date := new UtcDate(now);
    var dayOfWeek := Weekday(date.time.date);
    var diff := date.time.date.day - dayOfWeek + (if dayOfWeek == 0 then -6 else 1);
    date.SetUTCDate(diff);
    var startOfWeek := new UtcDate(date.time);
    startOfWeek.SetUTCHours(0, 0, 0, 0);
    r := startOfWeek.time;
  }

  /** `getStartOfDayString`, `getEndOfDayString` and `getStartOfWeekString`. */
  method GetStartOfDayString(now: UtcTime) returns (s: string)
    requires ValidTime(now)
    ensures s == FormatForPB(StartOfDay(now))
  {
    var t := GetStartOfDayUTC(now);
    s := FormatForPB(t);
  }

  method GetEndOfDayString(now: UtcTime) returns (s: string)
    requires ValidTime(now)
    ensures s == FormatForPB(EndOfDay(now))
  {
    var t := GetEndOfDayUTC(now);
    s := FormatForPB(t);
  }

  method GetStartOfWeekString(now: UtcTime) returns (s: string)
    requires ValidTime(now)
    ensures s == FormatForPB(StartOfWeek(now))
  {
    var t := GetStartOfWeekUTC(now);
    s := FormatForPB(t);
  }
}
