/**
 * Proleptic Gregorian date-times, with the `timedelta` steps, `strftime` formats and
 * `strptime` formats the service uses.
 */
module Calendar {
  import opened Text
  import opened Wrappers
  import opened Numbers

  predicate IsLeap(y: int) {
    y % 4 == 0 && (y % 100 != 0 || y % 400 == 0)
  }

  function DaysInMonth(y: int, m: int): (n: int)
    requires 1 <= m <= 12
    ensures 28 <= n <= 31
  {
    if m == 2 then (if IsLeap(y) then 29 else 28)
    else if m == 4 || m == 6 || m == 9 || m == 11 then 30
    else 31
  }

  /** A calendar day `datetime.date` accepts: years 1 to 9999. */
  predicate ValidDate(y: int, m: int, d: int) {
    1 <= y <= 9999 && 1 <= m <= 12 && 1 <= d <= DaysInMonth(y, m)
  }

  datatype DateTime = DateTime(year: int, month: int, day: int, hour: int, minute: int, second: int)
  {
    predicate Valid() {
      ValidDate(year, month, day) && 0 <= hour < 24 && 0 <= minute < 60 && 0 <= second < 60
    }
  }

  function YearLength(y: int): int {
    if IsLeap(y) then 366 else 365
  }

  /** Days in the years before `y`. */
  function DaysBeforeYear(y: int): int
    requires y >= 1
  {
    if y == 1 then 0 else DaysBeforeYear(y - 1) + YearLength(y - 1)
  }

  /** Days in the months of year `y` before month `m`. */
  function DaysBeforeMonth(y: int, m: int): int
    requires 1 <= m <= 12
  {
    var before := [0, 31, 59, 90, 120, 151, 181, 212, 243, 273, 304, 334][m - 1];
    if m > 2 && IsLeap(y) then before + 1 else before
  }

  /** The day's ordinal: 1 for 0001-01-01, as `date.toordinal()`. */
  function DayNumber(dt: DateTime): int
    requires 1 <= dt.year && 1 <= dt.month <= 12
  {
    DaysBeforeYear(dt.year) + DaysBeforeMonth(dt.year, dt.month) + dt.day
  }

  /** Seconds since 0001-01-01 00:00:00, less a constant day. */
  function Seconds(dt: DateTime): int
    requires 1 <= dt.year && 1 <= dt.month <= 12
  {
    ((DayNumber(dt) * 24 + dt.hour) * 60 + dt.minute) * 60 + dt.second
  }

  /** The same time on the following day. */
  function NextDay(dt: DateTime): (r: DateTime)
    requires dt.Valid() && (dt.year < 9999 || dt.month < 12 || dt.day < 31)
    ensures r.Valid()
    ensures DayNumber(r) == DayNumber(dt) + 1
    ensures r.year >= dt.year
    ensures r.hour == dt.hour && r.minute == dt.minute && r.second == dt.second
  {
    if dt.day < DaysInMonth(dt.year, dt.month) then dt.(day := dt.day + 1)
    else if dt.month < 12 then dt.(month := dt.month + 1, day := 1)
    else dt.(year := dt.year + 1, month := 1, day := 1)
  }

  /** `dt + timedelta(days=n)`; `None` when the result passes year 9999 (Python's `OverflowError`). */
  function AddDays(dt: DateTime, n: nat): (r: Option<DateTime>)
    requires dt.Valid()
    ensures r.Some? ==> r.value.Valid() && DayNumber(r.value) == DayNumber(dt) + n
    ensures r.Some? ==> r.value.hour == dt.hour && r.value.minute == dt.minute && r.value.second == dt.second
    ensures r.Some? ==> r.value.year >= dt.year
    decreases n
  {
    if n == 0 then Some(dt)
    else if dt.year == 9999 && dt.month == 12 && dt.day == 31 then None
    else AddDays(NextDay(dt), n - 1)
  }

  /** `dt + timedelta(hours=h)`; `None` past year 9999. */
  function AddHours(dt: DateTime, h: nat): (r: Option<DateTime>)
    requires dt.Valid()
    ensures r.Some? ==> r.value.Valid() && Seconds(r.value) == Seconds(dt) + 3600 * h
    ensures r.Some? ==> r.value.minute == dt.minute && r.value.second == dt.second && r.value.year >= dt.year
    decreases h
  {
    if h == 0 then Some(dt)
    else if dt.hour < 23 then AddHours(dt.(hour := dt.hour + 1), h - 1)
    else if dt.year == 9999 && dt.month == 12 && dt.day == 31 then None
    else AddHours(NextDay(dt).(hour := 0), h - 1)
  }

  /** Adding up to 31 days never fails from a date in year 9998 or earlier, nor from a
    * January 9999 date that the days keep within January. */
  lemma {:induction false} AddDaysDefined(dt: DateTime, n: nat)
    requires dt.Valid() && n <= 31
    requires dt.year <= 9998 || (dt.month == 1 && dt.day + n <= 31)
    ensures AddDays(dt, n).Some?
    decreases n
  {
    if n > 0 {
      AddDaysDefined(NextDay(dt), n - 1);
    }
  }

  /** Adding up to a day of hours never fails before the last day of year 9998. */
  lemma {:induction false} AddHoursDefined(dt: DateTime, h: nat)
    requires dt.Valid() && dt.year <= 9998 && h <= 24
    ensures AddHours(dt, h).Some?
    decreases h
  {
    if h > 0 {
      if dt.hour < 23 {
        AddHoursDefined(dt.(hour := dt.hour + 1), h - 1);
      } else {
        var next := NextDay(dt).(hour := 0);
        if next.year <= 9998 {
          AddHoursDefined(next, h - 1);
        } else {
          AddHoursInFirstDay(next, h - 1);
        }
      }
    }
  }

  lemma {:induction false} AddHoursInFirstDay(dt: DateTime, h: nat)
    requires dt.Valid() && dt.month == 1 && dt.day == 1 && dt.hour + h <= 23
    ensures AddHours(dt, h).Some?
    decreases h
  {
    if h > 0 {
      AddHoursInFirstDay(dt.(hour := dt.hour + 1), h - 1);
    }
  }

  /** Two digits with a leading zero: `%m`, `%d`, `%H`, `%M`, `%S`, `%I`. */
  function Pad2(n: nat): (s: string)
    requires n < 100
    ensures |s| == 2 && IsDigit(s[0]) && IsDigit(s[1])
    ensures DigitValue(s[0]) == n / 10 && DigitValue(s[1]) == n % 10
    ensures DigitsValue(s) == n
  {
    var s := [DigitChar(n / 10), DigitChar(n % 10)];
    assert s[..1][..0] == [];
    assert DigitsValue(s[..1]) == n / 10;
    assert s[..|s| - 1] == s[..1];
    s
  }

  /** `%Y`: four digits from year 1000 on; fewer digits before that, as the C library prints them. */
  function YearText(y: nat): (s: string)
    requires y <= 9999
    ensures 1000 <= y ==> |s| == 4 && AllDigits(s) && DigitsValue(s) == y
  {
    if y >= 1000 then
      DigitsValueAppend(Pad2(y / 100), Pad2(y % 100));
      Pad2(y / 100) + Pad2(y % 100)
    else NatToString(y)
  }

  /** `dt.strftime("%Y-%m-%d %H:%M")`. */
  function FormatMinute(dt: DateTime): (s: string)
    requires dt.Valid()
    ensures 1000 <= dt.year ==> |s| == 16
  {
    YearText(dt.year) + "-" + Pad2(dt.month) + "-" + Pad2(dt.day) + " " + Pad2(dt.hour) + ":" + Pad2(dt.minute)
  }

  /** `dt.strftime("%Y%m%d%H%M%S")`. */
  function FormatStamp(dt: DateTime): (s: string)
    requires dt.Valid()
    ensures 1000 <= dt.year ==> |s| == 14 && AllDigits(s)
  {
    YearText(dt.year) + Pad2(dt.month) + Pad2(dt.day) + Pad2(dt.hour) + Pad2(dt.minute) + Pad2(dt.second)
  }

  const MonthAbbreviations: seq<string> :=
    ["Jan", "Feb", "Mar", "Apr", "May", "Jun", "Jul", "Aug", "Sep", "Oct", "Nov", "Dec"]

  /** `dt.strftime("%b %d, %Y")` in the C locale. */
  function FormatLongDate(dt: DateTime): string
    requires dt.Valid()
  {
    MonthAbbreviations[dt.month - 1] + " " + Pad2(dt.day) + ", " + YearText(dt.year)
  }

  /** The hour on a twelve-hour clock, `%I`: 12 for midnight and noon. */
  function ClockHour(h: int): (c: int)
    requires 0 <= h < 24
    ensures 1 <= c <= 12
    ensures c % 12 == h % 12
  {
    if h % 12 == 0 then 12 else h % 12
  }

  /** `dt.strftime("%I:%M %p")` in the C locale. */
  function FormatClock(dt: DateTime): string
    requires dt.Valid()
  {
    Pad2(ClockHour(dt.hour)) + ":" + Pad2(dt.minute) + " " + (if dt.hour < 12 then "AM" else "PM")
  }

  // `strptime` turns each directive into a regular expression and requires the whole text
  // to match.  The tokens below are those expressions for the directives used here.

  /** `%m`: `1[0-2]|0[1-9]|[1-9]`. */
  function MonthToken(t: string): (r: Option<int>)
    ensures r.Some? ==> 1 <= r.value <= 12
  {
    if |t| == 2 && t[0] == '1' && '0' <= t[1] <= '2' then Some(10 + DigitValue(t[1]))
    else if |t| == 2 && t[0] == '0' && '1' <= t[1] <= '9' then Some(DigitValue(t[1]))
    else if |t| == 1 && '1' <= t[0] <= '9' then Some(DigitValue(t[0]))
    else None
  }

  /** `%d`: `3[01]|[12]\d|0[1-9]|[1-9]| [1-9]`. */
  function DayToken(t: string): (r: Option<int>)
    ensures r.Some? ==> 1 <= r.value <= 31
  {
    if |t| == 2 && t[0] == '3' && '0' <= t[1] <= '1' then Some(30 + DigitValue(t[1]))
    else if |t| == 2 && '1' <= t[0] <= '2' && IsDigit(t[1]) then Some(10 * DigitValue(t[0]) + DigitValue(t[1]))
    else if |t| == 2 && (t[0] == '0' || t[0] == ' ') && '1' <= t[1] <= '9' then Some(DigitValue(t[1]))
    else if |t| == 1 && '1' <= t[0] <= '9' then Some(DigitValue(t[0]))
    else None
  }

  /** `%H`: `2[0-3]|[0-1]\d|\d`. */
  function HourToken(t: string): (r: Option<int>)
    ensures r.Some? ==> 0 <= r.value <= 23
  {
    if |t| == 2 && t[0] == '2' && '0' <= t[1] <= '3' then Some(20 + DigitValue(t[1]))
    else if |t| == 2 && '0' <= t[0] <= '1' && IsDigit(t[1]) then Some(10 * DigitValue(t[0]) + DigitValue(t[1]))
    else if |t| == 1 && IsDigit(t[0]) then Some(DigitValue(t[0]))
    else None
  }

  /** `%M`: `[0-5]\d|\d`. */
  function MinuteToken(t: string): (r: Option<int>)
    ensures r.Some? ==> 0 <= r.value <= 59
  {
    if |t| == 2 && '0' <= t[0] <= '5' && IsDigit(t[1]) then Some(10 * DigitValue(t[0]) + DigitValue(t[1]))
    else if |t| == 1 && IsDigit(t[0]) then Some(DigitValue(t[0]))
    else None
  }

  /** Two leading-zero digits read back as the number they show. */
  lemma Pad2Tokens(n: nat)
    requires n < 100
    ensures 1 <= n <= 12 ==> MonthToken(Pad2(n)) == Some(n)
    ensures 1 <= n <= 31 ==> DayToken(Pad2(n)) == Some(n)
    ensures n <= 23 ==> HourToken(Pad2(n)) == Some(n)
    ensures n <= 59 ==> MinuteToken(Pad2(n)) == Some(n)
  {
  }

  /** The length of the day token: the regular expression prefers two characters when it can. */
  function DayLength(r: string): (n: nat)
    ensures n <= |r|
  {
    if |r| >= 2 && (r[0] == ' ' || IsDigit(r[1])) then 2 else if |r| >= 1 then 1 else 0
  }

  /** Year, month and day as the text shows them, and what follows the day. */
  datatype DatePrefix = DatePrefix(year: int, month: int, day: int, rest: string)

  /** The `%Y-%m-%d` part at the start of `s`. */
  function ParseDatePrefix(s: string): (r: Option<DatePrefix>)
    ensures r.Some? ==> 1 <= r.value.month <= 12 && 1 <= r.value.day <= 31 && 0 <= r.value.year <= 9999
  {
    if |s| < 5 || !AllDigits(s[..4]) || s[4] != '-' then None
    else
      var tail := s[5..];
      var j := Find(tail, '-');
      if j == -1 then None
      else
        var after := tail[j + 1..];
        var n := DayLength(after);
        match (MonthToken(tail[..j]), DayToken(after[..n]))
        case (Some(m), Some(d)) =>
          DigitsValueBound(s[..4]);
          Some(DatePrefix(DigitsValue(s[..4]), m, d, after[n..]))
        case _ => None
  }

  /** `datetime.strptime(s, "%Y-%m-%d")`; `None` stands for the `ValueError`. */
  function ParseDate(s: string): (r: Option<DateTime>)
    ensures r.Some? ==> r.value.Valid() && r.value.hour == 0 && r.value.minute == 0 && r.value.second == 0
  {
    match ParseDatePrefix(s)
    case None => None
    case Some(p) =>
      if p.rest == [] && ValidDate(p.year, p.month, p.day) then Some(DateTime(p.year, p.month, p.day, 0, 0, 0))
      else None
  }

  /** The number of leading whitespace characters. */
  function LeadingSpaces(s: string): (n: nat)
    ensures n <= |s|
    ensures forall i :: 0 <= i < n ==> IsSpace(s[i])
    ensures n < |s| ==> !IsSpace(s[n])
  {
    if s != [] && IsSpace(s[0]) then 1 + LeadingSpaces(s[1..]) else 0
  }

  /** What follows the day in `%Y-%m-%d %H:%M`: whitespace, then `%H:%M` to the end. */
  function ParseClockPart(rest: string): (r: Option<(int, int)>)
    ensures r.Some? ==> 0 <= r.value.0 <= 23 && 0 <= r.value.1 <= 59
  {
    var w := LeadingSpaces(rest);
    var hm := rest[w..];
    var k := Find(hm, ':');
    if w == 0 || k == -1 then None
    else
      match (HourToken(hm[..k]), MinuteToken(hm[k + 1..]))
      case (Some(h), Some(mi)) => Some((h, mi))
      case _ => None
  }

  /** `datetime.strptime(s, "%Y-%m-%d %H:%M")`: the space in the format matches any run of whitespace. */
  function ParseMinute(s: string): (r: Option<DateTime>)
    ensures r.Some? ==> r.value.Valid() && r.value.second == 0
  {
    match ParseDatePrefix(s)
    case None => None
    case Some(p) =>
      match ParseClockPart(p.rest)
      case Some((h, mi)) =>
        if ValidDate(p.year, p.month, p.day) then Some(DateTime(p.year, p.month, p.day, h, mi, 0)) else None
      case None => None
  }

  lemma YearTextPrefix(dt: DateTime, tail: string)
    requires dt.Valid() && 1000 <= dt.year
    ensures (YearText(dt.year) + tail)[..4] == YearText(dt.year)
  {
  }

  /** The date part of a formatted time reads back as that date, followed by the rest. */
  lemma DatePrefixRoundTrip(dt: DateTime, rest: string)
    requires dt.Valid() && 1000 <= dt.year
    requires rest == [] || !IsDigit(rest[0])
    ensures ParseDatePrefix(YearText(dt.year) + "-" + Pad2(dt.month) + "-" + Pad2(dt.day) + rest)
      == Some(DatePrefix(dt.year, dt.month, dt.day, rest))
  {
    Pad2Tokens(dt.month);
    Pad2Tokens(dt.day);
    DatePrefixOfParts(YearText(dt.year), Pad2(dt.month), Pad2(dt.day), rest, dt.month, dt.day);
  }

  /** Four digits, '-', a month token, '-', a two-character day token and the rest. */
  lemma DatePrefixOfParts(y: string, mm: string, dd: string, rest: string, m: int, d: int)
    requires |y| == 4 && AllDigits(y) && |mm| == 2 && IsDigit(mm[0]) && IsDigit(mm[1]) && |dd| == 2 && IsDigit(dd[1])
    requires MonthToken(mm) == Some(m) && DayToken(dd) == Some(d)
    requires rest == [] || !IsDigit(rest[0])
    ensures ParseDatePrefix(y + "-" + mm + "-" + dd + rest) == Some(DatePrefix(DigitsValue(y), m, d, rest))
  {
    var s := y + "-" + mm + "-" + dd + rest;
    assert s[..4] == y;
    var tail := s[5..];
    assert tail == mm + "-" + dd + rest;
    assert tail[2] == '-' && tail[..2] == mm;
    FindFirst(tail, '-', 2);
    var after := tail[3..];
    assert after == dd + rest;
    assert after[..2] == dd && after[2..] == rest;
  }

  /** `strptime(d.strftime("%Y-%m-%d"), "%Y-%m-%d")` gives back the day. */
  lemma ParseDateRoundTrip(dt: DateTime)
    requires dt.Valid() && 1000 <= dt.year
    ensures ParseDate(YearText(dt.year) + "-" + Pad2(dt.month) + "-" + Pad2(dt.day))
      == Some(dt.(hour := 0, minute := 0, second := 0))
  {
    DatePrefixRoundTrip(dt, "");
    assert YearText(dt.year) + "-" + Pad2(dt.month) + "-" + Pad2(dt.day) + ""
      == YearText(dt.year) + "-" + Pad2(dt.month) + "-" + Pad2(dt.day);
  }

  lemma ClockPartRoundTrip(h: int, mi: int)
    requires 0 <= h <= 23 && 0 <= mi <= 59
    ensures ParseClockPart(" " + Pad2(h) + ":" + Pad2(mi)) == Some((h, mi))
  {
    var rest := " " + Pad2(h) + ":" + Pad2(mi);
    assert LeadingSpaces(rest) == 1 by {
      assert rest[1..][0] == Pad2(h)[0];
    }
    var hm := rest[1..];
    assert hm == Pad2(h) + ":" + Pad2(mi);
    assert hm[2] == ':' && hm[..2] == Pad2(h) && hm[3..] == Pad2(mi);
    FindFirst(hm, ':', 2);
    Pad2Tokens(h);
    Pad2Tokens(mi);
  }

  /** `strptime(dt.strftime("%Y-%m-%d %H:%M"), "%Y-%m-%d %H:%M")` gives back `dt` to the minute. */
  lemma ParseMinuteRoundTrip(dt: DateTime)
    requires dt.Valid() && 1000 <= dt.year
    ensures ParseMinute(FormatMinute(dt)) == Some(dt.(second := 0))
  {
    var rest := " " + Pad2(dt.hour) + ":" + Pad2(dt.minute);
    assert FormatMinute(dt) == YearText(dt.year) + "-" + Pad2(dt.month) + "-" + Pad2(dt.day) + rest;
    DatePrefixRoundTrip(dt, rest);
    ClockPartRoundTrip(dt.hour, dt.minute);
  }

  /** The long date and the clock do not show seconds. */
  lemma DisplayIgnoresSeconds(dt: DateTime)
    requires dt.Valid()
    ensures FormatLongDate(dt.(second := 0)) == FormatLongDate(dt)
    ensures FormatClock(dt.(second := 0)) == FormatClock(dt)
  {
    var d := dt.(second := 0);
    assert d.year == dt.year && d.month == dt.month && d.day == dt.day && d.hour == dt.hour && d.minute == dt.minute;
  }
}
