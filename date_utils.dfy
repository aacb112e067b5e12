/** The calendar helpers of `src/utils/date.ts`: the Monday-start week and
    the whole month around a day, the `yyyy-MM-dd` key, and `formatDuration`.
    Days are dates of the proleptic Gregorian calendar, which is what
    date-fns computes with; `DayNumber` counts them (Rata Die numbering:
    0001-01-01, a Monday, is day 1). */
module DateUtils {
  import opened Wrappers
  import opened Text

  /** Milliseconds since 1970-01-01T00:00:00Z, what `Date.getTime()` returns. */
  type Timestamp = int

  /** A day of the local calendar. */
  datatype CalendarDate = CalendarDate(year: int, month: nat, day: nat)

  predicate IsLeapYear(y: int) {
    y % 4 == 0 && (y % 100 != 0 || y % 400 == 0)
  }

  function DaysInMonth(year: int, month: nat): (n: nat)
    requires 1 <= month <= 12
    ensures 28 <= n <= 31
  {
    if month == 2 then (if IsLeapYear(year) then 29 else 28)
    else if month == 4 || month == 6 || month == 9 || month == 11 then 30
    else 31
  }

  /** Month 1..12 and a day that month has. */
  predicate WellFormed(d: CalendarDate) {
    1 <= d.month <= 12 && 1 <= d.day <= DaysInMonth(d.year, d.month)
  }

  /** A well-formed date of the Common Era. */
  predicate ValidDate(d: CalendarDate) {
    d.year >= 1 && WellFormed(d)
  }

  const FirstDay := CalendarDate(1, 1, 1)

  function NextDay(d: CalendarDate): (n: CalendarDate)
    requires WellFormed(d)
    ensures WellFormed(n)
    ensures ValidDate(d) ==> ValidDate(n)
  {
    if d.day < DaysInMonth(d.year, d.month) then CalendarDate(d.year, d.month, d.day + 1)
    else if d.month < 12 then CalendarDate(d.year, d.month + 1, 1)
    else CalendarDate(d.year + 1, 1, 1)
  }

  function PrevDay(d: CalendarDate): (p: CalendarDate)
    requires ValidDate(d) && d != FirstDay
    ensures ValidDate(p)
  {
    if d.day > 1 then CalendarDate(d.year, d.month, d.day - 1)
    else if d.month > 1 then CalendarDate(d.year, d.month - 1, DaysInMonth(d.year, d.month - 1))
    else CalendarDate(d.year - 1, 12, 31)
  }

  lemma NextOfPrev(d: CalendarDate)
    requires ValidDate(d) && d != FirstDay
    ensures NextDay(PrevDay(d)) == d
  {
  }

  // ---------------------------------------------------------------------------
  // day numbers

  function DaysInYear(year: int): nat {
    if IsLeapYear(year) then 366 else 365
  }

  /** Days of the year before the first of `month`. */
  function DaysBeforeMonth(year: int, month: nat): nat
    requires 1 <= month <= 13
  {
    if month == 1 then 0 else DaysBeforeMonth(year, month - 1) + DaysInMonth(year, month - 1)
  }

  /** Days from 0001-01-01 to 1 January of `year` (year 0, a leap year, is
      the one before 1). */
  function DaysBeforeYear(year: int): (n: int)
    requires year >= 0
    ensures year >= 1 ==> n >= 0
    ensures year >= 2 ==> n >= 365
  {
    if year == 0 then -366 else DaysBeforeYear(year - 1) + DaysInYear(year - 1)
  }

  /** The Rata Die number of a day: 0001-01-01 is day 1. */
  function DayNumber(d: CalendarDate): int
    requires d.year >= 0 && 1 <= d.month <= 12
  {
    DaysBeforeYear(d.year) + DaysBeforeMonth(d.year, d.month) + d.day
  }

  /** The twelve months make up the year. */
  lemma WholeYear(year: int)
    ensures DaysBeforeMonth(year, 13) == DaysInYear(year)
  {
    assert DaysBeforeMonth(year, 2) == 31;
    assert DaysBeforeMonth(year, 3) == 31 + DaysInMonth(year, 2);
    assert DaysBeforeMonth(year, 4) == DaysBeforeMonth(year, 3) + 31;
    assert DaysBeforeMonth(year, 5) == DaysBeforeMonth(year, 3) + 61;
    assert DaysBeforeMonth(year, 6) == DaysBeforeMonth(year, 3) + 92;
    assert DaysBeforeMonth(year, 7) == DaysBeforeMonth(year, 3) + 122;
    assert DaysBeforeMonth(year, 8) == DaysBeforeMonth(year, 3) + 153;
    assert DaysBeforeMonth(year, 9) == DaysBeforeMonth(year, 3) + 184;
    assert DaysBeforeMonth(year, 10) == DaysBeforeMonth(year, 3) + 214;
    assert DaysBeforeMonth(year, 11) == DaysBeforeMonth(year, 3) + 245;
    assert DaysBeforeMonth(year, 12) == DaysBeforeMonth(year, 3) + 275;
  }

  /** Consecutive days have consecutive numbers. */
  lemma NextDayNumber(d: CalendarDate)
    requires WellFormed(d) && d.year >= 0
    ensures DayNumber(NextDay(d)) == DayNumber(d) + 1
  {
    if d.day == DaysInMonth(d.year, d.month) && d.month == 12 {
      WholeYear(d.year);
    }
  }

  /** Day numbers of the Common Era start at 1, with its first day. */
  lemma DayNumberFloor(d: CalendarDate)
    requires ValidDate(d)
    ensures DayNumber(d) >= 1
    ensures DayNumber(d) == 1 <==> d == FirstDay
  {
    if d.month > 1 {
      assert DaysBeforeMonth(d.year, d.month) >= DaysInMonth(d.year, d.month - 1);
    }
  }

  // ---------------------------------------------------------------------------
  // days

  /** A local calendar day, by its day number. */
  type Day = n: int | n >= 1 witness 1

  /** The calendar date of a day: day 1 is 0001-01-01 and each further day
      is the one after the previous. */
  function DateOf(n: Day): (d: CalendarDate)
    ensures ValidDate(d)
  {
    if n == 1 then FirstDay else NextDay(DateOf(n - 1))
  }

  /** Day `n` has day number `n`. */
  lemma {:induction false} DayNumberOfDate(n: Day)
    ensures DayNumber(DateOf(n)) == n
  {
    if n > 1 {
      DayNumberOfDate(n - 1);
      NextDayNumber(DateOf(n - 1));
    }
  }

  /** The day after day `n` is day `n + 1`. */
  lemma DateOfNext(n: Day)
    ensures DateOf(n + 1) == NextDay(DateOf(n))
  {
  }

  /** Every Common Era date is the date of its own day number, so `DateOf`
      and `DayNumber` are inverse. */
  lemma {:induction false} DateOfDayNumber(d: CalendarDate)
    requires ValidDate(d)
    ensures DayNumber(d) >= 1 && DateOf(DayNumber(d)) == d
    decreases DayNumber(d)
  {
    DayNumberFloor(d);
    if d != FirstDay {
      var p := PrevDay(d);
      NextOfPrev(d);
      NextDayNumber(p);
      DateOfDayNumber(p);
      var k := DayNumber(p);
      assert DayNumber(d) == k + 1;
      DateOfNext(k);
    }
  }

  /** 0 for Monday up to 6 for Sunday (0001-01-01 was a Monday). */
  function Weekday(n: Day): (w: int)
    ensures 0 <= w < 7 && w <= n - 1
  {
    (n - 1) % 7
  }

  /** Adding `j < 7` to a multiple of 7 gives remainder `j`. */
  lemma WeekdayStep(x: int, y: int, j: int)
    requires x >= 0 && 0 <= j < 7 && y == x - x % 7 + j
    ensures y % 7 == j
  {
    assert x - x % 7 == 7 * (x / 7);
  }

  // ---------------------------------------------------------------------------
  // weeks and months

  /** `eachDayOfInterval({ start, end })`: the days from `start` through `end`. */
  function EachDay(start: Day, end: Day): (r: seq<Day>)
    requires start <= end
    ensures |r| == end - start + 1
    ensures forall i :: 0 <= i < |r| ==> r[i] == start + i
  {
    seq(end - start + 1, i requires 0 <= i <= end - start => start + i)
  }

  /** `getWeekStart`: the Monday on or before `n` (`weekStartsOn: 1`). */
  function WeekStart(n: Day): (r: Day)
    ensures n - 6 <= r <= n
  {
    n - Weekday(n)
  }

  /** `getWeekEnd`: the Sunday on or after `n`. */
  function WeekEnd(n: Day): (r: Day)
    ensures n <= r <= n + 6
  {
    WeekStart(n) + 6
  }

  /** `getDaysInWeek`: the days from `getWeekStart` through `getWeekEnd`. */
  function DaysInWeek(n: Day): seq<Day> {
    EachDay(WeekStart(n), WeekEnd(n))
  }

  /** The week starts on a Monday and ends on a Sunday. */
  lemma WeekBounds(n: Day)
    ensures Weekday(WeekStart(n)) == 0 && Weekday(WeekEnd(n)) == 6
  {
    WeekdayStep(n - 1, WeekStart(n) - 1, 0);
    WeekdayStep(n - 1, WeekEnd(n) - 1, 6);
  }

  /** The week is seven consecutive days, Monday to Sunday, and holds `n` at
      its weekday. */
  lemma DaysInWeekShape(n: Day)
    ensures var r := DaysInWeek(n);
      && |r| == 7
      && (forall i :: 0 <= i < 7 ==> Weekday(r[i]) == i)
      && (forall i :: 0 <= i < 6 ==> r[i + 1] == r[i] + 1)
      && r[Weekday(n)] == n
  {
    var r := DaysInWeek(n);
    forall i | 0 <= i < 7 ensures Weekday(r[i]) == i {
      WeekdayStep(n - 1, r[i] as int - 1, i);
    }
  }

  /** `getMonthStart`: the first of the month holding `n`. */
  function MonthStart(n: Day): (r: Day)
    ensures r <= n
  {
    DayNumberOfDate(n);
    DayNumberFloor(CalendarDate(DateOf(n).year, DateOf(n).month, 1));
    n - (DateOf(n).day - 1)
  }

  /** `getMonthEnd`: the last day of the month holding `n`. */
  function MonthEnd(n: Day): (r: Day)
    ensures r >= n
  {
    var d := DateOf(n);
    MonthStart(n) + DaysInMonth(d.year, d.month) - 1
  }

  /** `getDaysInMonth`: the days from `getMonthStart` through `getMonthEnd`. */
  function DaysOfMonth(n: Day): seq<Day> {
    EachDay(MonthStart(n), MonthEnd(n))
  }

  /** Within a month, day numbers go with the day of the month. */
  lemma SameMonthNumber(d: CalendarDate, day: nat)
    requires ValidDate(d) && 1 <= day <= DaysInMonth(d.year, d.month)
    ensures ValidDate(CalendarDate(d.year, d.month, day))
    ensures DayNumber(CalendarDate(d.year, d.month, day)) == DayNumber(d) - d.day + day
  {
  }

  /** Day `i + 1` of the month of `n` is numbered `i` after its first. */
  lemma MonthStartNumber(n: Day, i: nat)
    requires i < DaysInMonth(DateOf(n).year, DateOf(n).month)
    ensures ValidDate(CalendarDate(DateOf(n).year, DateOf(n).month, i + 1))
    ensures DayNumber(CalendarDate(DateOf(n).year, DateOf(n).month, i + 1)) == MonthStart(n) + i
  {
    DayNumberOfDate(n);
    SameMonthNumber(DateOf(n), i + 1);
  }

  /** The day numbered like a Common Era date has that date. */
  lemma DateOfNumbered(m: Day, c: CalendarDate)
    requires ValidDate(c) && DayNumber(c) == m
    ensures DateOf(m) == c
  {
    DateOfDayNumber(c);
  }

  /** Day `i + 1` of the month of `n` is `i` days after its first. */
  lemma DayOfMonthOf(n: Day, i: nat)
    requires i < DaysInMonth(DateOf(n).year, DateOf(n).month)
    ensures DateOf(MonthStart(n) + i) == CalendarDate(DateOf(n).year, DateOf(n).month, i + 1)
  {
    MonthStartNumber(n, i);
    DateOfNumbered(MonthStart(n) + i, CalendarDate(DateOf(n).year, DateOf(n).month, i + 1));
  }

  /** The month is 28 to 31 consecutive days and holds `n` at its day of
      the month. */
  lemma DaysOfMonthShape(n: Day)
    ensures var d := DateOf(n);
      var r := DaysOfMonth(n);
      && |r| == DaysInMonth(d.year, d.month) && 28 <= |r| <= 31
      && (forall i :: 0 <= i < |r| - 1 ==> r[i + 1] == r[i] + 1)
      && r[d.day - 1] == n
  {
  }

  /** The month is its days 1, 2, ... in order. */
  lemma DaysOfMonthDates(n: Day)
    ensures var d := DateOf(n);
      var r := DaysOfMonth(n);
      forall i :: 0 <= i < |r| ==> DateOf(r[i]) == CalendarDate(d.year, d.month, i + 1)
  {
    var d := DateOf(n);
    var r := DaysOfMonth(n);
    assert |r| == DaysInMonth(d.year, d.month);
    forall i | 0 <= i < |r| ensures DateOf(r[i]) == CalendarDate(d.year, d.month, i + 1) {
      assert r[i] == MonthStart(n) + i;
      DayOfMonthOf(n, i);
    }
  }

  /** The day after the month's last is in another month. */
  lemma MonthEndIsLast(n: Day)
    ensures DateOf(MonthEnd(n) + 1).month != DateOf(n).month
  {
    var d := DateOf(n);
    DayOfMonthOf(n, DaysInMonth(d.year, d.month) - 1);
    DateOfNext(MonthEnd(n));
  }

  // ---------------------------------------------------------------------------
  // the yyyy-MM-dd key

  /** The year as date-fns' `yyyy` writes it: the era year (so 1 BC is 1),
      padded to four digits. */
  function YearText(year: int): (s: string)
    ensures |s| >= 4 && AllDigits(s)
  {
    ZeroPad(DecimalText(if year >= 1 then year else 1 - year), 4)
  }

  function TwoDigits(n: nat): (s: string)
    ensures |s| >= 2 && AllDigits(s)
    ensures n < 100 ==> |s| == 2
  {
    if n < 100 then DecimalTextShort(n); ZeroPad(DecimalText(n), 2)
    else ZeroPad(DecimalText(n), 2)
  }

  /** `toISODateString`: `format(date, 'yyyy-MM-dd')`. */
  function ToISODateString(d: CalendarDate): string {
    YearText(d.year) + "-" + TwoDigits(d.month) + "-" + TwoDigits(d.day)
  }

  lemma DecimalTextShort(n: nat)
    requires n < 100
    ensures |DecimalText(n)| <= 2
  {
  }

  lemma PaddedValue(n: nat, width: nat)
    ensures AllDigits(ZeroPad(DecimalText(n), width))
    ensures DigitsValue(ZeroPad(DecimalText(n), width)) == n
  {
    var t := DecimalText(n);
    LeadingZerosValue(|ZeroPad(t, width)| - |t|, t);
    DecimalTextRoundTrip(n);
  }

  /** A year of the Common Era up to 9999 is written with exactly four digits. */
  lemma FourDigitYear(year: int)
    requires 1 <= year <= 9999
    ensures |YearText(year)| == 4
  {
    if year >= 10 {
      assert |DecimalText(year)| == |DecimalText(year / 10)| + 1;
      if year / 10 >= 10 {
        assert |DecimalText(year / 10)| == |DecimalText(year / 100)| + 1;
      }
    }
  }

  /** For a Common Era date within four-digit years the key is exactly
      `dddd-dd-dd`. */
  lemma ISODateShape(d: CalendarDate)
    requires ValidDate(d) && d.year <= 9999
    ensures var s := ToISODateString(d);
      |s| == 10 && s[4] == '-' && s[7] == '-'
      && AllDigits(s[..4]) && AllDigits(s[5..7]) && AllDigits(s[8..])
  {
    FourDigitYear(d.year);
    KeyParts(YearText(d.year), TwoDigits(d.month), TwoDigits(d.day));
  }

  /** Reads a `yyyy-MM-dd` key back (the date-only form `new Date(s)` accepts). */
  function ParseISODate(s: string): Option<CalendarDate> {
    if |s| == 10 && s[4] == '-' && s[7] == '-'
       && AllDigits(s[..4]) && AllDigits(s[5..7]) && AllDigits(s[8..])
    then Some(CalendarDate(DigitsValue(s[..4]), DigitsValue(s[5..7]), DigitsValue(s[8..])))
    else None
  }

  lemma {:induction false} ISODateRoundTrip(d: CalendarDate)
    requires ValidDate(d) && d.year <= 9999
    ensures ParseISODate(ToISODateString(d)) == Some(d)
  {
    ISODateShape(d);
    var s := ToISODateString(d);
    assert s[..4] == YearText(d.year);
    assert s[5..7] == TwoDigits(d.month);
    assert s[8..] == TwoDigits(d.day);
    PaddedValue(d.year, 4);
    PaddedValue(d.month, 2);
    PaddedValue(d.day, 2);
  }

  /** A key made of a year text and two two-character texts splits back
      into them, counting from its end. */
  lemma KeyParts(y: string, m: string, dd: string)
    requires |m| == 2 && |dd| == 2
    ensures var s := y + "-" + m + "-" + dd; var n := |s|;
      && n == |y| + 6 && s[n - 6] == '-' && s[n - 3] == '-'
      && s[..n - 6] == y && s[n - 5..n - 3] == m && s[n - 2..] == dd
  {
  }

  /** Different Common Era days get different keys, in any year. */
  lemma {:induction false} ISODateInjective(a: CalendarDate, b: CalendarDate)
    requires ValidDate(a) && ValidDate(b)
    requires ToISODateString(a) == ToISODateString(b)
    ensures a == b
  {
    KeyParts(YearText(a.year), TwoDigits(a.month), TwoDigits(a.day));
    KeyParts(YearText(b.year), TwoDigits(b.month), TwoDigits(b.day));
    assert YearText(a.year) == YearText(b.year);
    assert TwoDigits(a.month) == TwoDigits(b.month);
    assert TwoDigits(a.day) == TwoDigits(b.day);
    PaddedValue(a.year, 4);
    PaddedValue(b.year, 4);
    PaddedValue(a.month, 2);
    PaddedValue(b.month, 2);
    PaddedValue(a.day, 2);
    PaddedValue(b.day, 2);
  }

  /** `new Date(key).getTime()` for a `yyyy-MM-dd` key, counted in days
      rather than milliseconds, which orders keys the same way; a text that
      names no date ranks 0. */
  function DateValue(key: string): int {
    match ParseISODate(key)
    case Some(d) => if 1 <= d.month <= 12 then DayNumber(d) else 0
    case None => 0
  }

  /** Within four-digit years a key ranks as its day, so sorting the daily
      buckets by it sorts them by date. */
  lemma DateValueOfKey(d: CalendarDate)
    requires ValidDate(d) && d.year <= 9999
    ensures DateValue(ToISODateString(d)) == DayNumber(d)
  {
    ISODateRoundTrip(d);
  }

  // ---------------------------------------------------------------------------
  // formatDuration

  /** `formatDuration(minutes)`: `"m 分钟"` below an hour, else hours and the
      remaining minutes, the minutes part dropped when it is zero. */
  function FormatDuration(minutes: int): string {
    if minutes < 60 then IntText(minutes) + " 分钟"
    else
      var hours := minutes / 60;
      var mins := minutes % 60;
      if mins > 0 then IntText(hours) + " 小时 " + IntText(mins) + " 分钟"
      else IntText(hours) + " 小时"
  }

  /** The hours/minutes split of an hour or more is exact. */
  lemma DurationSplit(minutes: int)
    requires minutes >= 60
    ensures minutes / 60 >= 1 && 0 <= minutes % 60 < 60
    ensures (minutes / 60) * 60 + minutes % 60 == minutes
    ensures minutes % 60 == 0 ==> FormatDuration(minutes) == IntText(minutes / 60) + " 小时"
    ensures minutes % 60 != 0 ==>
      FormatDuration(minutes) == IntText(minutes / 60) + " 小时 " + IntText(minutes % 60) + " 分钟"
  {
  }

  /** Reads a displayed duration back into minutes. */
  function DurationMinutes(text: string): Option<int> {
    WordsMinutes(Split(text, ' '))
  }

  function WordsMinutes(words: seq<string>): Option<int> {
    if |words| == 2 && words[1] == "分钟" then ParseInt(words[0])
    else if |words| == 2 && words[1] == "小时" then
      match ParseInt(words[0])
      case Some(h) => Some(h * 60)
      case None => None
    else if |words| == 4 && words[1] == "小时" && words[3] == "分钟" then
      match ParseInt(words[0])
      case Some(h) =>
        (match ParseInt(words[2])
         case Some(m) => Some(h * 60 + m)
         case None => None)
      case None => None
    else None
  }

  lemma IntTextNoSpace(i: int)
    ensures ' ' !in IntText(i)
  {
    var t := IntText(i);
    var d := DecimalText(if i < 0 then -i else i);
    assert forall k :: 0 <= k < |d| ==> IsDigit(d[k]);
    assert forall k :: 0 <= k < |t| ==> t[k] == '-' || IsDigit(t[k]);
  }

  /** Every duration reads back as the minutes it was made from, so distinct
      durations are displayed differently. */
  lemma FormatDurationRoundTrip(minutes: int)
    ensures DurationMinutes(FormatDuration(minutes)) == Some(minutes)
  {
    if minutes < 60 {
      MinutesRoundTrip(minutes);
    } else if minutes % 60 > 0 {
      DurationSplit(minutes);
      HoursMinutesRoundTrip(minutes / 60, minutes % 60);
    } else {
      DurationSplit(minutes);
      HoursRoundTrip(minutes / 60);
    }
  }

  lemma MinutesRoundTrip(m: int)
    ensures DurationMinutes(IntText(m) + " 分钟") == Some(m)
  {
    var parts := [IntText(m), "分钟"];
    assert IntText(m) + " 分钟" == Join(parts, ' ');
    IntTextNoSpace(m);
    SplitJoin(parts, ' ');
    MinutesWords(m);
  }

  lemma MinutesWords(m: int)
    ensures WordsMinutes([IntText(m), "分钟"]) == Some(m)
  {
    ParseIntOfIntText(m);
  }

  lemma HoursRoundTrip(h: int)
    ensures DurationMinutes(IntText(h) + " 小时") == Some(h * 60)
  {
    var parts := [IntText(h), "小时"];
    assert IntText(h) + " 小时" == Join(parts, ' ');
    IntTextNoSpace(h);
    SplitJoin(parts, ' ');
    HoursWords(h);
  }

  lemma HoursWords(h: int)
    ensures WordsMinutes([IntText(h), "小时"]) == Some(h * 60)
  {
    ParseIntOfIntText(h);
  }

  lemma HoursMinutesRoundTrip(h: int, m: int)
    ensures DurationMinutes(IntText(h) + " 小时 " + IntText(m) + " 分钟") == Some(h * 60 + m)
  {
    var parts := [IntText(h), "小时", IntText(m), "分钟"];
    HoursMinutesJoin(h, m);
    IntTextNoSpace(h);
    IntTextNoSpace(m);
    assert forall i :: 0 <= i < |parts| ==> ' ' !in parts[i];
    SplitJoin(parts, ' ');
    HoursMinutesWords(h, m);
  }

  lemma HoursMinutesWords(h: int, m: int)
    ensures WordsMinutes([IntText(h), "小时", IntText(m), "分钟"]) == Some(h * 60 + m)
  {
    ParseIntOfIntText(h);
    ParseIntOfIntText(m);
    HoursAndMinutes([IntText(h), "小时", IntText(m), "分钟"], h, m);
  }

  /** Four words, hours then minutes, read as their total in minutes. */
  lemma HoursAndMinutes(words: seq<string>, h: int, m: int)
    requires |words| == 4 && words[1] == "小时" && words[3] == "分钟"
    requires ParseInt(words[0]) == Some(h) && ParseInt(words[2]) == Some(m)
    ensures WordsMinutes(words) == Some(h * 60 + m)
  {
  }

  lemma HoursMinutesJoin(h: int, m: int)
    ensures IntText(h) + " 小时 " + IntText(m) + " 分钟" == Join([IntText(h), "小时", IntText(m), "分钟"], ' ')
  {
    var parts := [IntText(h), "小时", IntText(m), "分钟"];
    assert parts[1..] == ["小时", IntText(m), "分钟"];
    assert parts[2..] == [IntText(m), "分钟"];
    assert parts[3..] == ["分钟"];
    assert Join(parts[3..], ' ') == "分钟";
    assert Join(parts[2..], ' ') == IntText(m) + [' '] + "分钟";
    assert Join(parts[1..], ' ') == "小时" + [' '] + (IntText(m) + [' '] + "分钟");
    assert Join(parts, ' ') == IntText(h) + [' '] + ("小时" + [' '] + (IntText(m) + [' '] + "分钟"));
  }
}
