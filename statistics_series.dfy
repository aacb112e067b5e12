/** The chart series of `src/utils/statistics.ts`: per-day counts over the
    current week and the current month. */
module StatisticsSeries {
  import opened Text
  import opened DateUtils
  import opened Records
  import opened Sequences

  /** One bar of a chart: its label and the number of records that day. */
  datatype DayCount = DayCount(caption: string, count: int)

  function CountOfDay(d: DayCount): int {
    d.count
  }

  /** The local day a feeding started on, a change happened on. */
  function FeedingDay(c: Clock): FeedingRecord -> Day {
    (r: FeedingRecord) => DayOfTime(c, r.startTime)
  }

  function DiaperDay(c: Clock): DiaperRecord -> Day {
    (r: DiaperRecord) => DayOfTime(c, r.time)
  }

  /** A key that tells days apart, as `toISODateString` does. */
  ghost predicate Injective(key: Day -> string) {
    forall a: Day, b: Day :: key(a) == key(b) ==> a == b
  }

  lemma DayKeysInjective()
    ensures Injective(DayKey)
  {
    forall a: Day, b: Day | DayKey(a) == DayKey(b) ensures a == b {
      DayKeyInjective(a, b);
    }
  }

  /** The records whose key is the key of `day`. */
  function SameKey<R>(key: Day -> string, dayOf: R -> Day, day: Day): R -> bool {
    (r: R) => key(dayOf(r)) == key(day)
  }

  /** The records of `day`. */
  function OnDay<R>(dayOf: R -> Day, day: Day): R -> bool {
    (r: R) => dayOf(r) == day
  }

  /** The records of any of `days`. */
  function InDays<R>(dayOf: R -> Day, days: seq<Day>): R -> bool {
    (r: R) => dayOf(r) in days
  }

  /** Matching keys is matching days. */
  lemma SameKeyCount<R>(records: seq<R>, key: Day -> string, dayOf: R -> Day, day: Day)
    requires Injective(key)
    ensures |Filter(records, SameKey(key, dayOf, day))| == Count(records, OnDay(dayOf, day))
  {
    CountFilter(records, SameKey(key, dayOf, day));
    CountSame(records, SameKey(key, dayOf, day), OnDay(dayOf, day));
  }

  /** `records.filter(r => key(r) === toISODateString(day)).length`: the
      number of records of `day`. */
  function DayTally<R>(records: seq<R>, key: Day -> string, dayOf: R -> Day, day: Day): (n: nat)
    requires Injective(key)
    ensures n == Count(records, OnDay(dayOf, day))
  {
    SameKeyCount(records, key, dayOf, day);
    |Filter(records, SameKey(key, dayOf, day))|
  }

  /** `days.map(day => ({ label, count: records.filter(same key).length }))`:
      one bar per day, counting that day's records. */
  function DaySeries<R>(records: seq<R>, key: Day -> string, dayOf: R -> Day, days: seq<Day>, labels: seq<string>)
    : (r: seq<DayCount>)
    requires Injective(key) && |labels| == |days|
    ensures |r| == |days|
    ensures forall i :: 0 <= i < |r| ==> r[i].caption == labels[i] && r[i].count == Count(records, OnDay(dayOf, days[i]))
  {
    if |days| == 0 then []
    else
      [DayCount(labels[0], DayTally(records, key, dayOf, days[0]))]
        + DaySeries(records, key, dayOf, days[1..], labels[1..])
  }

  /** The records of the first day and those of the other days, when the
      first day is not among the others, make up the records of all of them. */
  lemma InDaysSplit<R>(records: seq<R>, dayOf: R -> Day, days: seq<Day>)
    requires |days| > 0 && days[0] !in days[1..]
    ensures Count(records, OnDay(dayOf, days[0])) + Count(records, InDays(dayOf, days[1..]))
      == Count(records, InDays(dayOf, days))
  {
    assert forall d :: d in days <==> d == days[0] || d in days[1..] by {
      assert days == [days[0]] + days[1..];
    }
    CountEither(records, OnDay(dayOf, days[0]), InDays(dayOf, days[1..]), InDays(dayOf, days));
  }

  /** In a list of different days the first is not among the others. */
  lemma HeadNotInTail(days: seq<Day>)
    requires |days| > 0
    requires forall i, j :: 0 <= i < j < |days| ==> days[i] != days[j]
    ensures days[0] !in days[1..]
  {
    forall k | 0 <= k < |days[1..]| ensures days[1..][k] != days[0] {
      assert days[1..][k] == days[k + 1];
    }
  }

  /** Over days that are all different the bars add up to the records of
      those days, so never to more than all the records. */
  lemma {:induction false} SeriesTotal<R>(records: seq<R>, key: Day -> string, dayOf: R -> Day, days: seq<Day>,
                                         labels: seq<string>)
    requires Injective(key) && |labels| == |days|
    requires forall i, j :: 0 <= i < j < |days| ==> days[i] != days[j]
    ensures SumBy(DaySeries(records, key, dayOf, days, labels), CountOfDay) == Count(records, InDays(dayOf, days))
    ensures Count(records, InDays(dayOf, days)) <= |records|
  {
    var r := DaySeries(records, key, dayOf, days, labels);
    if |days| == 0 {
      assert Count(records, InDays(dayOf, days)) == 0;
    } else {
      var rest := DaySeries(records, key, dayOf, days[1..], labels[1..]);
      assert r[1..] == rest;
      SeriesTotal(records, key, dayOf, days[1..], labels[1..]);
      HeadNotInTail(days);
      InDaysSplit(records, dayOf, days);
    }
  }

  const DayNames: seq<string> := ["一", "二", "三", "四", "五", "六", "日"]

  /** `周一` through `周日`. */
  function WeekLabels(): (r: seq<string>)
    ensures |r| == 7 && forall i :: 0 <= i < 7 ==> r[i] == "周" + DayNames[i]
  {
    seq(7, i requires 0 <= i < 7 => "周" + DayNames[i])
  }

  /** `format(day, 'M/d')`: month and day of the month, unpadded. */
  function MonthDayLabel(n: Day): string {
    IntText(DateOf(n).month) + "/" + IntText(DateOf(n).day)
  }

  function MonthLabels(days: seq<Day>): (r: seq<string>)
    ensures |r| == |days| && forall i :: 0 <= i < |days| ==> r[i] == MonthDayLabel(days[i])
  {
    seq(|days|, i requires 0 <= i < |days| => MonthDayLabel(days[i]))
  }

  /** The bars of the week holding `today`: Monday first, each counting the
      records of its day. */
  lemma {:induction false} WeekSeries<R>(records: seq<R>, key: Day -> string, dayOf: R -> Day, today: Day)
    requires Injective(key)
    ensures var days := DaysInWeek(today);
      var r := DaySeries(records, key, dayOf, days, WeekLabels());
      && |r| == |days| == 7
      && (forall i :: 0 <= i < 7 ==>
            && r[i].caption == "周" + DayNames[i]
            && Weekday(days[i]) == i
            && r[i].count == Count(records, OnDay(dayOf, days[i])))
      && SumBy(r, CountOfDay) <= |records|
  {
    var days := DaysInWeek(today);
    DaysInWeekShape(today);
    SeriesTotal(records, key, dayOf, days, WeekLabels());
  }

  /** The bars of the month holding `today`: day 1 first, each labelled with
      its month and day and counting the records of its day. */
  lemma {:induction false} MonthSeries<R>(records: seq<R>, key: Day -> string, dayOf: R -> Day, today: Day)
    requires Injective(key)
    ensures var d := DateOf(today);
      var days := DaysOfMonth(today);
      var r := DaySeries(records, key, dayOf, days, MonthLabels(days));
      && |r| == |days| == DaysInMonth(d.year, d.month)
      && (forall i :: 0 <= i < |r| ==>
            && r[i].caption == IntText(d.month) + "/" + IntText(i + 1)
            && DateOf(days[i]) == CalendarDate(d.year, d.month, i + 1)
            && r[i].count == Count(records, OnDay(dayOf, days[i])))
      && SumBy(r, CountOfDay) <= |records|
  {
    var d := DateOf(today);
    var days := DaysOfMonth(today);
    var labels := MonthLabels(days);
    assert |days| == DaysInMonth(d.year, d.month);
    SeriesTotal(records, key, dayOf, days, labels);
    DaysOfMonthDates(today);
  }

  /** `getWeeklyFeedingData`: for Monday through Sunday of this week, the
      number of feedings started that day. */
  function WeeklyFeedingData(records: seq<FeedingRecord>, now: Timestamp, c: Clock): (r: seq<DayCount>)
    ensures |r| == 7
    ensures forall i :: 0 <= i < 7 ==>
      && r[i].caption == "周" + DayNames[i]
      && Weekday(DaysInWeek(c.localDay(now))[i]) == i
      && r[i].count == Count(records, OnDay(FeedingDay(c), DaysInWeek(c.localDay(now))[i]))
    ensures SumBy(r, CountOfDay) <= |records|
  {
    DayKeysInjective();
    WeekSeries(records, DayKey, FeedingDay(c), c.localDay(now));
    DaySeries(records, DayKey, FeedingDay(c), DaysInWeek(c.localDay(now)), WeekLabels())
  }

  /** `getWeeklyDiaperData`: the same for diaper changes. */
  function WeeklyDiaperData(records: seq<DiaperRecord>, now: Timestamp, c: Clock): (r: seq<DayCount>)
    ensures |r| == 7
    ensures forall i :: 0 <= i < 7 ==>
      && r[i].caption == "周" + DayNames[i]
      && Weekday(DaysInWeek(c.localDay(now))[i]) == i
      && r[i].count == Count(records, OnDay(DiaperDay(c), DaysInWeek(c.localDay(now))[i]))
    ensures SumBy(r, CountOfDay) <= |records|
  {
    DayKeysInjective();
    WeekSeries(records, DayKey, DiaperDay(c), c.localDay(now));
    DaySeries(records, DayKey, DiaperDay(c), DaysInWeek(c.localDay(now)), WeekLabels())
  }

  /** `getMonthlyFeedingData`: for each day of this month, labelled `M/d`,
      the number of feedings started that day. */
  function MonthlyFeedingData(records: seq<FeedingRecord>, now: Timestamp, c: Clock): (r: seq<DayCount>)
    ensures var d := DateOf(c.localDay(now));
      && |r| == DaysInMonth(d.year, d.month)
      && (forall i :: 0 <= i < |r| ==>
            && r[i].caption == IntText(d.month) + "/" + IntText(i + 1)
            && DateOf(DaysOfMonth(c.localDay(now))[i]) == CalendarDate(d.year, d.month, i + 1)
            && r[i].count == Count(records, OnDay(FeedingDay(c), DaysOfMonth(c.localDay(now))[i])))
      && SumBy(r, CountOfDay) <= |records|
  {
    var today := c.localDay(now);
    DayKeysInjective();
    MonthSeries(records, DayKey, FeedingDay(c), today);
    DaySeries(records, DayKey, FeedingDay(c), DaysOfMonth(today), MonthLabels(DaysOfMonth(today)))
  }

  /** `getMonthlyDiaperData`: the same for diaper changes. */
  function MonthlyDiaperData(records: seq<DiaperRecord>, now: Timestamp, c: Clock): (r: seq<DayCount>)
    ensures var d := DateOf(c.localDay(now));
      && |r| == DaysInMonth(d.year, d.month)
      && (forall i :: 0 <= i < |r| ==>
            && r[i].caption == IntText(d.month) + "/" + IntText(i + 1)
            && DateOf(DaysOfMonth(c.localDay(now))[i]) == CalendarDate(d.year, d.month, i + 1)
            && r[i].count == Count(records, OnDay(DiaperDay(c), DaysOfMonth(c.localDay(now))[i])))
      && SumBy(r, CountOfDay) <= |records|
  {
    var today := c.localDay(now);
    DayKeysInjective();
    MonthSeries(records, DayKey, DiaperDay(c), today);
    DaySeries(records, DayKey, DiaperDay(c), DaysOfMonth(today), MonthLabels(DaysOfMonth(today)))
  }
}
