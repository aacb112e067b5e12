/** The summaries of `src/utils/statistics.ts`: per-day buckets, feeding and
    diaper totals, and the weekly and monthly count series. */
module Statistics {
  import opened Wrappers
  import opened Text
  import opened DateUtils
  import opened Records
  import opened Sequences

  /** `DailyStats`: one day's tallies, keyed by its `yyyy-MM-dd` date. */
  datatype DailyStats = DailyStats(
    date: string, feedingCount: int, totalAmount: real, totalDuration: int,
    diaperCount: int, peeCount: int, poopCount: int)

  /** The bucket a day starts from. */
  function EmptyDay(date: string): DailyStats {
    DailyStats(date, 0, 0.0, 0, 0, 0, 0)
  }

  /** `r.amount || 0` (an absent amount counts as nothing). */
  function AmountOrZero(amount: Option<real>): real {
    amount.GetOr(0.0)
  }

  /** `r.duration || 0`. */
  function DurationOrZero(duration: Option<int>): int {
    duration.GetOr(0)
  }

  /** One feeding added to its day's bucket. */
  function AddFeeding(b: DailyStats, r: FeedingRecord): DailyStats {
    b.(feedingCount := b.feedingCount + 1,
       totalAmount := b.totalAmount + AmountOrZero(r.amount),
       totalDuration := b.totalDuration + DurationOrZero(r.duration))
  }

  /** One diaper change added to its day's bucket: a `both` change counts as
      a pee and as a poop. */
  function AddDiaper(b: DailyStats, r: DiaperRecord): DailyStats {
    b.(diaperCount := b.diaperCount + 1,
       peeCount := b.peeCount + (if r.kind == Poop then 0 else 1),
       poopCount := b.poopCount + (if r.kind == Pee then 0 else 1))
  }

  function BucketDate(b: DailyStats): string {
    b.date
  }

  function OnDate(date: string): DailyStats -> bool {
    (b: DailyStats) => b.date == date
  }

  /** The records of one date key. */
  function KeyIs<R>(key: R -> string, date: string): R -> bool {
    (r: R) => key(r) == date
  }

  /** `statsMap.get(date) || {...}` then `statsMap.set(date, ...)`: the
      record lands in its date's bucket, a new bucket going last (a `Map`
      lists its keys in insertion order). */
  function Tally<R>(buckets: seq<DailyStats>, date: string, r: R, add: (DailyStats, R) -> DailyStats): seq<DailyStats> {
    var j := FindIndex(buckets, OnDate(date));
    if j < 0 then buckets + [add(EmptyDay(date), r)] else buckets[j := add(buckets[j], r)]
  }

  /** The buckets after tallying every record in order. */
  function Buckets<R>(rs: seq<R>, key: R -> string, add: (DailyStats, R) -> DailyStats): seq<DailyStats>
    decreases |rs|
  {
    if |rs| == 0 then []
    else
      var n := |rs| - 1;
      Tally(Buckets(rs[..n], key, add), key(rs[n]), rs[n], add)
  }

  /** Adding a record never moves a bucket to another date. */
  ghost predicate KeepsDate<R(!new)>(add: (DailyStats, R) -> DailyStats) {
    forall b: DailyStats, r: R :: add(b, r).date == b.date
  }

  /** `count` goes up by one with each record added. */
  ghost predicate Counts<R(!new)>(add: (DailyStats, R) -> DailyStats, count: DailyStats -> int) {
    && (forall b: DailyStats, r: R :: count(add(b, r)) == count(b) + 1)
    && (forall d :: count(EmptyDay(d)) == 0)
  }

  /** Tallying one more record extends the buckets of the records before it. */
  lemma BucketsStep<R>(rs: seq<R>, i: nat, key: R -> string, add: (DailyStats, R) -> DailyStats)
    requires i < |rs|
    ensures Buckets(rs[..i + 1], key, add) == Tally(Buckets(rs[..i], key, add), key(rs[i]), rs[i], add)
  {
    assert rs[..i + 1][..i] == rs[..i];
  }

  /** There is one bucket per date key, and every record's key has one. */
  lemma {:induction false} BucketsDistinct<R(!new)>(rs: seq<R>, key: R -> string, add: (DailyStats, R) -> DailyStats)
    requires KeepsDate(add)
    ensures DistinctBy(Buckets(rs, key, add), BucketDate)
    ensures forall i :: 0 <= i < |rs| ==>
      exists k :: 0 <= k < |Buckets(rs, key, add)| && Buckets(rs, key, add)[k].date == key(rs[i])
    decreases |rs|
  {
    if |rs| > 0 {
      var n := |rs| - 1;
      var before := Buckets(rs[..n], key, add);
      BucketsDistinct(rs[..n], key, add);
      var after := Buckets(rs, key, add);
      var j := FindIndex(before, OnDate(key(rs[n])));
      assert after == Tally(before, key(rs[n]), rs[n], add);
      forall k | 0 <= k < |before| ensures after[k].date == before[k].date {
      }
      forall i | 0 <= i < |rs| ensures exists k :: 0 <= k < |after| && after[k].date == key(rs[i]) {
        if i < n {
          assert rs[i] == rs[..n][i];
          var k :| 0 <= k < |before| && before[k].date == key(rs[..n][i]);
          assert after[k].date == key(rs[i]);
        } else if j < 0 {
          assert after[|before|].date == key(rs[i]);
        } else {
          assert after[j].date == key(rs[i]);
        }
      }
    }
  }

  /** Each bucket counts exactly the records of its date. */
  ghost predicate CountsRecords<R>(buckets: seq<DailyStats>, rs: seq<R>, key: R -> string, count: DailyStats -> int) {
    forall k :: 0 <= k < |buckets| ==> count(buckets[k]) == Count(rs, KeyIs(key, buckets[k].date))
  }

  lemma {:induction false} BucketCounts<R(!new)>(rs: seq<R>, key: R -> string, add: (DailyStats, R) -> DailyStats,
                                                count: DailyStats -> int)
    requires KeepsDate(add) && Counts(add, count)
    ensures CountsRecords(Buckets(rs, key, add), rs, key, count)
    decreases |rs|
  {
    if |rs| > 0 {
      var n := |rs| - 1;
      BucketCounts(rs[..n], key, add, count);
      BucketsDistinct(rs[..n], key, add);
      TallyCounts(Buckets(rs[..n], key, add), rs[..n], rs[n], key, add, count);
      SplitLast(rs);
    }
  }

  /** One tally step keeps every bucket's count equal to its records. */
  lemma TallyCounts<R(!new)>(before: seq<DailyStats>, prefix: seq<R>, x: R, key: R -> string,
                             add: (DailyStats, R) -> DailyStats, count: DailyStats -> int)
    requires KeepsDate(add) && Counts(add, count)
    requires DistinctBy(before, BucketDate)
    requires forall i :: 0 <= i < |prefix| ==> exists m :: 0 <= m < |before| && before[m].date == key(prefix[i])
    requires CountsRecords(before, prefix, key, count)
    ensures CountsRecords(Tally(before, key(x), x, add), prefix + [x], key, count)
  {
    var after := Tally(before, key(x), x, add);
    var j := FindIndex(before, OnDate(key(x)));
    forall k | 0 <= k < |after| ensures count(after[k]) == Count(prefix + [x], KeyIs(key, after[k].date)) {
      var d := after[k].date;
      CountAppend(prefix, [x], KeyIs(key, d));
      assert Count([x], KeyIs(key, d)) == if key(x) == d then 1 else 0;
      if j < 0 && k == |before| {
        assert d == key(x);
        forall i | 0 <= i < |prefix| ensures !KeyIs(key, d)(prefix[i]) {
          var m :| 0 <= m < |before| && before[m].date == key(prefix[i]);
          assert !OnDate(key(x))(before[m]);
        }
      } else if k == j {
        assert d == key(x) == before[k].date;
      } else {
        assert after[k] == before[k];
        assert before[k].date != key(x);
      }
    }
  }

  /** The counts add up to the number of records. */
  lemma {:induction false} BucketTotal<R(!new)>(rs: seq<R>, key: R -> string, add: (DailyStats, R) -> DailyStats,
                                               count: DailyStats -> int)
    requires Counts(add, count)
    ensures SumBy(Buckets(rs, key, add), count) == |rs|
    decreases |rs|
  {
    if |rs| > 0 {
      var n := |rs| - 1;
      var before := Buckets(rs[..n], key, add);
      BucketTotal(rs[..n], key, add, count);
      var j := FindIndex(before, OnDate(key(rs[n])));
      if j < 0 {
        SumAppend(before, [add(EmptyDay(key(rs[n])), rs[n])], count);
      } else {
        SumUpdate(before, j, add(before[j], rs[n]), count);
      }
    }
  }

  /** The daily list is sorted by `new Date(b.date).getTime()`, latest first. */
  function DateRank(b: DailyStats): int {
    DateValue(b.date)
  }

  /** On the keys of four-digit years that order is the order of the days. */
  lemma DayKeyRank(n: Day)
    requires DateOf(n).year <= 9999
    ensures DateValue(DayKey(n)) == n
  {
    DateValueOfKey(DateOf(n));
    DayNumberOfDate(n);
  }

  /** Sorting keeps each bucket's count of the records of its date. */
  lemma SortedBucketsCount<R(!new)>(rs: seq<R>, key: R -> string, add: (DailyStats, R) -> DailyStats,
                                   count: DailyStats -> int)
    requires KeepsDate(add) && Counts(add, count)
    ensures CountsRecords(SortDescending(Buckets(rs, key, add), DateRank), rs, key, count)
  {
    var b := Buckets(rs, key, add);
    var r := SortDescending(b, DateRank);
    BucketCounts(rs, key, add, count);
    SortMembers(b, DateRank);
    forall k | 0 <= k < |r| ensures count(r[k]) == Count(rs, KeyIs(key, r[k].date)) {
      var m :| 0 <= m < |b| && b[m] == r[k];
    }
  }

  /** Every record's date key has a bucket. */
  ghost predicate CoversKeys<R>(buckets: seq<DailyStats>, rs: seq<R>, key: R -> string) {
    forall i :: 0 <= i < |rs| ==> exists k :: 0 <= k < |buckets| && buckets[k].date == key(rs[i])
  }

  lemma SortKeepsCover<R>(b: seq<DailyStats>, rs: seq<R>, key: R -> string)
    requires CoversKeys(b, rs, key)
    ensures CoversKeys(SortDescending(b, DateRank), rs, key)
  {
    var r := SortDescending(b, DateRank);
    SortMembers(b, DateRank);
    forall i | 0 <= i < |rs| ensures exists k :: 0 <= k < |r| && r[k].date == key(rs[i]) {
      var m :| 0 <= m < |b| && b[m].date == key(rs[i]);
      assert b[m] in r;
      var k :| 0 <= k < |r| && r[k] == b[m];
    }
  }

  /** Sorting keeps a bucket for the date of every record. */
  lemma SortedBucketsCover<R(!new)>(rs: seq<R>, key: R -> string, add: (DailyStats, R) -> DailyStats)
    requires KeepsDate(add)
    ensures CoversKeys(SortDescending(Buckets(rs, key, add), DateRank), rs, key)
  {
    var b := Buckets(rs, key, add);
    BucketsDistinct(rs, key, add);
    assert CoversKeys(b, rs, key);
    SortKeepsCover(b, rs, key);
  }

  /** The sorted buckets: one per date key, latest date first, each counting
      the records of its date (at least one), the counts adding up to all
      the records. */
  lemma SortedBuckets<R(!new)>(rs: seq<R>, key: R -> string, add: (DailyStats, R) -> DailyStats,
                              count: DailyStats -> int)
    requires KeepsDate(add) && Counts(add, count)
    ensures var r := SortDescending(Buckets(rs, key, add), DateRank);
      && DistinctBy(r, BucketDate)
      && Descending(r, DateRank)
      && (forall k :: 0 <= k < |r| ==> count(r[k]) == Count(rs, KeyIs(key, r[k].date)))
      && (forall k :: 0 <= k < |r| ==> count(r[k]) > 0)
      && (forall i :: 0 <= i < |rs| ==> exists k :: 0 <= k < |r| && r[k].date == key(rs[i]))
      && SumBy(r, count) == |rs|
  {
    var b := Buckets(rs, key, add);
    BucketsCounted(rs, key, add, count);
    SortMembers(b, DateRank);
    BucketsDistinct(rs, key, add);
    BucketTotal(rs, key, add, count);
    SortDistinct(b, DateRank, BucketDate);
    SortIsDescending(b, DateRank);
    SortSum(b, DateRank, count);
    SortedBucketsCount(rs, key, add, count);
    SortedBucketsCover(rs, key, add);
  }

  /** Every bucket has counted at least one record. */
  lemma {:induction false} BucketsCounted<R(!new)>(rs: seq<R>, key: R -> string, add: (DailyStats, R) -> DailyStats,
                                                  count: DailyStats -> int)
    requires Counts(add, count)
    ensures forall k :: 0 <= k < |Buckets(rs, key, add)| ==> count(Buckets(rs, key, add)[k]) > 0
    decreases |rs|
  {
    if |rs| > 0 {
      var n := |rs| - 1;
      BucketsCounted(rs[..n], key, add, count);
    }
  }

  /** `m` starts at zero in a new bucket and grows by `w(r)` with each
      record `r` added. */
  ghost predicate Adds<R(!new)>(add: (DailyStats, R) -> DailyStats, m: DailyStats -> real, w: R -> real) {
    && (forall b: DailyStats, r: R :: m(add(b, r)) == m(b) + w(r))
    && (forall d :: m(EmptyDay(d)) == 0.0)
  }

  /** Each bucket holds the total weight of the records of its date. */
  ghost predicate SumsRecords<R>(buckets: seq<DailyStats>, rs: seq<R>, key: R -> string,
                                 m: DailyStats -> real, w: R -> real) {
    forall k :: 0 <= k < |buckets| ==> m(buckets[k]) == SumRealBy(Filter(rs, KeyIs(key, buckets[k].date)), w)
  }

  /** One tally step keeps every bucket's total equal to its records'. */
  lemma TallySums<R(!new)>(before: seq<DailyStats>, prefix: seq<R>, x: R, key: R -> string,
                           add: (DailyStats, R) -> DailyStats, m: DailyStats -> real, w: R -> real)
    requires KeepsDate(add) && Adds(add, m, w)
    requires DistinctBy(before, BucketDate)
    requires CoversKeys(before, prefix, key)
    requires SumsRecords(before, prefix, key, m, w)
    ensures SumsRecords(Tally(before, key(x), x, add), prefix + [x], key, m, w)
  {
    var after := Tally(before, key(x), x, add);
    forall k | 0 <= k < |after|
      ensures m(after[k]) == SumRealBy(Filter(prefix + [x], KeyIs(key, after[k].date)), w)
    {
      TallySumAt(before, prefix, x, key, add, m, w, k);
    }
  }

  /** The same for the bucket at position `k` after the step. */
  lemma TallySumAt<R(!new)>(before: seq<DailyStats>, prefix: seq<R>, x: R, key: R -> string,
                            add: (DailyStats, R) -> DailyStats, m: DailyStats -> real, w: R -> real, k: nat)
    requires KeepsDate(add) && Adds(add, m, w)
    requires DistinctBy(before, BucketDate)
    requires CoversKeys(before, prefix, key)
    requires SumsRecords(before, prefix, key, m, w)
    requires k < |Tally(before, key(x), x, add)|
    ensures var after := Tally(before, key(x), x, add);
      m(after[k]) == SumRealBy(Filter(prefix + [x], KeyIs(key, after[k].date)), w)
  {
    var after := Tally(before, key(x), x, add);
    var j := FindIndex(before, OnDate(key(x)));
    var d := after[k].date;
    var onDay := KeyIs(key, d);
    FilterSumSnoc(prefix, x, onDay, w);
    if j < 0 && k == |before| {
      assert d == key(x);
      forall i | 0 <= i < |prefix| ensures !onDay(prefix[i]) {
        var b :| 0 <= b < |before| && before[b].date == key(prefix[i]);
        assert !OnDate(key(x))(before[b]);
      }
      assert Filter(prefix, onDay) == [];
      assert after[k] == add(EmptyDay(d), x);
    } else if k == j {
      assert d == key(x) == before[k].date;
      assert after[k] == add(before[k], x);
      assert m(before[k]) == SumRealBy(Filter(prefix, onDay), w);
    } else {
      assert after[k] == before[k];
      if j >= 0 {
        assert before[j].date == key(x);
      }
      assert !onDay(x);
      assert m(before[k]) == SumRealBy(Filter(prefix, onDay), w);
    }
  }

  lemma {:induction false} BucketSums<R(!new)>(rs: seq<R>, key: R -> string, add: (DailyStats, R) -> DailyStats,
                                              m: DailyStats -> real, w: R -> real)
    requires KeepsDate(add) && Adds(add, m, w)
    ensures SumsRecords(Buckets(rs, key, add), rs, key, m, w)
    decreases |rs|
  {
    if |rs| > 0 {
      var n := |rs| - 1;
      BucketSums(rs[..n], key, add, m, w);
      BucketsDistinct(rs[..n], key, add);
      TallySums(Buckets(rs[..n], key, add), rs[..n], rs[n], key, add, m, w);
      SplitLast(rs);
    }
  }

  /** Sorting keeps each bucket's total of the records of its date. */
  lemma SortedBucketSums<R(!new)>(rs: seq<R>, key: R -> string, add: (DailyStats, R) -> DailyStats,
                                  m: DailyStats -> real, w: R -> real)
    requires KeepsDate(add) && Adds(add, m, w)
    ensures SumsRecords(SortDescending(Buckets(rs, key, add), DateRank), rs, key, m, w)
  {
    var b := Buckets(rs, key, add);
    var r := SortDescending(b, DateRank);
    BucketSums(rs, key, add, m, w);
    SortMembers(b, DateRank);
    forall k | 0 <= k < |r| ensures m(r[k]) == SumRealBy(Filter(rs, KeyIs(key, r[k].date)), w) {
      var i :| 0 <= i < |b| && b[i] == r[k];
    }
  }

  // ---------------------------------------------------------------------------
  // calculateDailyFeedingStats, calculateDailyDiaperStats

  /** `toISODateString(parseISO(r.startTime))`. */
  function FeedingKey(c: Clock): FeedingRecord -> string {
    (r: FeedingRecord) => DayKey(DayOfTime(c, r.startTime))
  }

  /** `toISODateString(parseISO(r.time))`. */
  function DiaperKey(c: Clock): DiaperRecord -> string {
    (r: DiaperRecord) => DayKey(DayOfTime(c, r.time))
  }

  function FeedingCountOf(b: DailyStats): int {
    b.feedingCount
  }

  function DiaperCountOf(b: DailyStats): int {
    b.diaperCount
  }

  function TotalAmountOf(b: DailyStats): real {
    b.totalAmount
  }

  function TotalDurationOf(b: DailyStats): int {
    b.totalDuration
  }

  function PeeCountOf(b: DailyStats): int {
    b.peeCount
  }

  function PoopCountOf(b: DailyStats): int {
    b.poopCount
  }

  /** `calculateDailyFeedingStats`: the feedings bucketed by the day they
      start on, latest day first; `DailyFeedingFacts` says what that list
      holds. */
  method CalculateDailyFeedingStats(records: seq<FeedingRecord>, c: Clock) returns (r: seq<DailyStats>)
    ensures r == SortDescending(Buckets(records, FeedingKey(c), AddFeeding), DateRank)
  {
    var buckets: seq<DailyStats> := [];
    var i := 0;
    while i < |records|
      invariant 0 <= i <= |records|
      invariant buckets == Buckets(records[..i], FeedingKey(c), AddFeeding)
    {
      var date := DayKey(DayOfTime(c, records[i].startTime));
      var j := FindIndex(buckets, OnDate(date));
      BucketsStep(records, i, FeedingKey(c), AddFeeding);
      if j < 0 {
        buckets := buckets + [AddFeeding(EmptyDay(date), records[i])];
      } else {
        buckets := buckets[j := AddFeeding(buckets[j], records[i])];
      }
      i := i + 1;
    }
    assert records[..i] == records;
    r := SortDescending(buckets, DateRank);
  }

  /** `calculateDailyDiaperStats`: the same per day for diaper changes;
      `DailyDiaperFacts` says what that list holds. */
  method CalculateDailyDiaperStats(records: seq<DiaperRecord>, c: Clock) returns (r: seq<DailyStats>)
    ensures r == SortDescending(Buckets(records, DiaperKey(c), AddDiaper), DateRank)
  {
    var buckets: seq<DailyStats> := [];
    var i := 0;
    while i < |records|
      invariant 0 <= i <= |records|
      invariant buckets == Buckets(records[..i], DiaperKey(c), AddDiaper)
    {
      var date := DayKey(DayOfTime(c, records[i].time));
      var j := FindIndex(buckets, OnDate(date));
      BucketsStep(records, i, DiaperKey(c), AddDiaper);
      if j < 0 {
        buckets := buckets + [AddDiaper(EmptyDay(date), records[i])];
      } else {
        buckets := buckets[j := AddDiaper(buckets[j], records[i])];
      }
      i := i + 1;
    }
    assert records[..i] == records;
    r := SortDescending(buckets, DateRank);
  }

  /** No feeding weighs anything on a diaper tally, and the reverse. */
  function NoFeeding(r: FeedingRecord): real {
    0.0
  }

  function NoDiaper(r: DiaperRecord): real {
    0.0
  }

  /** What adding a feeding does to each field of its bucket. */
  lemma FeedingTallies()
    ensures KeepsDate(AddFeeding)
    ensures Adds(AddFeeding, TotalAmountOf, AmountOf)
    ensures Adds(AddFeeding, AsReal(TotalDurationOf), AsReal(DurationOf))
    ensures Adds(AddFeeding, AsReal(DiaperCountOf), NoFeeding)
    ensures Adds(AddFeeding, AsReal(PeeCountOf), NoFeeding)
    ensures Adds(AddFeeding, AsReal(PoopCountOf), NoFeeding)
  {
  }

  /** What adding a diaper change does to each field of its bucket. */
  lemma DiaperTallies()
    ensures KeepsDate(AddDiaper)
    ensures Adds(AddDiaper, AsReal(PeeCountOf), Indicator(HasPee))
    ensures Adds(AddDiaper, AsReal(PoopCountOf), Indicator(HasPoop))
    ensures Adds(AddDiaper, AsReal(FeedingCountOf), NoDiaper)
    ensures Adds(AddDiaper, TotalAmountOf, NoDiaper)
    ensures Adds(AddDiaper, AsReal(TotalDurationOf), NoDiaper)
  {
  }

  /** Each feeding bucket sums its day's amounts and durations and keeps
      its diaper tallies at zero. */
  lemma FeedingDayTotals(records: seq<FeedingRecord>, c: Clock)
    ensures var r := SortDescending(Buckets(records, FeedingKey(c), AddFeeding), DateRank);
      forall k :: 0 <= k < |r| ==>
        var day := Filter(records, KeyIs(FeedingKey(c), r[k].date));
        && r[k].totalAmount == SumRealBy(day, AmountOf)
        && r[k].totalDuration == SumBy(day, DurationOf)
        && r[k].diaperCount == 0 && r[k].peeCount == 0 && r[k].poopCount == 0
  {
    var key := FeedingKey(c);
    var r := SortDescending(Buckets(records, key, AddFeeding), DateRank);
    FeedingTallies();
    SortedBucketSums(records, key, AddFeeding, TotalAmountOf, AmountOf);
    SortedBucketSums(records, key, AddFeeding, AsReal(TotalDurationOf), AsReal(DurationOf));
    SortedBucketSums(records, key, AddFeeding, AsReal(DiaperCountOf), NoFeeding);
    SortedBucketSums(records, key, AddFeeding, AsReal(PeeCountOf), NoFeeding);
    SortedBucketSums(records, key, AddFeeding, AsReal(PoopCountOf), NoFeeding);
    forall k | 0 <= k < |r|
      ensures var day := Filter(records, KeyIs(key, r[k].date));
        && r[k].totalDuration == SumBy(day, DurationOf)
        && r[k].diaperCount == 0 && r[k].peeCount == 0 && r[k].poopCount == 0
    {
      var day := Filter(records, KeyIs(key, r[k].date));
      SumAsReal(day, DurationOf);
      SumRealZero(day, NoFeeding);
    }
  }

  /** Each diaper bucket counts its day's changes with a pee and with a
      poop and keeps its feeding tallies at zero. */
  lemma DiaperDayTotals(records: seq<DiaperRecord>, c: Clock)
    ensures var r := SortDescending(Buckets(records, DiaperKey(c), AddDiaper), DateRank);
      forall k :: 0 <= k < |r| ==>
        var day := Filter(records, KeyIs(DiaperKey(c), r[k].date));
        && r[k].peeCount == Count(day, HasPee)
        && r[k].poopCount == Count(day, HasPoop)
        && r[k].feedingCount == 0 && r[k].totalAmount == 0.0 && r[k].totalDuration == 0
  {
    var key := DiaperKey(c);
    var r := SortDescending(Buckets(records, key, AddDiaper), DateRank);
    DiaperTallies();
    SortedBucketSums(records, key, AddDiaper, AsReal(PeeCountOf), Indicator(HasPee));
    SortedBucketSums(records, key, AddDiaper, AsReal(PoopCountOf), Indicator(HasPoop));
    SortedBucketSums(records, key, AddDiaper, AsReal(FeedingCountOf), NoDiaper);
    SortedBucketSums(records, key, AddDiaper, TotalAmountOf, NoDiaper);
    SortedBucketSums(records, key, AddDiaper, AsReal(TotalDurationOf), NoDiaper);
    forall k | 0 <= k < |r|
      ensures var day := Filter(records, KeyIs(key, r[k].date));
        && r[k].peeCount == Count(day, HasPee)
        && r[k].poopCount == Count(day, HasPoop)
        && r[k].feedingCount == 0 && r[k].totalAmount == 0.0 && r[k].totalDuration == 0
    {
      var day := Filter(records, KeyIs(key, r[k].date));
      SumIndicator(day, HasPee);
      SumIndicator(day, HasPoop);
      SumRealZero(day, NoDiaper);
    }
  }

  /** One bucket per day that has feedings, latest day first. Each bucket
      counts that day's feedings (at least one) and sums their amounts and
      durations, an absent one counting as zero; its diaper tallies stay
      zero. Every feeding has its day's bucket, and the counts add up to the
      number of feedings. */
  lemma DailyFeedingFacts(records: seq<FeedingRecord>, c: Clock)
    ensures var r := SortDescending(Buckets(records, FeedingKey(c), AddFeeding), DateRank);
      && DistinctBy(r, BucketDate) && Descending(r, DateRank)
      && (forall k :: 0 <= k < |r| ==> r[k].feedingCount == Count(records, KeyIs(FeedingKey(c), r[k].date)))
      && (forall k :: 0 <= k < |r| ==> r[k].feedingCount > 0)
      && (forall k :: 0 <= k < |r| ==>
            var day := Filter(records, KeyIs(FeedingKey(c), r[k].date));
            && r[k].totalAmount == SumRealBy(day, AmountOf)
            && r[k].totalDuration == SumBy(day, DurationOf)
            && r[k].diaperCount == 0 && r[k].peeCount == 0 && r[k].poopCount == 0)
      && (forall i :: 0 <= i < |records| ==> exists k :: 0 <= k < |r| && r[k].date == FeedingKey(c)(records[i]))
      && SumBy(r, FeedingCountOf) == |records|
  {
    FeedingTallies();
    SortedBuckets(records, FeedingKey(c), AddFeeding, FeedingCountOf);
    FeedingDayTotals(records, c);
  }

  /** The same for diaper changes: each bucket counts that day's changes (at
      least one), those with a pee and those with a poop, a `both` change
      counting in each; its feeding tallies stay zero. */
  lemma DailyDiaperFacts(records: seq<DiaperRecord>, c: Clock)
    ensures var r := SortDescending(Buckets(records, DiaperKey(c), AddDiaper), DateRank);
      && DistinctBy(r, BucketDate) && Descending(r, DateRank)
      && (forall k :: 0 <= k < |r| ==> r[k].diaperCount == Count(records, KeyIs(DiaperKey(c), r[k].date)))
      && (forall k :: 0 <= k < |r| ==> r[k].diaperCount > 0)
      && (forall k :: 0 <= k < |r| ==>
            var day := Filter(records, KeyIs(DiaperKey(c), r[k].date));
            && r[k].peeCount == Count(day, HasPee)
            && r[k].poopCount == Count(day, HasPoop)
            && r[k].feedingCount == 0 && r[k].totalAmount == 0.0 && r[k].totalDuration == 0)
      && (forall i :: 0 <= i < |records| ==> exists k :: 0 <= k < |r| && r[k].date == DiaperKey(c)(records[i]))
      && SumBy(r, DiaperCountOf) == |records|
  {
    DiaperTallies();
    SortedBuckets(records, DiaperKey(c), AddDiaper, DiaperCountOf);
    DiaperDayTotals(records, c);
  }

  // ---------------------------------------------------------------------------
  // calculateFeedingStats, calculateDiaperStats

  datatype FeedingStats = FeedingStats(
    totalFeeds: int, totalAmount: real, totalDuration: int, averageInterval: real,
    lastFeedTime: Option<string>)

  datatype DiaperStats = DiaperStats(
    totalChanges: int, peeCount: int, poopCount: int, lastChangeTime: Option<string>)

  /** `new Date(r.startTime).getTime()`. */
  function StartOf(c: Clock): FeedingRecord -> int {
    (r: FeedingRecord) => c.instant(r.startTime)
  }

  /** The ascending sort by start, as a descending sort by the negated start. */
  function EarlierFirst(c: Clock): FeedingRecord -> int {
    (r: FeedingRecord) => -c.instant(r.startTime)
  }

  /** `new Date(r.time).getTime()`. */
  function TimeOf(c: Clock): DiaperRecord -> int {
    (r: DiaperRecord) => c.instant(r.time)
  }

  function EarlierChangeFirst(c: Clock): DiaperRecord -> int {
    (r: DiaperRecord) => -c.instant(r.time)
  }

  function AmountOf(r: FeedingRecord): real {
    AmountOrZero(r.amount)
  }

  function DurationOf(r: FeedingRecord): int {
    DurationOrZero(r.duration)
  }

  /** After the sort the first element has the largest key and the last one
      the smallest. */
  lemma SortedEnds<T>(s: seq<T>, key: T -> int)
    requires |s| > 0
    ensures var r := SortDescending(s, key);
      && |r| == |s|
      && r[0] in s && key(r[0]) == MaxBy(s, key)
      && r[|r| - 1] in s && key(r[|r| - 1]) == MinBy(s, key)
  {
    var r := SortDescending(s, key);
    var last := |r| - 1;
    SortedHead(s, key);
    SortedLast(s, key);
    var top :| 0 <= top < |s| && s[top] == r[0];
    var bottom :| 0 <= bottom < |s| && s[bottom] == r[last];
    var hi :| 0 <= hi < |s| && key(s[hi]) == MaxBy(s, key);
    var lo :| 0 <= lo < |s| && key(s[lo]) == MinBy(s, key);
    assert key(s[top]) <= MaxBy(s, key) && key(r[0]) >= key(s[hi]);
    assert key(s[bottom]) >= MinBy(s, key) && key(r[last]) <= key(s[lo]);
  }

  /** Negating the key swaps the largest and the smallest value. */
  lemma NegatedMax<T>(s: seq<T>, neg: T -> int, key: T -> int)
    requires |s| > 0
    requires forall i :: 0 <= i < |s| ==> neg(s[i]) == -key(s[i])
    ensures MaxBy(s, neg) == -MinBy(s, key)
  {
    var a :| 0 <= a < |s| && neg(s[a]) == MaxBy(s, neg);
    var b :| 0 <= b < |s| && key(s[b]) == MinBy(s, key);
    assert neg(s[b]) <= MaxBy(s, neg);
    assert MinBy(s, key) <= key(s[a]);
  }

  lemma NegatedMin<T>(s: seq<T>, neg: T -> int, key: T -> int)
    requires |s| > 0
    requires forall i :: 0 <= i < |s| ==> neg(s[i]) == -key(s[i])
    ensures MinBy(s, neg) == -MaxBy(s, key)
  {
    var a :| 0 <= a < |s| && neg(s[a]) == MinBy(s, neg);
    var b :| 0 <= b < |s| && key(s[b]) == MaxBy(s, key);
    assert MinBy(s, neg) <= neg(s[b]);
    assert key(s[a]) <= MaxBy(s, key);
  }

  /** The ascending sort puts the earliest first and the latest last. */
  lemma AscendingEnds<T>(s: seq<T>, neg: T -> int, key: T -> int)
    requires |s| > 0
    requires forall i :: 0 <= i < |s| ==> neg(s[i]) == -key(s[i])
    ensures var r := SortDescending(s, neg);
      && |r| == |s|
      && r[0] in s && key(r[0]) == MinBy(s, key)
      && r[|r| - 1] in s && key(r[|r| - 1]) == MaxBy(s, key)
  {
    SortedEnds(s, neg);
    NegatedMax(s, neg, key);
    NegatedMin(s, neg, key);
    var r := SortDescending(s, neg);
    var i :| 0 <= i < |s| && s[i] == r[0];
    var j :| 0 <= j < |s| && s[j] == r[|r| - 1];
  }

  /** The feedings sorted by start run from the earliest start to the
      latest; the last one is a feeding with the latest start. */
  lemma FeedingEnds(records: seq<FeedingRecord>, c: Clock)
    requires |records| > 0
    ensures var r := SortDescending(records, EarlierFirst(c));
      && |r| == |records|
      && c.instant(r[0].startTime) == MinBy(records, StartOf(c))
      && c.instant(r[|r| - 1].startTime) == MaxBy(records, StartOf(c))
      && exists i :: 0 <= i < |records| && records[i] == r[|r| - 1]
  {
    AscendingEnds(records, EarlierFirst(c), StartOf(c));
  }

  /** The changes sorted by time end with a change of the latest time. */
  lemma DiaperEnds(records: seq<DiaperRecord>, c: Clock)
    requires |records| > 0
    ensures var r := SortDescending(records, EarlierChangeFirst(c));
      && |r| == |records|
      && exists i :: 0 <= i < |records| && records[i] == r[|r| - 1]
           && c.instant(records[i].time) == MaxBy(records, TimeOf(c))
  {
    AscendingEnds(records, EarlierChangeFirst(c), TimeOf(c));
  }

  /** The minutes from one instant to another, `(curr - prev) / (1000 * 60)`. */
  function MinutesBetween(from: int, to: int): real {
    (to - from) as real / (1000 * 60) as real
  }

  /** Consecutive gaps add up to the whole span. */
  lemma MinutesAdd(a: int, b: int, c: int)
    ensures MinutesBetween(a, b) + MinutesBetween(b, c) == MinutesBetween(a, c)
  {
  }

  /** Equal totals over equal numbers of gaps have equal means. */
  lemma SameMean(total: real, span: real, count: int, gaps: int)
    requires total == span && count == gaps && gaps > 0
    ensures total / count as real == span / gaps as real
  {
  }

  /** `calculateFeedingStats`: the number of feedings, the amount and
      duration totals, the mean gap in minutes between consecutive starts
      (which is the span from the first start to the last divided by the
      number of gaps) and the latest start. */
  method CalculateFeedingStats(records: seq<FeedingRecord>, c: Clock) returns (s: FeedingStats)
    ensures |records| == 0 ==> s == FeedingStats(0, 0.0, 0, 0.0, None)
    ensures s.totalFeeds == |records|
    ensures s.totalAmount == SumRealBy(records, AmountOf)
    ensures s.totalDuration == SumBy(records, DurationOf)
    ensures |records| == 1 ==> s.averageInterval == 0.0
    ensures |records| >= 2 ==>
      s.averageInterval
        == MinutesBetween(MinBy(records, StartOf(c)), MaxBy(records, StartOf(c))) / (|records| - 1) as real
    ensures |records| > 0 ==>
      exists i :: 0 <= i < |records| && c.instant(records[i].startTime) == MaxBy(records, StartOf(c))
        && s.lastFeedTime == NonEmpty(records[i].startTime)
  {
    if |records| == 0 {
      return FeedingStats(0, 0.0, 0, 0.0, None);
    }
    var sorted := SortDescending(records, EarlierFirst(c));
    var totalFeeds := |records|;
    var totalAmount := SumRealBy(records, AmountOf);
    var totalDuration := SumBy(records, DurationOf);
    var totalInterval := 0.0;
    var intervalCount := 0;
    var first := c.instant(sorted[0].startTime);
    for i := 1 to |sorted|
      invariant intervalCount == i - 1
      invariant totalInterval == MinutesBetween(first, c.instant(sorted[i - 1].startTime))
    {
      var prev := c.instant(sorted[i - 1].startTime);
      var curr := c.instant(sorted[i].startTime);
      var interval := MinutesBetween(prev, curr);
      MinutesAdd(first, prev, curr);
      totalInterval := totalInterval + interval;
      intervalCount := intervalCount + 1;
    }
    var averageInterval := if intervalCount > 0 then totalInterval / intervalCount as real else 0.0;
    var lastFeedTime := NonEmpty(sorted[|sorted| - 1].startTime);
    FeedingEnds(records, c);
    if |records| >= 2 {
      SameMean(totalInterval, MinutesBetween(MinBy(records, StartOf(c)), MaxBy(records, StartOf(c))),
               intervalCount, |records| - 1);
    }
    s := FeedingStats(totalFeeds, totalAmount, totalDuration, averageInterval, lastFeedTime);
  }

  /** The totals never go negative when no amount or duration is negative. */
  lemma FeedingTotalsNonNegative(records: seq<FeedingRecord>)
    requires forall i :: 0 <= i < |records| ==> AmountOf(records[i]) >= 0.0 && DurationOf(records[i]) >= 0
    ensures SumRealBy(records, AmountOf) >= 0.0 && SumBy(records, DurationOf) >= 0
  {
    SumRealNonNegative(records, AmountOf);
    SumNonNegative(records, DurationOf);
  }

  /** A change counts as a pee unless it is poop only, as a poop unless it is
      pee only. */
  function HasPee(r: DiaperRecord): bool {
    r.kind == Pee || r.kind == PeeAndPoop
  }

  function HasPoop(r: DiaperRecord): bool {
    r.kind == Poop || r.kind == PeeAndPoop
  }

  function IsKind(kind: DiaperType): DiaperRecord -> bool {
    (r: DiaperRecord) => r.kind == kind
  }

  /** `calculateDiaperStats`: the number of changes, how many held pee and
      how many held poop (a `both` change counts in each), and the latest
      change time. */
  method CalculateDiaperStats(records: seq<DiaperRecord>, c: Clock) returns (s: DiaperStats)
    ensures |records| == 0 ==> s == DiaperStats(0, 0, 0, None)
    ensures s.totalChanges == |records|
    ensures s.peeCount == Count(records, HasPee) && s.poopCount == Count(records, HasPoop)
    ensures |records| > 0 ==>
      exists i :: 0 <= i < |records| && c.instant(records[i].time) == MaxBy(records, TimeOf(c))
        && s.lastChangeTime == NonEmpty(records[i].time)
  {
    if |records| == 0 {
      return DiaperStats(0, 0, 0, None);
    }
    var sorted := SortDescending(records, EarlierChangeFirst(c));
    var peeCount := 0;
    var poopCount := 0;
    for i := 0 to |records|
      invariant peeCount == Count(records[..i], HasPee)
      invariant poopCount == Count(records[..i], HasPoop)
    {
      CountStep(records, i, HasPee);
      CountStep(records, i, HasPoop);
      if records[i].kind == Pee {
        peeCount := peeCount + 1;
      } else if records[i].kind == Poop {
        poopCount := poopCount + 1;
      } else if records[i].kind == PeeAndPoop {
        peeCount := peeCount + 1;
        poopCount := poopCount + 1;
      }
    }
    assert records[..|records|] == records;
    DiaperEnds(records, c);
    s := DiaperStats(|records|, peeCount, poopCount, NonEmpty(sorted[|sorted| - 1].time));
  }

  /** The pee count is the pee-only changes plus the `both` changes, the
      poop count likewise, and neither exceeds the number of changes. */
  lemma DiaperKindCounts(records: seq<DiaperRecord>)
    ensures Count(records, HasPee) == Count(records, IsKind(Pee)) + Count(records, IsKind(PeeAndPoop))
    ensures Count(records, HasPoop) == Count(records, IsKind(Poop)) + Count(records, IsKind(PeeAndPoop))
    ensures Count(records, HasPee) <= |records| && Count(records, HasPoop) <= |records|
    ensures Count(records, HasPee) + Count(records, HasPoop) == |records| + Count(records, IsKind(PeeAndPoop))
  {
    CountEither(records, IsKind(Pee), IsKind(PeeAndPoop), HasPee);
    CountEither(records, IsKind(Poop), IsKind(PeeAndPoop), HasPoop);
    CountEither(records, IsKind(Pee), IsKind(Poop), NotBoth);
    CountEither(records, NotBoth, IsKind(PeeAndPoop), Always);
    CountAll(records, Always);
  }

  function NotBoth(r: DiaperRecord): bool {
    r.kind != PeeAndPoop
  }

  function Always(r: DiaperRecord): bool {
    true
  }
}
