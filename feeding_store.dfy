/** The feeding store (`src/stores/feedingStore.ts`): the feeding records and
    the last error. Actions write the whole new list to storage and update
    the store only after the write succeeds; queries filter by baby (and
    day) and list the latest feeding first. */
module FeedingStores {
  import opened Wrappers
  import opened DateUtils
  import opened Records
  import opened Sequences
  import opened Storage

  function HasId(id: string): FeedingRecord -> bool {
    (r: FeedingRecord) => r.id == id
  }

  function NotId(id: string): FeedingRecord -> bool {
    (r: FeedingRecord) => r.id != id
  }

  function OfBaby(babyId: string): FeedingRecord -> bool {
    (r: FeedingRecord) => r.babyId == babyId
  }

  function OfBabyOnDay(c: Clock, babyId: string, day: Day): FeedingRecord -> bool {
    (r: FeedingRecord) => r.babyId == babyId && DayOfTime(c, r.startTime) == day
  }

  /** The sort key: `new Date(r.startTime).getTime()`. */
  function StartInstant(c: Clock): FeedingRecord -> int {
    (r: FeedingRecord) => c.instant(r.startTime)
  }

  /** Some record of the list has the id. */
  predicate Listed(records: seq<FeedingRecord>, id: string) {
    exists i :: 0 <= i < |records| && records[i].id == id
  }

  /** `storedRecords || []`. */
  function LoadedFeedings(stored: Option<Stored>): seq<FeedingRecord> {
    match stored
    case Some(FeedingList(records)) => records
    case _ => []
  }

  /** `getRecordsByBaby`: exactly the baby's records, each as often as it is
      stored, latest first; records with the same start keep their stored
      order. */
  function RecordsByBaby(records: seq<FeedingRecord>, babyId: string, c: Clock): (r: seq<FeedingRecord>)
    ensures forall i :: 0 <= i < |r| ==> r[i] in records && r[i].babyId == babyId
    ensures forall i :: 0 <= i < |records| && records[i].babyId == babyId ==> records[i] in r
    ensures multiset(r) == multiset(Filter(records, OfBaby(babyId)))
    ensures Descending(r, StartInstant(c))
    ensures forall t :: Filter(r, KeyEquals(StartInstant(c), t)) == Filter(Filter(records, OfBaby(babyId)), KeyEquals(StartInstant(c), t))
  {
    FilterSorted(records, OfBaby(babyId), StartInstant(c))
  }

  /** `getRecordsByDate`: the baby's records started on the same local day
      as `date` (`toDateString` names the local day), latest first. */
  function RecordsByDate(records: seq<FeedingRecord>, babyId: string, date: string, c: Clock): (r: seq<FeedingRecord>)
    ensures forall i :: 0 <= i < |r| ==>
      r[i] in records && r[i].babyId == babyId && DayOfTime(c, r[i].startTime) == DayOfTime(c, date)
    ensures forall i :: (0 <= i < |records| && records[i].babyId == babyId
      && DayOfTime(c, records[i].startTime) == DayOfTime(c, date)) ==> records[i] in r
    ensures multiset(r) == multiset(Filter(records, OfBabyOnDay(c, babyId, DayOfTime(c, date))))
    ensures Descending(r, StartInstant(c))
    ensures forall t :: Filter(r, KeyEquals(StartInstant(c), t)) == Filter(Filter(records, OfBabyOnDay(c, babyId, DayOfTime(c, date))), KeyEquals(StartInstant(c), t))
  {
    FilterSorted(records, OfBabyOnDay(c, babyId, DayOfTime(c, date)), StartInstant(c))
  }

  /** `getTodayRecords`: the baby's records started on today's local day. */
  function TodayRecords(records: seq<FeedingRecord>, babyId: string, now: Timestamp, c: Clock): (r: seq<FeedingRecord>)
    ensures forall i :: 0 <= i < |r| ==>
      r[i] in records && r[i].babyId == babyId && DayOfTime(c, r[i].startTime) == c.localDay(now)
    ensures forall i :: (0 <= i < |records| && records[i].babyId == babyId
      && DayOfTime(c, records[i].startTime) == c.localDay(now)) ==> records[i] in r
    ensures multiset(r) == multiset(Filter(records, OfBabyOnDay(c, babyId, c.localDay(now))))
    ensures Descending(r, StartInstant(c))
    ensures forall t :: Filter(r, KeyEquals(StartInstant(c), t)) == Filter(Filter(records, OfBabyOnDay(c, babyId, c.localDay(now))), KeyEquals(StartInstant(c), t))
  {
    FilterSorted(records, OfBabyOnDay(c, babyId, c.localDay(now)), StartInstant(c))
  }

  /** `getLastRecord`: null exactly when the baby has no records, otherwise
      the first of its records, in stored order, with the latest start (the
      sort is stable). */
  function LastRecord(records: seq<FeedingRecord>, babyId: string, c: Clock): (r: Option<FeedingRecord>)
    ensures r.None? <==> forall i :: 0 <= i < |records| ==> records[i].babyId != babyId
    ensures r.Some? ==>
      && r.value in records && r.value.babyId == babyId
      && forall i :: 0 <= i < |records| && records[i].babyId == babyId ==>
           c.instant(records[i].startTime) <= c.instant(r.value.startTime)
    ensures r.Some? ==>
      exists i :: (0 <= i < |records| && records[i] == r.value
                   && forall j :: 0 <= j < i && records[j].babyId == babyId ==>
                        c.instant(records[j].startTime) < c.instant(r.value.startTime))
  {
    FilterSortedHead(records, OfBaby(babyId), StartInstant(c));
    FilterSortedFirst(records, OfBaby(babyId), StartInstant(c));
    var babyRecords := FilterSorted(records, OfBaby(babyId), StartInstant(c));
    if |babyRecords| > 0 then Some(babyRecords[0]) else None
  }

  /** `deleteRecord` removes exactly the records with the id, keeps the others
      in order, and is idempotent; an absent id leaves the list as it is. */
  lemma DeleteFilter(records: seq<FeedingRecord>, more: seq<FeedingRecord>, id: string)
    ensures forall i :: 0 <= i < |Filter(records, NotId(id))| ==> Filter(records, NotId(id))[i].id != id
    ensures forall i :: 0 <= i < |records| && records[i].id != id ==> records[i] in Filter(records, NotId(id))
    ensures Filter(records + more, NotId(id)) == Filter(records, NotId(id)) + Filter(more, NotId(id))
    ensures Filter(Filter(records, NotId(id)), NotId(id)) == Filter(records, NotId(id))
    ensures !Listed(records, id) ==> Filter(records, NotId(id)) == records
  {
    FilterAppend(records, more, NotId(id));
    FilterIdempotent(records, NotId(id));
    if !Listed(records, id) {
      FilterAll(records, NotId(id));
    }
  }

  /** An update changes one record and keeps every record's identity and
      baby, so each baby keeps the same number of records. */
  lemma UpdateKeepsBabies(records: seq<FeedingRecord>, i: nat, u: FeedingChanges, babyId: string)
    requires i < |records|
    ensures var updated := records[i := MergeFeeding(records[i], u)];
      && |updated| == |records|
      && (forall k :: 0 <= k < |records| ==> updated[k].id == records[k].id && updated[k].babyId == records[k].babyId)
      && Count(updated, OfBaby(babyId)) == Count(records, OfBaby(babyId))
  {
    var updated := records[i := MergeFeeding(records[i], u)];
    assert records == records[..i] + [records[i]] + records[i + 1..];
    assert updated == records[..i] + [updated[i]] + records[i + 1..];
    CountAppend(records[..i] + [records[i]], records[i + 1..], OfBaby(babyId));
    CountAppend(records[..i], [records[i]], OfBaby(babyId));
    CountAppend(records[..i] + [updated[i]], records[i + 1..], OfBaby(babyId));
    CountAppend(records[..i], [updated[i]], OfBaby(babyId));
  }

  class FeedingStore {
    var records: seq<FeedingRecord>
    var error: Option<string>
    const storage: KeyValueStore

    constructor(storage: KeyValueStore)
      ensures records == [] && error == None && this.storage == storage
    {
      records := [];
      error := None;
      this.storage := storage;
    }

    /** The store shows what storage holds. */
    predicate Persisted()
      reads this, storage
    {
      FeedingRecordsKey in storage.entries && storage.entries[FeedingRecordsKey] == FeedingList(records)
    }

    /** `loadRecords`. */
    method LoadRecords()
      modifies this
      ensures records == LoadedFeedings(storage.GetStoredData(FeedingRecordsKey))
      ensures error == None
    {
      error := None;
      var stored := storage.GetStoredData(FeedingRecordsKey);
      records := LoadedFeedings(stored);
    }

    /** `addRecord`: appends one record built from the input, with the fresh
        id and `createdAt` = now. */
    method AddRecord(input: NewFeeding, id: string, now: string) returns (r: Completion<FeedingRecord>)
      modifies this, storage
      ensures storage.failing == old(storage.failing)
      ensures FeedingRecordsKey in storage.failing ==>
        r == Rejected(SaveError(FeedingRecordsKey)) && records == old(records) && error == old(error)
        && storage.entries == old(storage.entries)
      ensures FeedingRecordsKey !in storage.failing ==>
        r == Resolved(CreateFeeding(input, id, now)) && records == old(records) + [r.value]
        && error == None && Persisted()
        && storage.entries == old(storage.entries)[FeedingRecordsKey := FeedingList(records)]
    {
      var newRecord := CreateFeeding(input, id, now);
      var updated := records + [newRecord];
      var w := storage.SetStoredData(FeedingRecordsKey, FeedingList(updated));
      if w.Rejected? {
        return Rejected(w.message);
      }
      records := updated;
      error := None;
      r := Resolved(newRecord);
    }

    /** `updateRecord`: merges the input into the first record with the id;
        an absent id records "Record not found" and resolves to null. */
    method UpdateRecord(id: string, input: FeedingChanges) returns (r: Completion<Option<FeedingRecord>>)
      modifies this, storage
      ensures storage.failing == old(storage.failing)
      ensures !Listed(old(records), id) ==>
        r == Resolved(None) && records == old(records) && error == Some("Record not found")
        && storage.entries == old(storage.entries)
      ensures Listed(old(records), id) ==>
        var i := FindIndex(old(records), HasId(id));
        var updated := old(records)[i := MergeFeeding(old(records)[i], input)];
        if FeedingRecordsKey in storage.failing then
          r == Rejected(SaveError(FeedingRecordsKey)) && records == old(records) && error == old(error)
          && storage.entries == old(storage.entries)
        else
          r == Resolved(Some(updated[i])) && records == updated && error == None && Persisted()
          && storage.entries == old(storage.entries)[FeedingRecordsKey := FeedingList(updated)]
    {
      var i := FindIndex(records, HasId(id));
      if i == -1 {
        error := Some("Record not found");
        return Resolved(None);
      }
      var updatedRecord := MergeFeeding(records[i], input);
      var updated := records[i := updatedRecord];
      var w := storage.SetStoredData(FeedingRecordsKey, FeedingList(updated));
      if w.Rejected? {
        return Rejected(w.message);
      }
      records := updated;
      error := None;
      r := Resolved(Some(updatedRecord));
    }

    /** `deleteRecord`: drops every record with the id. */
    method DeleteRecord(id: string) returns (r: Completion<()>)
      modifies this, storage
      ensures storage.failing == old(storage.failing)
      ensures FeedingRecordsKey in storage.failing ==>
        r == Rejected(SaveError(FeedingRecordsKey)) && records == old(records) && error == old(error)
        && storage.entries == old(storage.entries)
      ensures FeedingRecordsKey !in storage.failing ==>
        r == Resolved(()) && records == Filter(old(records), NotId(id)) && error == None && Persisted()
        && storage.entries == old(storage.entries)[FeedingRecordsKey := FeedingList(records)]
    {
      var remaining := Filter(records, NotId(id));
      var w := storage.SetStoredData(FeedingRecordsKey, FeedingList(remaining));
      if w.Rejected? {
        return Rejected(w.message);
      }
      records := remaining;
      error := None;
      r := Resolved(());
    }

    function GetRecordsByBaby(babyId: string, c: Clock): seq<FeedingRecord>
      reads this
    {
      RecordsByBaby(records, babyId, c)
    }

    function GetRecordsByDate(babyId: string, date: string, c: Clock): seq<FeedingRecord>
      reads this
    {
      RecordsByDate(records, babyId, date, c)
    }

    function GetTodayRecords(babyId: string, now: Timestamp, c: Clock): seq<FeedingRecord>
      reads this
    {
      TodayRecords(records, babyId, now, c)
    }

    function GetLastRecord(babyId: string, c: Clock): Option<FeedingRecord>
      reads this
    {
      LastRecord(records, babyId, c)
    }

    /** `clearError`. */
    method ClearError()
      modifies this
      ensures error == None && records == old(records)
    {
      error := None;
    }
  }
}
