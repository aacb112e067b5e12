/** The diaper store (`src/stores/diaperStore.ts`): the diaper records and
    the last error. Actions write the whole new list to storage and update
    the store only after the write succeeds; queries filter by baby (and
    day) and list the latest change first. */
module DiaperStores {
  import opened Wrappers
  import opened DateUtils
  import opened Records
  import opened Sequences
  import opened Storage

  function HasId(id: string): DiaperRecord -> bool {
    (r: DiaperRecord) => r.id == id
  }

  function NotId(id: string): DiaperRecord -> bool {
    (r: DiaperRecord) => r.id != id
  }

  function OfBaby(babyId: string): DiaperRecord -> bool {
    (r: DiaperRecord) => r.babyId == babyId
  }

  function OfBabyOnDay(c: Clock, babyId: string, day: Day): DiaperRecord -> bool {
    (r: DiaperRecord) => r.babyId == babyId && DayOfTime(c, r.time) == day
  }

  /** The sort key: `new Date(r.time).getTime()`. */
  function TimeInstant(c: Clock): DiaperRecord -> int {
    (r: DiaperRecord) => c.instant(r.time)
  }

  /** Some record of the list has the id. */
  predicate Listed(records: seq<DiaperRecord>, id: string) {
    exists i :: 0 <= i < |records| && records[i].id == id
  }

  /** `storedRecords || []`. */
  function LoadedDiapers(stored: Option<Stored>): seq<DiaperRecord> {
    match stored
    case Some(DiaperList(records)) => records
    case _ => []
  }

  /** `getRecordsByBaby`: exactly the baby's records, each as often as it is
      stored, latest first; records with the same time keep their stored
      order. */
  function RecordsByBaby(records: seq<DiaperRecord>, babyId: string, c: Clock): (r: seq<DiaperRecord>)
    ensures forall i :: 0 <= i < |r| ==> r[i] in records && r[i].babyId == babyId
    ensures forall i :: 0 <= i < |records| && records[i].babyId == babyId ==> records[i] in r
    ensures multiset(r) == multiset(Filter(records, OfBaby(babyId)))
    ensures Descending(r, TimeInstant(c))
    ensures forall t :: Filter(r, KeyEquals(TimeInstant(c), t)) == Filter(Filter(records, OfBaby(babyId)), KeyEquals(TimeInstant(c), t))
  {
    FilterSorted(records, OfBaby(babyId), TimeInstant(c))
  }

  /** `getRecordsByDate`: the baby's records changed on the same local day
      as `date` (`toDateString` names the local day), latest first. */
  function RecordsByDate(records: seq<DiaperRecord>, babyId: string, date: string, c: Clock): (r: seq<DiaperRecord>)
    ensures forall i :: 0 <= i < |r| ==>
      r[i] in records && r[i].babyId == babyId && DayOfTime(c, r[i].time) == DayOfTime(c, date)
    ensures forall i :: (0 <= i < |records| && records[i].babyId == babyId
      && DayOfTime(c, records[i].time) == DayOfTime(c, date)) ==> records[i] in r
    ensures multiset(r) == multiset(Filter(records, OfBabyOnDay(c, babyId, DayOfTime(c, date))))
    ensures Descending(r, TimeInstant(c))
    ensures forall t :: Filter(r, KeyEquals(TimeInstant(c), t)) == Filter(Filter(records, OfBabyOnDay(c, babyId, DayOfTime(c, date))), KeyEquals(TimeInstant(c), t))
  {
    FilterSorted(records, OfBabyOnDay(c, babyId, DayOfTime(c, date)), TimeInstant(c))
  }

  /** `getTodayRecords`: the baby's records changed on today's local day. */
  function TodayRecords(records: seq<DiaperRecord>, babyId: string, now: Timestamp, c: Clock): (r: seq<DiaperRecord>)
    ensures forall i :: 0 <= i < |r| ==>
      r[i] in records && r[i].babyId == babyId && DayOfTime(c, r[i].time) == c.localDay(now)
    ensures forall i :: (0 <= i < |records| && records[i].babyId == babyId
      && DayOfTime(c, records[i].time) == c.localDay(now)) ==> records[i] in r
    ensures multiset(r) == multiset(Filter(records, OfBabyOnDay(c, babyId, c.localDay(now))))
    ensures Descending(r, TimeInstant(c))
    ensures forall t :: Filter(r, KeyEquals(TimeInstant(c), t)) == Filter(Filter(records, OfBabyOnDay(c, babyId, c.localDay(now))), KeyEquals(TimeInstant(c), t))
  {
    FilterSorted(records, OfBabyOnDay(c, babyId, c.localDay(now)), TimeInstant(c))
  }

  /** `getLastRecord`: null exactly when the baby has no records, otherwise
      the first of its records, in stored order, with the latest time (the
      sort is stable). */
  function LastRecord(records: seq<DiaperRecord>, babyId: string, c: Clock): (r: Option<DiaperRecord>)
    ensures r.None? <==> forall i :: 0 <= i < |records| ==> records[i].babyId != babyId
    ensures r.Some? ==>
      && r.value in records && r.value.babyId == babyId
      && forall i :: 0 <= i < |records| && records[i].babyId == babyId ==>
           c.instant(records[i].time) <= c.instant(r.value.time)
    ensures r.Some? ==>
      exists i :: (0 <= i < |records| && records[i] == r.value
                   && forall j :: 0 <= j < i && records[j].babyId == babyId ==>
                        c.instant(records[j].time) < c.instant(r.value.time))
  {
    FilterSortedHead(records, OfBaby(babyId), TimeInstant(c));
    FilterSortedFirst(records, OfBaby(babyId), TimeInstant(c));
    var babyRecords := FilterSorted(records, OfBaby(babyId), TimeInstant(c));
    if |babyRecords| > 0 then Some(babyRecords[0]) else None
  }

  /** `deleteRecord` removes exactly the records with the id, keeps the others
      in order, and is idempotent; an absent id leaves the list as it is. */
  lemma DeleteFilter(records: seq<DiaperRecord>, more: seq<DiaperRecord>, id: string)
    ensures forall i :: 0 <= i < |Filter(records, NotId(id))| ==> Filter(records, NotId(id))[i].id != id
    ensures forall i :: 0 <= i < |records| && records[i].id != id ==> records[i] in Filter(records, NotId(id))
    ensures Filter(records + more, NotId(id)) == Filter(records, NotId(id)) + Filter(more, NotId(id))
    ensures Filter(Filter(records, NotId(id)), NotId(id)) == Filter(records, NotId(id))
    ensures !Listed(records, id) ==> Filter(records, NotId(id)) == records
  {
    FilterAppend(records, more, NotId(id));
    FilterIdempotent(records, NotId(id));
    if !Listed(records, id) {
      FilterAll(records, NotId(id));
    }
  }

  /** An update changes one record and keeps every record's identity and
      baby, so each baby keeps the same number of records. */
  lemma UpdateKeepsBabies(records: seq<DiaperRecord>, i: nat, u: DiaperChanges, babyId: string)
    requires i < |records|
    ensures var updated := records[i := MergeDiaper(records[i], u)];
      && |updated| == |records|
      && (forall k :: 0 <= k < |records| ==> updated[k].id == records[k].id && updated[k].babyId == records[k].babyId)
      && Count(updated, OfBaby(babyId)) == Count(records, OfBaby(babyId))
  {
    var updated := records[i := MergeDiaper(records[i], u)];
    assert records == records[..i] + [records[i]] + records[i + 1..];
    assert updated == records[..i] + [updated[i]] + records[i + 1..];
    CountAppend(records[..i] + [records[i]], records[i + 1..], OfBaby(babyId));
    CountAppend(records[..i], [records[i]], OfBaby(babyId));
    CountAppend(records[..i] + [updated[i]], records[i + 1..], OfBaby(babyId));
    CountAppend(records[..i], [updated[i]], OfBaby(babyId));
  }

  class DiaperStore {
    var records: seq<DiaperRecord>
    var error: Option<string>
    const storage: KeyValueStore

    constructor(storage: KeyValueStore)
      ensures records == [] && error == None && this.storage == storage
    {
      records := [];
      error := None;
      this.storage := storage;
    }

    /** The store shows what storage holds. */
    predicate Persisted()
      reads this, storage
    {
      DiaperRecordsKey in storage.entries && storage.entries[DiaperRecordsKey] == DiaperList(records)
    }

    /** `loadRecords`. */
    method LoadRecords()
      modifies this
      ensures records == LoadedDiapers(storage.GetStoredData(DiaperRecordsKey))
      ensures error == None
    {
      error := None;
      var stored := storage.GetStoredData(DiaperRecordsKey);
      records := LoadedDiapers(stored);
    }

    /** `addRecord`: appends one record built from the input, with the fresh
        id and `createdAt` = now. */
    method AddRecord(input: NewDiaper, id: string, now: string) returns (r: Completion<DiaperRecord>)
      modifies this, storage
      ensures storage.failing == old(storage.failing)
      ensures DiaperRecordsKey in storage.failing ==>
        r == Rejected(SaveError(DiaperRecordsKey)) && records == old(records) && error == old(error)
        && storage.entries == old(storage.entries)
      ensures DiaperRecordsKey !in storage.failing ==>
        r == Resolved(CreateDiaper(input, id, now)) && records == old(records) + [r.value]
        && error == None && Persisted()
        && storage.entries == old(storage.entries)[DiaperRecordsKey := DiaperList(records)]
    {
      var newRecord := CreateDiaper(input, id, now);
      var updated := records + [newRecord];
      var w := storage.SetStoredData(DiaperRecordsKey, DiaperList(updated));
      if w.Rejected? {
        return Rejected(w.message);
      }
      records := updated;
      error := None;
      r := Resolved(newRecord);
    }

    /** `updateRecord`: merges the input into the first record with the id;
        an absent id records "Record not found" and resolves to null. */
    method UpdateRecord(id: string, input: DiaperChanges) returns (r: Completion<Option<DiaperRecord>>)
      modifies this, storage
      ensures storage.failing == old(storage.failing)
      ensures !Listed(old(records), id) ==>
        r == Resolved(None) && records == old(records) && error == Some("Record not found")
        && storage.entries == old(storage.entries)
      ensures Listed(old(records), id) ==>
        var i := FindIndex(old(records), HasId(id));
        var updated := old(records)[i := MergeDiaper(old(records)[i], input)];
        if DiaperRecordsKey in storage.failing then
          r == Rejected(SaveError(DiaperRecordsKey)) && records == old(records) && error == old(error)
          && storage.entries == old(storage.entries)
        else
          r == Resolved(Some(updated[i])) && records == updated && error == None && Persisted()
          && storage.entries == old(storage.entries)[DiaperRecordsKey := DiaperList(updated)]
    {
      var i := FindIndex(records, HasId(id));
      if i == -1 {
        error := Some("Record not found");
        return Resolved(None);
      }
      var updatedRecord := MergeDiaper(records[i], input);
      var updated := records[i := updatedRecord];
      var w := storage.SetStoredData(DiaperRecordsKey, DiaperList(updated));
      if w.Rejected? {
        return Rejected(w.message);
      }
      records := updated;
      error := None;
      r := Resolved(Some(updatedRecord));
    }

    /** `deleteRecord`: drops every record with the id. */
    method DeleteRecord(id: string) returns (r: Completion<()>)
      modifies this, storage
      ensures storage.failing == old(storage.failing)
      ensures DiaperRecordsKey in storage.failing ==>
        r == Rejected(SaveError(DiaperRecordsKey)) && records == old(records) && error == old(error)
        && storage.entries == old(storage.entries)
      ensures DiaperRecordsKey !in storage.failing ==>
        r == Resolved(()) && records == Filter(old(records), NotId(id)) && error == None && Persisted()
        && storage.entries == old(storage.entries)[DiaperRecordsKey := DiaperList(records)]
    {
      var remaining := Filter(records, NotId(id));
      var w := storage.SetStoredData(DiaperRecordsKey, DiaperList(remaining));
      if w.Rejected? {
        return Rejected(w.message);
      }
      records := remaining;
      error := None;
      r := Resolved(());
    }

    function GetRecordsByBaby(babyId: string, c: Clock): seq<DiaperRecord>
      reads this
    {
      RecordsByBaby(records, babyId, c)
    }

    function GetRecordsByDate(babyId: string, date: string, c: Clock): seq<DiaperRecord>
      reads this
    {
      RecordsByDate(records, babyId, date, c)
    }

    function GetTodayRecords(babyId: string, now: Timestamp, c: Clock): seq<DiaperRecord>
      reads this
    {
      TodayRecords(records, babyId, now, c)
    }

    function GetLastRecord(babyId: string, c: Clock): Option<DiaperRecord>
      reads this
    {
      LastRecord(records, babyId, c)
    }

    /** `clearError`. */
    method ClearError()
      modifies this
      ensures error == None && records == old(records)
    {
      error := None;
    }
  }
}
