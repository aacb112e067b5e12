/** The persisted key-value storage behind the stores
    (`src/services/storage/mmkv.ts`): JSON values under fixed keys. */
module Storage {
  import opened Wrappers
  import opened Records

  const BabiesKey := "babies"
  const FeedingRecordsKey := "feeding_records"
  const DiaperRecordsKey := "diaper_records"
  const CurrentBabyIdKey := "current_baby_id"

  /** A stored JSON value, of the shapes the stores write. */
  datatype Stored =
    | BabyList(babies: seq<Baby>)
    | FeedingList(feedings: seq<FeedingRecord>)
    | DiaperList(diapers: seq<DiaperRecord>)
    | Text(text: string)
    | Null

  /** The message `setStoredData` throws when a write fails. */
  function SaveError(key: string): string {
    "Failed to save " + key
  }

  /** The device's storage: what each key holds, and the keys whose writes
      currently fail (a full disk, a revoked permission: the environment
      decides, the model records its decision). */
  class KeyValueStore {
    var entries: map<string, Stored>
    var failing: set<string>

    constructor(entries: map<string, Stored>, failing: set<string>)
      ensures this.entries == entries && this.failing == failing
    {
      this.entries := entries;
      this.failing := failing;
    }

    /** `getStoredData(key)`: the parsed value, or null when nothing (or
        JSON `null`) is stored. */
    function GetStoredData(key: string): (r: Option<Stored>)
      reads this
      ensures r.Some? <==> key in entries && entries[key] != Null
      ensures r.Some? ==> r.value == entries[key]
    {
      if key in entries && entries[key] != Null then Some(entries[key]) else None
    }

    /** `setStoredData(key, value)`: stores the value, or rejects with
        "Failed to save <key>" and stores nothing. */
    method SetStoredData(key: string, value: Stored) returns (r: Completion<()>)
      modifies this
      ensures failing == old(failing)
      ensures key in failing ==> r == Rejected(SaveError(key)) && entries == old(entries)
      ensures key !in failing ==> r == Resolved(()) && entries == old(entries)[key := value]
    {
      if key in failing {
        r := Rejected(SaveError(key));
      } else {
        entries := entries[key := value];
        r := Resolved(());
      }
    }
  }
}
