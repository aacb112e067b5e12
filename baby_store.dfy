/** The baby store (`src/stores/babyStore.ts`): the list of babies, the id of
    the baby currently shown, and the last error. Every action builds the new
    list first, awaits the storage write, and only then updates the store, so
    a failed write leaves the store as it was. */
module BabyStores {
  import opened Wrappers
  import opened Records
  import opened Sequences
  import opened Storage

  /** JavaScript truthiness of a `string | null`: null and "" are false. */
  predicate Truthy(id: Option<string>) {
    id.Some? && id.value != ""
  }

  function HasId(id: string): Baby -> bool {
    (b: Baby) => b.id == id
  }

  function NotId(id: string): Baby -> bool {
    (b: Baby) => b.id != id
  }

  /** Some baby of the list has the id. */
  predicate Listed(babies: seq<Baby>, id: string) {
    exists i :: 0 <= i < |babies| && babies[i].id == id
  }

  /** The store's invariant: the current id is null or names a listed baby. */
  predicate CurrentListed(babies: seq<Baby>, current: Option<string>) {
    current.Some? ==> Listed(babies, current.value)
  }

  /** `storedBabies || []`: the stored list, or none (a value of another
      shape, which the app never writes, reads as none). */
  function LoadedBabies(stored: Option<Stored>): seq<Baby> {
    match stored
    case Some(BabyList(babies)) => babies
    case _ => []
  }

  /** `storedCurrentId || babies[0]?.id || null`. */
  function LoadedCurrent(stored: Option<Stored>, babies: seq<Baby>): (r: Option<string>)
    ensures (stored.Some? && stored.value.Text? && stored.value.text != "") ==> r == Some(stored.value.text)
    ensures !(stored.Some? && stored.value.Text? && stored.value.text != "") ==>
      r == (if |babies| > 0 then Some(babies[0].id) else None)
  {
    match stored
    case Some(Text(id)) => if id != "" then Some(id) else FirstId(babies)
    case _ => FirstId(babies)
  }

  function FirstId(babies: seq<Baby>): Option<string> {
    if |babies| > 0 then Some(babies[0].id) else None
  }

  /** Loading establishes the invariant when no id is stored, but a stored id
      is taken without looking at the list. */
  lemma LoadedCurrentListed(stored: Option<Stored>, babies: seq<Baby>)
    ensures !(stored.Some? && stored.value.Text? && stored.value.text != "") ==>
      CurrentListed(babies, LoadedCurrent(stored, babies))
    ensures var dangling := Some(Text("x"));
      !CurrentListed([], LoadedCurrent(dangling, []))
  {
    if |babies| > 0 {
      assert babies[0].id == babies[0].id;
    }
  }

  /** `state.currentBabyId || newBaby.id`. */
  function CurrentAfterAdd(current: Option<string>, id: string): (r: Option<string>)
    ensures Truthy(current) ==> r == current
    ensures !Truthy(current) ==> r == Some(id)
  {
    if Truthy(current) then current else Some(id)
  }

  /** The current id after deleting `id`: if it was the deleted baby, the
      first remaining baby, or null when none remains. */
  function CurrentAfterDelete(current: Option<string>, id: string, remaining: seq<Baby>): Option<string> {
    if current == Some(id) then FirstId(remaining) else current
  }

  /** `addBaby` keeps the invariant. */
  lemma AddKeepsCurrentListed(babies: seq<Baby>, current: Option<string>, b: Baby)
    requires CurrentListed(babies, current)
    ensures CurrentListed(babies + [b], CurrentAfterAdd(current, b.id))
  {
    var added := babies + [b];
    assert added[|babies|].id == b.id;
    if current.Some? && Truthy(current) {
      var i :| 0 <= i < |babies| && babies[i].id == current.value;
      assert added[i] == babies[i];
    }
  }

  /** `deleteBaby` removes exactly the babies with the id and keeps the rest
      in order; deleting again, or deleting an absent id, changes nothing. */
  lemma DeleteBabyFilter(babies: seq<Baby>, more: seq<Baby>, id: string)
    ensures forall i :: 0 <= i < |Filter(babies, NotId(id))| ==> Filter(babies, NotId(id))[i].id != id
    ensures forall i :: 0 <= i < |babies| && babies[i].id != id ==> babies[i] in Filter(babies, NotId(id))
    ensures Filter(babies + more, NotId(id)) == Filter(babies, NotId(id)) + Filter(more, NotId(id))
    ensures Filter(Filter(babies, NotId(id)), NotId(id)) == Filter(babies, NotId(id))
    ensures !Listed(babies, id) ==> Filter(babies, NotId(id)) == babies
  {
    FilterAppend(babies, more, NotId(id));
    FilterIdempotent(babies, NotId(id));
    if !Listed(babies, id) {
      FilterAll(babies, NotId(id));
    }
  }

  /** `deleteBaby` keeps the invariant. */
  lemma DeleteKeepsCurrentListed(babies: seq<Baby>, current: Option<string>, id: string)
    requires CurrentListed(babies, current)
    ensures var remaining := Filter(babies, NotId(id));
      CurrentListed(remaining, CurrentAfterDelete(current, id, remaining))
  {
    var remaining := Filter(babies, NotId(id));
    if current == Some(id) {
      if |remaining| > 0 {
        assert remaining[0].id == remaining[0].id;
      }
    } else if current.Some? {
      var i :| 0 <= i < |babies| && babies[i].id == current.value;
      assert NotId(id)(babies[i]);
      var k :| 0 <= k < |remaining| && remaining[k] == babies[i];
    }
  }

  /** `updateBaby` keeps every id, hence the invariant. */
  lemma UpdateKeepsCurrentListed(babies: seq<Baby>, current: Option<string>, i: nat, u: BabyChanges)
    requires i < |babies| && CurrentListed(babies, current)
    ensures CurrentListed(babies[i := MergeBaby(babies[i], u)], current)
  {
    var updated := babies[i := MergeBaby(babies[i], u)];
    if current.Some? {
      var k :| 0 <= k < |babies| && babies[k].id == current.value;
      assert updated[k].id == babies[k].id;
    }
  }

  /** `getCurrentBaby`: the first listed baby the current id names, or null
      when there is no current id or it names no listed baby. */
  function CurrentBabyOf(babies: seq<Baby>, current: Option<string>): (r: Option<Baby>)
    ensures r.Some? ==> Truthy(current) && r.value in babies && r.value.id == current.value
    ensures r.Some? ==>
      exists i :: (0 <= i < |babies| && babies[i] == r.value
                   && forall j :: 0 <= j < i ==> babies[j].id != current.value)
    ensures r.None? <==> !Truthy(current) || !Listed(babies, current.value)
  {
    if !Truthy(current) then None
    else
      var i := FindIndex(babies, HasId(current.value));
      if i < 0 then
        assert forall k :: 0 <= k < |babies| ==> !HasId(current.value)(babies[k]);
        None
      else
        assert forall k :: 0 <= k < i ==> !HasId(current.value)(babies[k]);
        Some(babies[i])
  }

  class BabyStore {
    var babies: seq<Baby>
    var currentBabyId: Option<string>
    var error: Option<string>
    const storage: KeyValueStore

    constructor(storage: KeyValueStore)
      ensures babies == [] && currentBabyId == None && error == None && this.storage == storage
    {
      babies := [];
      currentBabyId := None;
      error := None;
      this.storage := storage;
    }

    predicate Valid()
      reads this
    {
      CurrentListed(babies, currentBabyId)
    }

    /** `loadBabies`. */
    method LoadBabies()
      modifies this
      ensures babies == LoadedBabies(storage.GetStoredData(BabiesKey))
      ensures currentBabyId == LoadedCurrent(storage.GetStoredData(CurrentBabyIdKey), babies)
      ensures error == None
    {
      error := None;
      var storedBabies := storage.GetStoredData(BabiesKey);
      var storedCurrentId := storage.GetStoredData(CurrentBabyIdKey);
      babies := LoadedBabies(storedBabies);
      currentBabyId := LoadedCurrent(storedCurrentId, babies);
    }

    /** `addBaby`: appends the new baby, and makes it current when no baby
        was. The list is written first, then (only when the current id
        changes) the current id; the store changes only once both writes
        have succeeded. */
    method AddBaby(input: NewBaby, id: string, now: string) returns (r: Completion<Baby>)
      modifies this, storage
      ensures storage.failing == old(storage.failing)
      ensures r.Resolved? <==>
        BabiesKey !in storage.failing && (Truthy(old(currentBabyId)) || CurrentBabyIdKey !in storage.failing)
      ensures BabiesKey in storage.failing ==>
        r == Rejected(SaveError(BabiesKey)) && storage.entries == old(storage.entries)
      ensures r.Rejected? ==>
        babies == old(babies) && currentBabyId == old(currentBabyId) && error == old(error)
      ensures BabiesKey !in storage.failing && r.Rejected? ==>
        r == Rejected(SaveError(CurrentBabyIdKey))
        && storage.entries == old(storage.entries)[BabiesKey := BabyList(old(babies) + [CreateBaby(input, id, now)])]
      ensures r.Resolved? ==>
        r.value == CreateBaby(input, id, now)
        && babies == old(babies) + [r.value]
        && currentBabyId == CurrentAfterAdd(old(currentBabyId), id)
        && error == None
        && storage.entries == (if Truthy(old(currentBabyId))
                               then old(storage.entries)[BabiesKey := BabyList(babies)]
                               else old(storage.entries)[BabiesKey := BabyList(babies)][CurrentBabyIdKey := Text(id)])
      ensures old(Valid()) ==> Valid()
    {
      var newBaby := CreateBaby(input, id, now);
      var updatedBabies := babies + [newBaby];
      var w := storage.SetStoredData(BabiesKey, BabyList(updatedBabies));
      if w.Rejected? {
        return Rejected(w.message);
      }
      var newCurrentId := CurrentAfterAdd(currentBabyId, newBaby.id);
      if !Truthy(currentBabyId) {
        w := storage.SetStoredData(CurrentBabyIdKey, Text(id));
        if w.Rejected? {
          return Rejected(w.message);
        }
      }
      if Valid() {
        AddKeepsCurrentListed(babies, currentBabyId, newBaby);
      }
      babies := updatedBabies;
      currentBabyId := newCurrentId;
      error := None;
      r := Resolved(newBaby);
    }

    /** `updateBaby`: merges the input into the first baby with the id. An
        absent id records "Baby not found" and resolves to null. */
    method UpdateBaby(id: string, input: BabyChanges) returns (r: Completion<Option<Baby>>)
      modifies this, storage
      ensures storage.failing == old(storage.failing) && currentBabyId == old(currentBabyId)
      ensures !Listed(old(babies), id) ==>
        r == Resolved(None) && babies == old(babies) && error == Some("Baby not found")
        && storage.entries == old(storage.entries)
      ensures Listed(old(babies), id) ==>
        var i := FindIndex(old(babies), HasId(id));
        var updated := old(babies)[i := MergeBaby(old(babies)[i], input)];
        if BabiesKey in storage.failing then
          r == Rejected(SaveError(BabiesKey)) && babies == old(babies) && error == old(error)
          && storage.entries == old(storage.entries)
        else
          r == Resolved(Some(updated[i])) && babies == updated && error == None
          && storage.entries == old(storage.entries)[BabiesKey := BabyList(updated)]
      ensures old(Valid()) ==> Valid()
    {
      var i := FindIndex(babies, HasId(id));
      if i == -1 {
        error := Some("Baby not found");
        return Resolved(None);
      }
      var updatedBaby := MergeBaby(babies[i], input);
      var updated := babies[i := updatedBaby];
      var w := storage.SetStoredData(BabiesKey, BabyList(updated));
      if w.Rejected? {
        return Rejected(w.message);
      }
      if Valid() {
        UpdateKeepsCurrentListed(babies, currentBabyId, i, input);
      }
      babies := updated;
      error := None;
      r := Resolved(Some(updatedBaby));
    }

    /** `deleteBaby`: removes the babies with the id and, when the current
        baby was deleted, moves current to the first remaining baby (or null)
        and persists that. Nothing else is deleted: the baby's feeding and
        diaper records stay in their stores. */
    method DeleteBaby(id: string) returns (r: Completion<()>)
      modifies this, storage
      ensures storage.failing == old(storage.failing)
      ensures var remaining := Filter(old(babies), NotId(id));
        var current := CurrentAfterDelete(old(currentBabyId), id, remaining);
        var written := old(storage.entries)[BabiesKey := BabyList(remaining)];
        && (BabiesKey in storage.failing ==>
              r == Rejected(SaveError(BabiesKey)) && storage.entries == old(storage.entries))
        && (BabiesKey !in storage.failing && old(currentBabyId) != Some(id) ==>
              r == Resolved(()) && storage.entries == written)
        && (BabiesKey !in storage.failing && old(currentBabyId) == Some(id) ==>
              if CurrentBabyIdKey in storage.failing then
                r == Rejected(SaveError(CurrentBabyIdKey)) && storage.entries == written
              else
                r == Resolved(())
                && storage.entries == written[CurrentBabyIdKey := if Truthy(current) then Text(current.value) else Null])
        && (r.Resolved? ==> babies == remaining && currentBabyId == current && error == None)
        && (r.Rejected? ==> babies == old(babies) && currentBabyId == old(currentBabyId) && error == old(error))
      ensures old(Valid()) ==> Valid()
    {
      var remaining := Filter(babies, NotId(id));
      var w := storage.SetStoredData(BabiesKey, BabyList(remaining));
      if w.Rejected? {
        return Rejected(w.message);
      }
      var current := currentBabyId;
      if current == Some(id) {
        current := FirstId(remaining);
        if Truthy(current) {
          w := storage.SetStoredData(CurrentBabyIdKey, Text(current.value));
        } else {
          w := storage.SetStoredData(CurrentBabyIdKey, Null);
        }
        if w.Rejected? {
          return Rejected(w.message);
        }
      }
      if Valid() {
        DeleteKeepsCurrentListed(babies, currentBabyId, id);
      }
      babies := remaining;
      currentBabyId := current;
      error := None;
      r := Resolved(());
    }

    /** `setCurrentBaby`: an id no baby has records "Baby not found" and
        changes nothing else; a listed id is persisted, then made current. */
    method SetCurrentBaby(id: string) returns (r: Completion<()>)
      modifies this, storage
      ensures storage.failing == old(storage.failing) && babies == old(babies)
      ensures !Listed(babies, id) ==>
        r == Resolved(()) && currentBabyId == old(currentBabyId) && error == Some("Baby not found")
        && storage.entries == old(storage.entries)
      ensures Listed(babies, id) && CurrentBabyIdKey in storage.failing ==>
        r == Rejected(SaveError(CurrentBabyIdKey)) && currentBabyId == old(currentBabyId)
        && error == old(error) && storage.entries == old(storage.entries)
      ensures Listed(babies, id) && CurrentBabyIdKey !in storage.failing ==>
        r == Resolved(()) && currentBabyId == Some(id) && error == None
        && storage.entries == old(storage.entries)[CurrentBabyIdKey := Text(id)]
      ensures old(Valid()) ==> Valid()
    {
      var i := FindIndex(babies, HasId(id));
      if i == -1 {
        error := Some("Baby not found");
        return Resolved(());
      }
      var w := storage.SetStoredData(CurrentBabyIdKey, Text(id));
      if w.Rejected? {
        return Rejected(w.message);
      }
      currentBabyId := Some(id);
      error := None;
      r := Resolved(());
    }

    /** `getCurrentBaby`. */
    function GetCurrentBaby(): Option<Baby>
      reads this
    {
      CurrentBabyOf(babies, currentBabyId)
    }

    /** `clearError`. */
    method ClearError()
      modifies this
      ensures error == None && babies == old(babies) && currentBabyId == old(currentBabyId)
    {
      error := None;
    }
  }
}
