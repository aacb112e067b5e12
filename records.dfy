/** The records the diary keeps (`src/types/baby.ts`, `feeding.ts`,
    `diaper.ts`): each record type, the input that creates one, and the
    partial input that updates one. */
module Records {
  import opened Wrappers
  import opened DateUtils

  datatype FeedingType = BreastDirect | BreastBottle | Formula
  datatype BreastSide = LeftSide | RightSide | BothSides
  datatype DiaperType = Pee | Poop | PeeAndPoop
  datatype PoopConsistency = Normal | Loose | Hard | Mucus | Bloody
  datatype Gender = Male | Female

  /** Text safe to put between the commas of a CSV line. */
  predicate PlainField(s: string) {
    ',' !in s && '\n' !in s
  }

  /** The string values the enumerations have in the source. */
  function FeedingTypeName(t: FeedingType): (s: string)
    ensures s != "" && PlainField(s)
  {
    match t
    case BreastDirect => "breast_direct"
    case BreastBottle => "breast_bottle"
    case Formula => "formula"
  }

  function BreastSideName(b: BreastSide): (s: string)
    ensures s != "" && PlainField(s)
  {
    match b
    case LeftSide => "left"
    case RightSide => "right"
    case BothSides => "both"
  }

  function DiaperTypeName(t: DiaperType): (s: string)
    ensures s != "" && PlainField(s)
  {
    match t
    case Pee => "pee"
    case Poop => "poop"
    case PeeAndPoop => "both"
  }

  function ConsistencyName(c: PoopConsistency): (s: string)
    ensures s != "" && PlainField(s)
  {
    match c
    case Normal => "normal"
    case Loose => "loose"
    case Hard => "hard"
    case Mucus => "mucus"
    case Bloody => "bloody"
  }

  function GenderName(g: Gender): (s: string)
    ensures s != "" && PlainField(s)
  {
    match g
    case Male => "male"
    case Female => "female"
  }

  /** Each enumeration writes its values under different names, so a CSV
      field determines the value. */
  lemma NamesDistinct(a: FeedingType, b: FeedingType, c: DiaperType, d: DiaperType,
                      e: PoopConsistency, f: PoopConsistency)
    ensures FeedingTypeName(a) == FeedingTypeName(b) ==> a == b
    ensures DiaperTypeName(c) == DiaperTypeName(d) ==> c == d
    ensures ConsistencyName(e) == ConsistencyName(f) ==> e == f
  {
    if FeedingTypeName(a) == FeedingTypeName(b) {
      assert FeedingTypeName(a)[|FeedingTypeName(a)| - 1] == FeedingTypeName(b)[|FeedingTypeName(b)| - 1];
    }
  }

  /** One field of an update input: absent (`Keep`) or given (`Put`). The
      object spread `{ ...record, ...input }` takes a given field, even a
      given `undefined`, over the record's own. */
  datatype Patch<+T> = Keep | Put(value: T) {
    function Apply(current: T): T {
      match this
      case Keep => current
      case Put(v) => v
    }
  }

  // ---------------------------------------------------------------------------
  // babies

  datatype Baby = Baby(id: string, name: string, birthDate: string, gender: Option<Gender>,
                       avatar: Option<string>, createdAt: string)

  /** `CreateBabyInput`. */
  datatype NewBaby = NewBaby(name: string, birthDate: string, gender: Option<Gender>, avatar: Option<string>)

  /** `UpdateBabyInput`: it has no `id` and no `createdAt`. */
  datatype BabyChanges = BabyChanges(name: Patch<string>, birthDate: Patch<string>,
                                     gender: Patch<Option<Gender>>, avatar: Patch<Option<string>>)

  const NoBabyChanges := BabyChanges(Keep, Keep, Keep, Keep)

  /** The baby `addBaby` builds from its input. */
  function CreateBaby(input: NewBaby, id: string, now: string): Baby {
    Baby(id, input.name, input.birthDate, input.gender, input.avatar, now)
  }

  /** `{ ...baby, ...input }`: an update never changes who the baby is. */
  function MergeBaby(b: Baby, u: BabyChanges): (r: Baby)
    ensures r.id == b.id && r.createdAt == b.createdAt
  {
    Baby(b.id, u.name.Apply(b.name), u.birthDate.Apply(b.birthDate),
         u.gender.Apply(b.gender), u.avatar.Apply(b.avatar), b.createdAt)
  }

  /** Applying the same update again changes nothing more, and an empty
      update changes nothing. */
  lemma MergeBabyIdempotent(b: Baby, u: BabyChanges)
    ensures MergeBaby(MergeBaby(b, u), u) == MergeBaby(b, u)
    ensures MergeBaby(b, NoBabyChanges) == b
  {
  }

  // ---------------------------------------------------------------------------
  // feedings

  datatype FeedingRecord = FeedingRecord(
    id: string, babyId: string, kind: FeedingType, amount: Option<real>, duration: Option<int>,
    breastSide: Option<BreastSide>, startTime: string, endTime: Option<string>,
    note: Option<string>, createdAt: string)

  /** `CreateFeedingInput`. */
  datatype NewFeeding = NewFeeding(
    babyId: string, kind: FeedingType, amount: Option<real>, duration: Option<int>,
    breastSide: Option<BreastSide>, startTime: string, endTime: Option<string>, note: Option<string>)

  /** `UpdateFeedingInput`: it has no `id`, `babyId` or `createdAt`. */
  datatype FeedingChanges = FeedingChanges(
    kind: Patch<FeedingType>, amount: Patch<Option<real>>, duration: Patch<Option<int>>,
    breastSide: Patch<Option<BreastSide>>, startTime: Patch<string>,
    endTime: Patch<Option<string>>, note: Patch<Option<string>>)

  const NoFeedingChanges := FeedingChanges(Keep, Keep, Keep, Keep, Keep, Keep, Keep)

  /** The record `addRecord` builds from its input. */
  function CreateFeeding(input: NewFeeding, id: string, now: string): FeedingRecord {
    FeedingRecord(id, input.babyId, input.kind, input.amount, input.duration, input.breastSide,
                  input.startTime, input.endTime, input.note, now)
  }

  /** `{ ...record, ...input }`: an update never moves a record to another
      baby nor changes its identity. */
  function MergeFeeding(r: FeedingRecord, u: FeedingChanges): (m: FeedingRecord)
    ensures m.id == r.id && m.babyId == r.babyId && m.createdAt == r.createdAt
  {
    FeedingRecord(r.id, r.babyId, u.kind.Apply(r.kind), u.amount.Apply(r.amount),
                  u.duration.Apply(r.duration), u.breastSide.Apply(r.breastSide),
                  u.startTime.Apply(r.startTime), u.endTime.Apply(r.endTime),
                  u.note.Apply(r.note), r.createdAt)
  }

  lemma MergeFeedingIdempotent(r: FeedingRecord, u: FeedingChanges)
    ensures MergeFeeding(MergeFeeding(r, u), u) == MergeFeeding(r, u)
    ensures MergeFeeding(r, NoFeedingChanges) == r
  {
  }

  // ---------------------------------------------------------------------------
  // diapers

  datatype DiaperRecord = DiaperRecord(
    id: string, babyId: string, kind: DiaperType, poopConsistency: Option<PoopConsistency>,
    time: string, note: Option<string>, createdAt: string)

  /** `CreateDiaperInput`. */
  datatype NewDiaper = NewDiaper(
    babyId: string, kind: DiaperType, poopConsistency: Option<PoopConsistency>,
    time: string, note: Option<string>)

  /** `UpdateDiaperInput`: it has no `id`, `babyId` or `createdAt`. */
  datatype DiaperChanges = DiaperChanges(
    kind: Patch<DiaperType>, poopConsistency: Patch<Option<PoopConsistency>>,
    time: Patch<string>, note: Patch<Option<string>>)

  const NoDiaperChanges := DiaperChanges(Keep, Keep, Keep, Keep)

  function CreateDiaper(input: NewDiaper, id: string, now: string): DiaperRecord {
    DiaperRecord(id, input.babyId, input.kind, input.poopConsistency, input.time, input.note, now)
  }

  function MergeDiaper(r: DiaperRecord, u: DiaperChanges): (m: DiaperRecord)
    ensures m.id == r.id && m.babyId == r.babyId && m.createdAt == r.createdAt
  {
    DiaperRecord(r.id, r.babyId, u.kind.Apply(r.kind), u.poopConsistency.Apply(r.poopConsistency),
                 u.time.Apply(r.time), u.note.Apply(r.note), r.createdAt)
  }

  lemma MergeDiaperIdempotent(r: DiaperRecord, u: DiaperChanges)
    ensures MergeDiaper(MergeDiaper(r, u), u) == MergeDiaper(r, u)
    ensures MergeDiaper(r, NoDiaperChanges) == r
  {
  }

  // ---------------------------------------------------------------------------
  // reading time strings

  /** How the app reads the ISO time strings it stores: `instant(s)` is
      `new Date(s).getTime()` (milliseconds), and `localDay(t)` is the day of
      the device's calendar that instant falls on. Both belong to the
      JavaScript engine and the device's time zone, so the model takes them
      as given. */
  datatype Clock = Clock(instant: string -> Timestamp, localDay: Timestamp -> Day)

  /** The local day of a time string. */
  function DayOfTime(c: Clock, s: string): Day {
    c.localDay(c.instant(s))
  }

  /** The `yyyy-MM-dd` key of a day. */
  function DayKey(n: Day): string {
    ToISODateString(DateOf(n))
  }

  /** Two days share a key exactly when they are the same day. */
  lemma DayKeyInjective(m: Day, n: Day)
    ensures DayKey(m) == DayKey(n) <==> m == n
  {
    if DayKey(m) == DayKey(n) {
      ISODateInjective(DateOf(m), DateOf(n));
      DayNumberOfDate(m);
      DayNumberOfDate(n);
    }
  }
}
