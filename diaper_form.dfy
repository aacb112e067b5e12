/** The diaper form (`src/components/diaper/DiaperForm.tsx`): its starting
    fields, the one check `validateForm` makes, and the input `handleSubmit`
    hands to `onSubmit`. */
module DiaperForms {
  import opened Wrappers
  import opened Text
  import opened Records

  datatype FormData = FormData(kind: DiaperType, poopConsistency: Option<PoopConsistency>, time: string, note: string)

  datatype FormErrors = FormErrors(time: Option<string>)

  const NoErrors := FormErrors(None)

  const TimeMessage := "请选择时间"

  /** The object `handleSubmit` builds; `poopConsistency` is `None` where it
      leaves the key out. */
  datatype Submission = Submission(
    babyId: string, kind: DiaperType, time: string, note: Option<string>,
    poopConsistency: Option<PoopConsistency>)

  /** `hasPoop`: the change has poop in it. */
  predicate HasPoop(kind: DiaperType) {
    kind == Poop || kind == PeeAndPoop
  }

  /** The starting fields: the record's own values when one is edited, a
      change with both pee and poop at `now` otherwise. */
  function InitialFormData(record: Option<DiaperRecord>, now: string): (d: FormData)
    ensures record.None? ==> d == FormData(PeeAndPoop, None, now, "")
    ensures record.Some? ==>
      && d.kind == record.value.kind && d.poopConsistency == record.value.poopConsistency
      && (record.value.time != "" ==> d.time == record.value.time)
      && (record.value.time == "" ==> d.time == now)
      && NonEmpty(d.note) == (if record.value.note == Some("") then None else record.value.note)
  {
    match record
    case None => FormData(PeeAndPoop, None, now, "")
    case Some(r) => FormData(r.kind, r.poopConsistency, OrElse(r.time, now), TextOrEmpty(r.note))
  }

  /** The errors `validateForm` finds: only a missing time. */
  function ErrorsOf(d: FormData): (e: FormErrors)
    ensures e.time.Some? <==> d.time == ""
    ensures e.time.Some? ==> e.time.value == TimeMessage
  {
    if d.time == "" then FormErrors(Some(TimeMessage)) else NoErrors
  }

  predicate Accepted(d: FormData) {
    ErrorsOf(d) == NoErrors
  }

  /** The input `handleSubmit` builds: a consistency only for a change with
      poop in it, and an empty note left undefined. */
  function SubmissionOf(babyId: string, d: FormData): (s: Submission)
    requires Accepted(d)
    ensures s.babyId == babyId && s.kind == d.kind && s.time == d.time && s.time != ""
    ensures s.note == NonEmpty(d.note)
    ensures s.poopConsistency.Some? <==> HasPoop(d.kind) && d.poopConsistency.Some?
    ensures s.poopConsistency.Some? ==> s.poopConsistency == d.poopConsistency
  {
    Submission(babyId, d.kind, d.time, NonEmpty(d.note),
               if HasPoop(d.kind) then d.poopConsistency else None)
  }

  /** The submission read as `CreateDiaperInput`. */
  function AsNewDiaper(s: Submission): (n: NewDiaper)
    ensures n.babyId == s.babyId && n.kind == s.kind && n.time == s.time
    ensures n.note == s.note && n.poopConsistency == s.poopConsistency
  {
    NewDiaper(s.babyId, s.kind, s.poopConsistency, s.time, s.note)
  }

  /** The submission read as `UpdateDiaperInput`: type, time and note are
      always given; the consistency only when the submission has one, so a
      stored consistency is kept otherwise. */
  function AsDiaperChanges(s: Submission): (u: DiaperChanges)
    ensures u.kind == Put(s.kind) && u.time == Put(s.time) && u.note == Put(s.note)
    ensures u.poopConsistency == (if s.poopConsistency.Some? then Put(s.poopConsistency) else Keep)
  {
    DiaperChanges(Put(s.kind), if s.poopConsistency.Some? then Put(s.poopConsistency) else Keep,
                  Put(s.time), Put(s.note))
  }

  /** A new change built from the form never records a consistency for a
      change without poop. */
  lemma NewChangeConsistency(babyId: string, d: FormData, id: string, now: string)
    requires Accepted(d)
    ensures var r := CreateDiaper(AsNewDiaper(SubmissionOf(babyId, d)), id, now);
      && r.babyId == babyId && r.kind == d.kind && r.time == d.time
      && (r.poopConsistency.Some? ==> HasPoop(r.kind))
  {
  }

  /** A stored change the form can show and save back as it is: a time, and
      no note that is the empty string (the form writes an empty one as
      absent). A consistency left behind by a switch to pee only does not
      matter: the update keeps it. */
  predicate Reopenable(r: DiaperRecord) {
    r.time != "" && r.note != Some("")
  }

  /** Opening such a change and saving it without an edit passes the check
      and leaves it exactly as it was. */
  lemma UneditedSaveKeepsRecord(r: DiaperRecord, now: string)
    requires Reopenable(r)
    ensures Accepted(InitialFormData(Some(r), now))
    ensures MergeDiaper(r, AsDiaperChanges(SubmissionOf(r.babyId, InitialFormData(Some(r), now)))) == r
  {
  }

  /** Switching a stored change with poop to pee only keeps its stored
      consistency: the submission leaves the key out instead of clearing it. */
  lemma SwitchKeepsConsistency(r: DiaperRecord, babyId: string, d: FormData)
    requires Accepted(d) && !HasPoop(d.kind)
    ensures var m := MergeDiaper(r, AsDiaperChanges(SubmissionOf(babyId, d)));
      m.kind == d.kind && m.poopConsistency == r.poopConsistency
  {
  }

  class DiaperForm {
    const babyId: string
    var formData: FormData
    var errors: FormErrors

    constructor(babyId: string, record: Option<DiaperRecord>, now: string)
      ensures this.babyId == babyId
      ensures formData == InitialFormData(record, now) && errors == NoErrors
    {
      this.babyId := babyId;
      formData := InitialFormData(record, now);
      errors := NoErrors;
    }

    /** `validateForm`. */
    method ValidateForm() returns (ok: bool)
      modifies this
      ensures formData == old(formData) && errors == ErrorsOf(formData)
      ensures ok <==> Accepted(formData)
    {
      var newErrors := NoErrors;
      if formData.time == "" {
        newErrors := newErrors.(time := Some(TimeMessage));
      }
      errors := newErrors;
      ok := newErrors == NoErrors;
    }

    /** `handleSubmit`: nothing is submitted unless the check passes. */
    method HandleSubmit() returns (submitted: Option<Submission>)
      modifies this
      ensures formData == old(formData) && errors == ErrorsOf(formData)
      ensures submitted.Some? <==> Accepted(formData)
      ensures submitted.Some? ==> submitted.value == SubmissionOf(babyId, formData)
    {
      var ok := ValidateForm();
      if !ok {
        return None;
      }
      var s := Submission(babyId, formData.kind, formData.time, NonEmpty(formData.note), None);
      if HasPoop(formData.kind) && formData.poopConsistency.Some? {
        s := s.(poopConsistency := formData.poopConsistency);
      }
      submitted := Some(s);
    }
  }
}
