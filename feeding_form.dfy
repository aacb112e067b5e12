/** The feeding form (`src/components/feeding/FeedingForm.tsx`): the fields it
    starts from, the checks `validateForm` makes, and the input `handleSubmit`
    hands to `onSubmit`, which the screens pass on to `addRecord` or
    `updateRecord`. */
module FeedingForms {
  import opened Wrappers
  import opened Text
  import opened Records

  /** The form's fields, all as the text inputs hold them. */
  datatype FormData = FormData(
    kind: FeedingType, amount: string, duration: string, breastSide: Option<BreastSide>,
    startTime: string, endTime: string, note: string)

  /** One message per field that failed its check. */
  datatype FormErrors = FormErrors(amount: Option<string>, duration: Option<string>, startTime: Option<string>)

  const NoErrors := FormErrors(None, None, None)

  const AmountMessage := "请输入有效的食量"
  const DurationMessage := "请输入有效的时长"
  const StartTimeMessage := "请选择开始时间"

  /** The object `handleSubmit` builds: `amount`, `duration` and `breastSide`
      are `None` where it leaves the key out. */
  datatype Submission = Submission(
    babyId: string, kind: FeedingType, startTime: string, endTime: Option<string>, note: Option<string>,
    amount: Option<real>, duration: Option<int>, breastSide: Option<BreastSide>)

  /** `amount?.toString() || ''`. */
  function AmountText(amount: Option<real>, numberText: real -> string): string {
    match amount
    case Some(v) => OrElse(numberText(v), "")
    case None => ""
  }

  /** `duration?.toString() || ''`: `parseInt` reads the minutes back. */
  function DurationText(duration: Option<int>): (t: string)
    ensures duration.None? ==> t == ""
    ensures duration.Some? ==> ParseInt(t) == duration && t == IntText(duration.value)
  {
    match duration
    case Some(m) => ParseIntOfIntText(m); IntText(m)
    case None => ""
  }

  /** The starting fields: the record's own values when one is edited, a
      breast feeding starting now otherwise. `numberText` is
      `Number.prototype.toString` on amounts. */
  function InitialFormData(record: Option<FeedingRecord>, now: string, numberText: real -> string): (d: FormData)
    ensures record.None? ==> d == FormData(BreastDirect, "", "", None, now, "", "")
    ensures record.Some? ==>
      && d.kind == record.value.kind
      && d.breastSide == record.value.breastSide
      && (record.value.startTime != "" ==> d.startTime == record.value.startTime)
      && (record.value.startTime == "" ==> d.startTime == now)
      && (record.value.amount.None? ==> d.amount == "")
      && (record.value.amount.Some? ==> d.amount == numberText(record.value.amount.value))
      && (record.value.duration.None? ==> d.duration == "")
      && (record.value.duration.Some? ==> d.duration == IntText(record.value.duration.value))
      && (record.value.duration.Some? ==> ParseInt(d.duration) == record.value.duration)
      && (record.value.endTime.None? ==> d.endTime == "")
      && (record.value.endTime.Some? ==> d.endTime == record.value.endTime.value)
      && (record.value.note.None? ==> d.note == "")
      && (record.value.note.Some? ==> d.note == record.value.note.value)
  {
    match record
    case None => FormData(BreastDirect, "", "", None, now, "", "")
    case Some(r) =>
      FormData(r.kind, AmountText(r.amount, numberText), DurationText(r.duration), r.breastSide,
               OrElse(r.startTime, now),
               TextOrEmpty(r.endTime), TextOrEmpty(r.note))
  }

  /** `parseFloat(amount)` is a number above zero. */
  predicate ValidAmount(amount: string) {
    amount != "" && ParseFloat(amount).Some? && ParseFloat(amount).value > 0.0
  }

  /** `parseInt(duration, 10)` is a number above zero. */
  predicate ValidDuration(duration: string) {
    duration != "" && ParseInt(duration).Some? && ParseInt(duration).value > 0
  }

  /** The errors `validateForm` finds: an amount is needed unless the baby is
      breast-fed directly, a duration exactly then, and a start time always. */
  function ErrorsOf(d: FormData): (e: FormErrors)
    ensures e.amount.Some? <==> d.kind != BreastDirect && !ValidAmount(d.amount)
    ensures e.duration.Some? <==> d.kind == BreastDirect && !ValidDuration(d.duration)
    ensures e.startTime.Some? <==> d.startTime == ""
    ensures e.amount.Some? ==> e.amount.value == AmountMessage
    ensures e.duration.Some? ==> e.duration.value == DurationMessage
    ensures e.startTime.Some? ==> e.startTime.value == StartTimeMessage
    ensures e.amount.None? || e.duration.None?
  {
    FormErrors(
      if d.kind != BreastDirect && !ValidAmount(d.amount) then Some(AmountMessage) else None,
      if d.kind == BreastDirect && !ValidDuration(d.duration) then Some(DurationMessage) else None,
      if d.startTime == "" then Some(StartTimeMessage) else None)
  }

  /** The form passes its checks. */
  predicate Accepted(d: FormData) {
    ErrorsOf(d) == NoErrors
  }

  /** The input `handleSubmit` builds from accepted fields: a direct breast
      feeding carries a duration and possibly a side and never an amount; a
      bottle or formula feeding carries an amount and never a duration or a
      side; empty end time and note are left undefined. */
  function SubmissionOf(babyId: string, d: FormData): (s: Submission)
    requires Accepted(d)
    ensures s.babyId == babyId && s.kind == d.kind && s.startTime == d.startTime && s.startTime != ""
    ensures s.endTime == NonEmpty(d.endTime) && s.note == NonEmpty(d.note)
    ensures d.kind == BreastDirect ==>
      && s.amount.None? && s.breastSide == d.breastSide
      && s.duration == ParseInt(d.duration) && s.duration.Some? && s.duration.value > 0
    ensures d.kind != BreastDirect ==>
      && s.duration.None? && s.breastSide.None?
      && s.amount == ParseFloat(d.amount) && s.amount.Some? && s.amount.value > 0.0
  {
    var direct := d.kind == BreastDirect;
    Submission(babyId, d.kind, d.startTime, NonEmpty(d.endTime), NonEmpty(d.note),
               if !direct && d.amount != "" then ParseFloat(d.amount) else None,
               if direct && d.duration != "" then ParseInt(d.duration) else None,
               if direct then d.breastSide else None)
  }

  /** The submission read as `CreateFeedingInput`. */
  function AsNewFeeding(s: Submission): (n: NewFeeding)
    ensures n.babyId == s.babyId && n.kind == s.kind && n.startTime == s.startTime
    ensures n.amount == s.amount && n.duration == s.duration && n.breastSide == s.breastSide
    ensures n.endTime == s.endTime && n.note == s.note
  {
    NewFeeding(s.babyId, s.kind, s.amount, s.duration, s.breastSide, s.startTime, s.endTime, s.note)
  }

  /** The submission read as `UpdateFeedingInput`, spread over the stored
      record: type, start, end and note are always given (an undefined end
      or note clears the stored one); amount, duration and side only when
      the submission has them, so a stored value is kept otherwise. */
  function AsFeedingChanges(s: Submission): (u: FeedingChanges)
    ensures u.kind == Put(s.kind) && u.startTime == Put(s.startTime)
    ensures u.endTime == Put(s.endTime) && u.note == Put(s.note)
    ensures u.amount == (if s.amount.Some? then Put(s.amount) else Keep)
    ensures u.duration == (if s.duration.Some? then Put(s.duration) else Keep)
    ensures u.breastSide == (if s.breastSide.Some? then Put(s.breastSide) else Keep)
  {
    FeedingChanges(Put(s.kind), if s.amount.Some? then Put(s.amount) else Keep,
                   if s.duration.Some? then Put(s.duration) else Keep,
                   if s.breastSide.Some? then Put(s.breastSide) else Keep,
                   Put(s.startTime), Put(s.endTime), Put(s.note))
  }

  /** A stored record whose fields pass the checks: a start time, and the
      measure its type needs, above zero (an amount that `numberText` writes
      so that `parseFloat` reads it back). A measure of the other type, which
      a switch of type leaves behind, does not matter. */
  predicate Reopenable(r: FeedingRecord, numberText: real -> string) {
    && r.startTime != ""
    && (r.kind == BreastDirect ==> r.duration.Some? && r.duration.value > 0)
    && (r.kind != BreastDirect ==>
          && r.amount.Some? && r.amount.value > 0.0
          && ParseFloat(numberText(r.amount.value)) == Some(r.amount.value))
  }

  /** No stored end time or note is the empty string: the form writes an
      empty one as absent. */
  predicate NoEmptyTexts(r: FeedingRecord) {
    r.endTime != Some("") && r.note != Some("")
  }

  /** Such a record opens into fields that pass the checks. */
  lemma ReopenedAccepted(r: FeedingRecord, now: string, numberText: real -> string)
    requires Reopenable(r, numberText)
    ensures Accepted(InitialFormData(Some(r), now, numberText))
  {
    var d := InitialFormData(Some(r), now, numberText);
    if r.kind != BreastDirect {
      var v := r.amount.value;
      assert numberText(v) != "" by {
        assert ParseFloat(numberText(v)).Some?;
      }
      assert d.amount == numberText(v);
    } else {
      assert d.duration == IntText(r.duration.value);
      assert ValidDuration(d.duration);
    }
  }

  /** Opening such a record and saving it without an edit passes the checks
      and leaves the record exactly as it was. */
  lemma UneditedSaveKeepsRecord(r: FeedingRecord, now: string, numberText: real -> string)
    requires Reopenable(r, numberText) && NoEmptyTexts(r)
    ensures Accepted(InitialFormData(Some(r), now, numberText))
    ensures MergeFeeding(r, AsFeedingChanges(SubmissionOf(r.babyId, InitialFormData(Some(r), now, numberText)))) == r
  {
    ReopenedAccepted(r, now, numberText);
    var s := SubmissionOf(r.babyId, InitialFormData(Some(r), now, numberText));
    assert s.endTime == r.endTime;
    assert s.note == r.note;
  }

  /** Switching a stored bottle or formula feeding to a direct breast feeding
      keeps its stored amount, and switching a direct one to a bottle keeps
      its stored duration and side: the submission leaves those keys out
      instead of clearing them. */
  lemma SwitchKeepsOtherMeasure(r: FeedingRecord, babyId: string, d: FormData)
    requires Accepted(d)
    ensures var m := MergeFeeding(r, AsFeedingChanges(SubmissionOf(babyId, d)));
      && m.kind == d.kind
      && (d.kind == BreastDirect ==> m.amount == r.amount && m.duration == ParseInt(d.duration))
      && (d.kind != BreastDirect ==>
            m.duration == r.duration && m.breastSide == r.breastSide && m.amount == ParseFloat(d.amount))
  {
  }

  class FeedingForm {
    const babyId: string
    var formData: FormData
    var errors: FormErrors

    /** The form as it mounts, for a new feeding or an edited one. */
    constructor(babyId: string, record: Option<FeedingRecord>, now: string, numberText: real -> string)
      ensures this.babyId == babyId
      ensures formData == InitialFormData(record, now, numberText) && errors == NoErrors
    {
      this.babyId := babyId;
      formData := InitialFormData(record, now, numberText);
      errors := NoErrors;
    }

    /** `validateForm`: records one message per failed check and answers
        whether there was none. */
    method ValidateForm() returns (ok: bool)
      modifies this
      ensures formData == old(formData) && errors == ErrorsOf(formData)
      ensures ok <==> Accepted(formData)
    {
      var d := formData;
      var newErrors := NoErrors;
      var direct := d.kind == BreastDirect;
      if !direct {
        var amount := ParseFloat(d.amount);
        if d.amount == "" || amount.None? || amount.value <= 0.0 {
          newErrors := newErrors.(amount := Some(AmountMessage));
        }
      }
      if direct {
        var duration := ParseInt(d.duration);
        if d.duration == "" || duration.None? || duration.value <= 0 {
          newErrors := newErrors.(duration := Some(DurationMessage));
        }
      }
      if d.startTime == "" {
        newErrors := newErrors.(startTime := Some(StartTimeMessage));
      }
      assert newErrors == ErrorsOf(d);
      errors := newErrors;
      ok := newErrors == NoErrors;
    }

    /** `handleSubmit`: nothing is submitted unless the checks pass. */
    method HandleSubmit() returns (submitted: Option<Submission>)
      modifies this
      ensures formData == old(formData) && errors == ErrorsOf(formData)
      ensures submitted.Some? <==> Accepted(formData)
      ensures submitted.Some? ==> submitted.value == SubmissionOf(babyId, formData)
    {
      var ok := ValidateForm();
      if !ok {
        return None;
      }
      var direct := formData.kind == BreastDirect;
      var s := Submission(babyId, formData.kind, formData.startTime,
                          NonEmpty(formData.endTime), NonEmpty(formData.note), None, None, None);
      if !direct && formData.amount != "" {
        s := s.(amount := ParseFloat(formData.amount));
      }
      if direct {
        if formData.duration != "" {
          s := s.(duration := ParseInt(formData.duration));
        }
        if formData.breastSide.Some? {
          s := s.(breastSide := formData.breastSide);
        }
      }
      submitted := Some(s);
    }
  }
}
