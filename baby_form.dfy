/** The baby form (`src/components/baby/BabyForm.tsx`): its starting fields,
    the checks `validateForm` makes on the name and the `YYYY-MM-DD` birth
    date, and the input `handleSubmit` hands to `onSubmit`. */
module BabyForms {
  import opened Wrappers
  import opened Text
  import opened DateUtils
  import opened Records

  datatype FormData = FormData(name: string, birthDate: string, gender: Option<Gender>)

  datatype FormErrors = FormErrors(name: Option<string>, birthDate: Option<string>)

  const NoErrors := FormErrors(None, None)

  const NameMessage := "请输入宝宝名字"
  const BirthDateMissing := "请选择出生日期"
  const BirthDateFormat := "日期格式应为 YYYY-MM-DD"
  const BirthDateInvalid := "请输入有效的出生日期"

  /** What `toISOString` appends to a date read at UTC midnight. */
  const MidnightSuffix := ['T'] + MidnightClock

  const MidnightClock := "00:00:00.000Z"

  /** The object `handleSubmit` builds; `gender` is always given, possibly
      undefined. */
  datatype Submission = Submission(name: string, birthDate: string, gender: Option<Gender>)

  /** The starting fields: the baby's name, the date part of its birth date
      (before the first `T`) and its gender, or empty fields for a new baby. */
  function InitialFormData(baby: Option<Baby>): (d: FormData)
    ensures baby.None? ==> d == FormData("", "", None)
    ensures baby.Some? ==> d.name == baby.value.name && d.gender == baby.value.gender
    ensures baby.Some? ==> d.birthDate == Split(baby.value.birthDate, 'T')[0]
  {
    match baby
    case None => FormData("", "", None)
    case Some(b) => FormData(OrElse(b.name, ""), OrElse(Split(b.birthDate, 'T')[0], ""), b.gender)
  }

  /** `new Date(s)` on a `YYYY-MM-DD` text: midnight UTC of that date, in
      milliseconds since the epoch; `None` (an invalid date) when the month or
      the day does not exist. */
  function DateOnlyTime(s: string): (t: Option<Timestamp>)
    ensures t.Some? <==> ParseISODate(s).Some? && WellFormed(ParseISODate(s).value)
  {
    match ParseISODate(s)
    case None => None
    case Some(d) =>
      if WellFormed(d) then Some((DayNumber(d) - DayNumber(CalendarDate(1970, 1, 1))) * 86_400_000)
      else None
  }

  /** Two dates read this way lie whole days apart, as many as separate the
      dates in the calendar, so their times order like the dates. */
  lemma DateOnlyTimeOrder(s1: string, s2: string)
    requires DateOnlyTime(s1).Some? && DateOnlyTime(s2).Some?
    ensures var d1, d2 := ParseISODate(s1).value, ParseISODate(s2).value;
      && DateOnlyTime(s2).value - DateOnlyTime(s1).value == (DayNumber(d2) - DayNumber(d1)) * 86_400_000
      && (DateOnlyTime(s1).value <= DateOnlyTime(s2).value <==> DayNumber(d1) <= DayNumber(d2))
  {
  }

  /** The message `validateForm` gives the birth date, if any. */
  function BirthDateError(birthDate: string, now: Timestamp): (e: Option<string>)
    ensures e.None? <==>
      && ParseISODate(birthDate).Some?
      && DateOnlyTime(birthDate).Some? && DateOnlyTime(birthDate).value <= now
    ensures birthDate == "" ==> e == Some(BirthDateMissing)
    ensures birthDate != "" && ParseISODate(birthDate).None? ==> e == Some(BirthDateFormat)
    ensures ParseISODate(birthDate).Some? && e.Some? ==> e == Some(BirthDateInvalid)
  {
    if birthDate == "" then Some(BirthDateMissing)
    else if ParseISODate(birthDate).None? then Some(BirthDateFormat)
    else
      var t := DateOnlyTime(birthDate);
      if t.None? || t.value > now then Some(BirthDateInvalid) else None
  }

  /** The errors `validateForm` finds: a name of only white space, and a
      birth date that is missing, not `YYYY-MM-DD`, not a real date or later
      than now. */
  function ErrorsOf(d: FormData, now: Timestamp): (e: FormErrors)
    ensures e.name.Some? <==> Trim(d.name) == ""
    ensures e.name.Some? ==> e.name.value == NameMessage
    ensures e.birthDate == BirthDateError(d.birthDate, now)
  {
    FormErrors(if Trim(d.name) == "" then Some(NameMessage) else None, BirthDateError(d.birthDate, now))
  }

  /** `validateForm` finds nothing: a name with some text and a birth date
      without a message. */
  predicate Accepted(d: FormData, now: Timestamp) {
    Trim(d.name) != "" && BirthDateError(d.birthDate, now).None?
  }

  /** The input `handleSubmit` builds: the trimmed name, the birth date as
      `toISOString` writes its UTC midnight, and the gender as chosen. */
  function SubmissionOf(d: FormData, now: Timestamp): (s: Submission)
    requires Accepted(d, now)
    ensures s.name == Trim(d.name) && s.name != ""
    ensures !IsJsSpace(s.name[0]) && !IsJsSpace(s.name[|s.name| - 1])
    ensures s.birthDate == d.birthDate + MidnightSuffix
    ensures s.gender == d.gender
  {
    TrimEdges(d.name);
    Submission(Trim(d.name), d.birthDate + MidnightSuffix, d.gender)
  }

  /** The submission read as `CreateBabyInput`. */
  function AsNewBaby(s: Submission): (n: NewBaby)
    ensures n.name == s.name && n.birthDate == s.birthDate && n.gender == s.gender && n.avatar.None?
  {
    NewBaby(s.name, s.birthDate, s.gender, None)
  }

  /** The submission read as `UpdateBabyInput`: name, birth date and gender
      are always given, so an undefined gender clears the stored one; the
      avatar is kept. */
  function AsBabyChanges(s: Submission): (u: BabyChanges)
    ensures u.name == Put(s.name) && u.birthDate == Put(s.birthDate) && u.gender == Put(s.gender)
    ensures u.avatar == Keep
  {
    BabyChanges(Put(s.name), Put(s.birthDate), Put(s.gender), Keep)
  }

  /** An accepted birth date is a real date no later than now, and it holds
      no `T`. */
  lemma AcceptedBirthDate(d: FormData, now: Timestamp)
    requires Accepted(d, now)
    ensures ParseISODate(d.birthDate).Some? && WellFormed(ParseISODate(d.birthDate).value)
    ensures DateOnlyTime(d.birthDate).Some? && DateOnlyTime(d.birthDate).value <= now
    ensures |d.birthDate| == 10 && 'T' !in d.birthDate
  {
    var s := d.birthDate;
    assert AllDigits(s[..4]) && AllDigits(s[5..7]) && AllDigits(s[8..]);
    forall i | 0 <= i < |s|
      ensures s[i] != 'T'
    {
      if i < 4 {
        assert s[i] == s[..4][i];
      } else if 5 <= i < 7 {
        assert s[i] == s[5..7][i - 5];
      } else if 8 <= i {
        assert s[i] == s[8..][i - 8];
      }
    }
  }

  /** The form reads back the date part of a stored birth date. */
  lemma DatePartOfStored(birthDate: string)
    requires 'T' !in birthDate
    ensures Split(birthDate + MidnightSuffix, 'T')[0] == birthDate
  {
    SplitHead(birthDate, 'T', MidnightClock);
    assert birthDate + MidnightSuffix == birthDate + ['T'] + MidnightClock;
  }

  /** A baby saved from the form opens again with the trimmed name, the
      entered birth date and the chosen gender: the form reads back the date
      part that `handleSubmit` wrote, whether the baby is new or edited. */
  lemma SavedBabyReopens(d: FormData, now: Timestamp, id: string, created: string, stored: Baby)
    requires Accepted(d, now)
    ensures var s := SubmissionOf(d, now);
      && InitialFormData(Some(CreateBaby(AsNewBaby(s), id, created))) == FormData(Trim(d.name), d.birthDate, d.gender)
      && InitialFormData(Some(MergeBaby(stored, AsBabyChanges(s)))) == FormData(Trim(d.name), d.birthDate, d.gender)
  {
    AcceptedBirthDate(d, now);
    DatePartOfStored(d.birthDate);
    var s := SubmissionOf(d, now);
    assert OrElse(s.name, "") == s.name;
    assert OrElse(d.birthDate, "") == d.birthDate;
  }

  class BabyForm {
    var formData: FormData
    var errors: FormErrors

    constructor(baby: Option<Baby>)
      ensures formData == InitialFormData(baby) && errors == NoErrors
    {
      formData := InitialFormData(baby);
      errors := NoErrors;
    }

    /** `validateForm`, with `now` the time `new Date()` reads. */
    method ValidateForm(now: Timestamp) returns (ok: bool)
      modifies this
      ensures formData == old(formData) && errors == ErrorsOf(formData, now)
      ensures ok <==> Accepted(formData, now)
    {
      var d := formData;
      var newErrors := NoErrors;
      if Trim(d.name) == "" {
        newErrors := newErrors.(name := Some(NameMessage));
      }
      if d.birthDate == "" {
        newErrors := newErrors.(birthDate := Some(BirthDateMissing));
      } else {
        if ParseISODate(d.birthDate).None? {
          newErrors := newErrors.(birthDate := Some(BirthDateFormat));
        } else {
          var date := DateOnlyTime(d.birthDate);
          if date.None? || date.value > now {
            newErrors := newErrors.(birthDate := Some(BirthDateInvalid));
          }
        }
      }
      assert newErrors == ErrorsOf(d, now);
      errors := newErrors;
      ok := newErrors == NoErrors;
    }

    /** `handleSubmit`: nothing is submitted unless the checks pass. */
    method HandleSubmit(now: Timestamp) returns (submitted: Option<Submission>)
      modifies this
      ensures formData == old(formData) && errors == ErrorsOf(formData, now)
      ensures submitted.Some? <==> Accepted(formData, now)
      ensures submitted.Some? ==> submitted.value == SubmissionOf(formData, now)
    {
      var ok := ValidateForm(now);
      if !ok {
        return None;
      }
      TrimEdges(formData.name);
      submitted := Some(Submission(Trim(formData.name), formData.birthDate + MidnightSuffix, formData.gender));
    }
  }
}
