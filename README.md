# Nappu Diary, modelled in Dafny

Nappu Diary is a baby-care diary app. Parents keep a list of babies, one of
which is the current baby, and log each baby's feedings and diaper changes.
Three stores hold these lists. They persist every change as JSON in the
device's key-value storage, and a store changes only after its write has
succeeded. Statistics summarise the records per day, per week and per month.
An export writes everything as CSV. Three forms check what the user typed
and hand the store the input that creates or updates a record.

This project models that core:

- `storage.dfy` (`Storage`): the key-value storage. It is a class whose
  entries the stores overwrite. Keys in its `failing` set reject every
  write, which is how the model covers a storage failure.
- `records.dfy` (`Records`): babies, feedings and diaper changes. Each comes
  with its create input, and with an update input in which a field is
  either kept or given. `MergeBaby`, `MergeFeeding` and `MergeDiaper` model
  the object spread that applies an update.
- `baby_store.dfy`, `feeding_store.dfy`, `diaper_store.dfy` (`BabyStores`,
  `FeedingStores`, `DiaperStores`): the three stores, as classes. Their
  methods change the store and the storage. Their queries filter, then sort
  latest first. The baby store keeps the invariant `Valid`: the current id
  is null or names a listed baby.
- `statistics.dfy`, `statistics_series.dfy` (`Statistics`,
  `StatisticsSeries`): the daily buckets, the feeding and diaper totals, and
  the weekly and monthly chart series.
- `date_utils.dfy` (`DateUtils`): the proleptic Gregorian calendar that
  date-fns works with. It covers Monday-start weeks, whole months, the
  `yyyy-MM-dd` key and `formatDuration`.
- `export.dfy` (`Export`): `prepareExportData`, and `toCsv` as a loop that
  pushes lines.
- `feeding_form.dfy`, `diaper_form.dfy`, `baby_form.dfy` (`FeedingForms`,
  `DiaperForms`, `BabyForms`): the starting fields of each form, and
  `validateForm` and `handleSubmit` as methods of a class that holds
  `formData` and `errors`.
- `sequences.dfy`, `text.dfy`, `wrappers.dfy`: generic helpers. These cover
  filtering, counting, a stable insertion sort, JavaScript's `trim`,
  `parseInt` and `parseFloat`, `split` and `join`, and `Option`.

Some things come from the environment, so the model takes them as
parameters:

- the current time (`now`);
- fresh ids from `uuidv4`;
- how a time string is read as an instant (`Clock.instant`). One reader stands for both `new Date(s).getTime()`, used by the stores' sorts, and `parseISO(s).getTime()`, used by the statistics. The two agree on the full `toISOString` timestamps the app writes. They differ on a date-only text, which `new Date` reads as UTC and `parseISO` as local time;
- which local day an instant falls on (`Clock.localDay`);
- how a fractional number is printed (`numberText`, `Rendering.number`);
- `formatDateTime` (`Rendering.dateTime`).

Timestamps are whole milliseconds. Amounts are real numbers and durations
are whole minutes.

## Model

| member | source | states |
|---|---|---|
| Storage.KeyValueStore.GetStoredData | src/services/storage/mmkv.ts:13-24 | null exactly when nothing, or JSON null, is stored under the key; otherwise the stored value |
| Storage.KeyValueStore.SetStoredData | src/services/storage/mmkv.ts:26-33 | a failing key rejects with "Failed to save <key>" and stores nothing; otherwise the key now holds the value and the other keys are unchanged |
| Records.MergeBaby | src/stores/babyStore.ts:80 | an update keeps the baby's id and createdAt |
| Records.MergeBabyIdempotent | src/stores/babyStore.ts:80 | applying an update twice is the same as applying it once; an empty update changes nothing |
| Records.MergeFeeding | src/stores/feedingStore.ts:69 | an update keeps the record's id, baby and createdAt |
| Records.MergeFeedingIdempotent | src/stores/feedingStore.ts:69 | applying an update twice is the same as applying it once; an empty update changes nothing |
| Records.MergeDiaper | src/stores/diaperStore.ts:66 | an update keeps the record's id, baby and createdAt |
| Records.MergeDiaperIdempotent | src/stores/diaperStore.ts:66 | applying an update twice is the same as applying it once; an empty update changes nothing |
| Records.NamesDistinct | src/types/feeding.ts:1 | different feeding types, diaper types and consistencies are written under different names |
| Records.DayKeyInjective | src/utils/date.ts:110-112 | two days get the same `yyyy-MM-dd` key exactly when they are the same day |
| BabyStores.LoadedCurrent | src/stores/babyStore.ts:34-35 | a stored non-empty id is taken as it is; otherwise the first baby's id, or null when there are no babies |
| BabyStores.LoadedCurrentListed | src/stores/babyStore.ts:34-35 | the fallback id names a listed baby; a stored id may name none (it is not checked against the list) |
| BabyStores.CurrentAfterAdd | src/stores/babyStore.ts:57 | a truthy current id is kept; otherwise the new baby becomes current |
| BabyStores.AddKeepsCurrentListed | src/stores/babyStore.ts:43-69 | adding a baby keeps the current id naming a listed baby |
| BabyStores.DeleteBabyFilter | src/stores/babyStore.ts:91 | the delete removes exactly the babies with the id and keeps the rest in order; it distributes over concatenation; deleting again changes nothing; deleting an absent id changes nothing |
| BabyStores.DeleteKeepsCurrentListed | src/stores/babyStore.ts:89-105 | deleting, with current moved to the first remaining baby or null, keeps the current id naming a listed baby |
| BabyStores.UpdateKeepsCurrentListed | src/stores/babyStore.ts:71-87 | an update keeps every id, so the current id still names a listed baby |
| BabyStores.CurrentBabyOf | src/stores/babyStore.ts:118-122 | null exactly when there is no truthy current id or no baby has it; otherwise the first listed baby with that id |
| BabyStores.BabyStore.constructor | src/stores/babyStore.ts:23-26 | no babies, no current id, no error |
| BabyStores.BabyStore.LoadBabies | src/stores/babyStore.ts:28-41 | the stored list (or none), the current id as LoadedCurrent chooses it, no error |
| BabyStores.BabyStore.AddBaby | src/stores/babyStore.ts:43-69 | writes the list, then the current id when it was not truthy; resolves exactly when both writes succeed, and then appends the new baby, sets the current id and clears the error; a rejection leaves the store as it was; keeps Valid |
| BabyStores.BabyStore.UpdateBaby | src/stores/babyStore.ts:71-87 | an absent id sets "Baby not found" and resolves to null; otherwise the first baby with the id is merged, written and returned, or a failed write rejects and changes nothing; keeps Valid |
| BabyStores.BabyStore.DeleteBaby | src/stores/babyStore.ts:89-105 | writes the filtered list; when the current baby was deleted, also writes the first remaining id (or null) and makes it current; each failed write rejects and leaves the store as it was; keeps Valid |
| BabyStores.BabyStore.SetCurrentBaby | src/stores/babyStore.ts:107-116 | an unlisted id sets "Baby not found" and changes nothing else; a listed id is written, then made current |
| BabyStores.BabyStore.ClearError | src/stores/babyStore.ts:124 | clears the error and nothing else |
| FeedingStores.RecordsByBaby | src/stores/feedingStore.ts:85-89 | exactly the baby's records, each as often as stored (same multiset), latest start first; records with equal starts keep their stored order |
| FeedingStores.RecordsByDate | src/stores/feedingStore.ts:91-99 | exactly the baby's records started on the local day of `date`, as a multiset, latest first; equal starts keep their stored order |
| FeedingStores.TodayRecords | src/stores/feedingStore.ts:101-109 | exactly the baby's records started today, as a multiset, latest first; equal starts keep their stored order |
| FeedingStores.LastRecord | src/stores/feedingStore.ts:111-116 | null exactly when the baby has no records; otherwise its record with the latest start, the first stored one when several share it |
| FeedingStores.DeleteFilter | src/stores/feedingStore.ts:80 | the delete removes exactly the records with the id and keeps the rest in order; it is idempotent; an absent id changes nothing |
| FeedingStores.UpdateKeepsBabies | src/stores/feedingStore.ts:68-70 | an update keeps the length, every id and every baby, so each baby keeps its number of records |
| FeedingStores.FeedingStore.constructor | src/stores/feedingStore.ts:24-26 | no records, no error |
| FeedingStores.FeedingStore.LoadRecords | src/stores/feedingStore.ts:28-36 | the stored list, or none; no error |
| FeedingStores.FeedingStore.AddRecord | src/stores/feedingStore.ts:38-58 | a failed write rejects and changes nothing; otherwise appends the created record, persists the list and clears the error |
| FeedingStores.FeedingStore.UpdateRecord | src/stores/feedingStore.ts:60-76 | an absent id sets "Record not found" and resolves to null; otherwise merges the input into the first record with the id, persists and returns it, or rejects and changes nothing |
| FeedingStores.FeedingStore.DeleteRecord | src/stores/feedingStore.ts:78-83 | a failed write rejects and changes nothing; otherwise keeps exactly the records without the id and persists them |
| FeedingStores.FeedingStore.ClearError | src/stores/feedingStore.ts:118 | clears the error and nothing else |
| DiaperStores.RecordsByBaby | src/stores/diaperStore.ts:82-86 | exactly the baby's changes, each as often as stored (same multiset), latest first; changes with equal times keep their stored order |
| DiaperStores.RecordsByDate | src/stores/diaperStore.ts:88-96 | exactly the baby's changes on the local day of `date`, as a multiset, latest first; equal times keep their stored order |
| DiaperStores.TodayRecords | src/stores/diaperStore.ts:98-106 | exactly the baby's changes today, as a multiset, latest first; equal times keep their stored order |
| DiaperStores.LastRecord | src/stores/diaperStore.ts:108-113 | null exactly when the baby has no changes; otherwise its change with the latest time, the first stored one when several share it |
| DiaperStores.DeleteFilter | src/stores/diaperStore.ts:77 | the delete removes exactly the changes with the id and keeps the rest in order; it is idempotent; an absent id changes nothing |
| DiaperStores.UpdateKeepsBabies | src/stores/diaperStore.ts:65-67 | an update keeps the length, every id and every baby, so each baby keeps its number of changes |
| DiaperStores.DiaperStore.constructor | src/stores/diaperStore.ts:24-26 | no records, no error |
| DiaperStores.DiaperStore.LoadRecords | src/stores/diaperStore.ts:28-36 | the stored list, or none; no error |
| DiaperStores.DiaperStore.AddRecord | src/stores/diaperStore.ts:38-55 | a failed write rejects and changes nothing; otherwise appends the created change, persists the list and clears the error |
| DiaperStores.DiaperStore.UpdateRecord | src/stores/diaperStore.ts:57-73 | an absent id sets "Record not found" and resolves to null; otherwise merges, persists and returns the change, or rejects and changes nothing |
| DiaperStores.DiaperStore.DeleteRecord | src/stores/diaperStore.ts:75-80 | a failed write rejects and changes nothing; otherwise keeps exactly the changes without the id and persists them |
| DiaperStores.DiaperStore.ClearError | src/stores/diaperStore.ts:115 | clears the error and nothing else |
| Statistics.CalculateDailyFeedingStats | src/utils/statistics.ts:30-59 | the loop builds the buckets of Buckets, a map in insertion order, and returns them sorted latest day first |
| Statistics.DailyFeedingFacts | src/utils/statistics.ts:30-59 | one bucket per day, with distinct dates, latest first; each bucket counts exactly the feedings of its day (at least one), sums their amounts and durations (absent counts as 0) and keeps its diaper tallies at 0; every feeding has its day's bucket; the counts add up to the number of feedings |
| Statistics.FeedingTallies | src/utils/statistics.ts:35-51 | a new bucket starts at zero; adding a feeding keeps the date, adds its amount and duration (absent counts as 0) and leaves the diaper tallies alone |
| Statistics.FeedingDayTotals | src/utils/statistics.ts:30-59 | each sorted feeding bucket holds the sum of its day's amounts and of its day's durations, and zero diaper tallies |
| Statistics.CalculateDailyDiaperStats | src/utils/statistics.ts:61-92 | the loop builds the diaper buckets of Buckets and returns them latest day first |
| Statistics.DailyDiaperFacts | src/utils/statistics.ts:61-92 | one bucket per day, with distinct dates, latest first; each counts exactly that day's changes (at least one), the ones with pee and the ones with poop (`both` in each), and keeps its feeding tallies at 0; every change is covered; the counts add up to the number of changes |
| Statistics.DiaperTallies | src/utils/statistics.ts:66-84 | a new bucket starts at zero; adding a change keeps the date, adds one pee for pee or both and one poop for poop or both, and leaves the feeding tallies alone |
| Statistics.DiaperDayTotals | src/utils/statistics.ts:61-92 | each sorted diaper bucket counts its day's changes with pee and with poop, and has zero feeding tallies |
| Statistics.CalculateFeedingStats | src/utils/statistics.ts:94-134 | all zero and null for no feedings; otherwise the count, the amount and duration sums (absent counts as 0), a mean interval that is 0 for one feeding and otherwise the first-to-last span in minutes over the number of gaps, and the start time of a latest feeding (null when empty) |
| Statistics.FeedingTotalsNonNegative | src/utils/statistics.ts:109-111 | with no negative amount or duration, the totals are not negative |
| Statistics.CalculateDiaperStats | src/utils/statistics.ts:136-167 | all zero and null for no changes; otherwise the count, how many changes held pee and how many held poop, and the time of a latest change |
| Statistics.DiaperKindCounts | src/utils/statistics.ts:150-159 | the pee count is pee-only plus both, the poop count likewise; each is at most the total; together they are the total plus the `both` changes |
| StatisticsSeries.DayKeysInjective | src/utils/statistics.ts:174-177 | comparing `yyyy-MM-dd` keys compares days |
| StatisticsSeries.DayTally | src/utils/statistics.ts:175-178 | the records whose key equals the day's key are exactly the records of that day |
| StatisticsSeries.DaySeries | src/utils/statistics.ts:173-184 | one bar per day, in order, carrying its label and the number of that day's records |
| StatisticsSeries.SeriesTotal | src/utils/statistics.ts:173-184 | over distinct days the bars add up to the records of those days, never more than all records |
| StatisticsSeries.WeekLabels | src/utils/statistics.ts:171 | the seven labels 周一 through 周日 |
| StatisticsSeries.MonthLabels | src/utils/statistics.ts:218 | one `M/d` label per day |
| StatisticsSeries.WeekSeries | src/utils/statistics.ts:169-185 | seven bars, Monday to Sunday, each labelled with its weekday and counting that day's records; the total is at most the number of records |
| StatisticsSeries.MonthSeries | src/utils/statistics.ts:205-222 | one bar per day of the month, day 1 first, labelled `M/d`, each counting that day's records; the total is at most the number of records |
| StatisticsSeries.WeeklyFeedingData | src/utils/statistics.ts:169-185 | seven bars, one per weekday of this week, each counting the feedings started that day |
| StatisticsSeries.WeeklyDiaperData | src/utils/statistics.ts:187-203 | seven bars, one per weekday of this week, each counting that day's changes |
| StatisticsSeries.MonthlyFeedingData | src/utils/statistics.ts:205-222 | one bar per day of this month, in order, each counting that day's feedings |
| StatisticsSeries.MonthlyDiaperData | src/utils/statistics.ts:224-241 | one bar per day of this month, in order, each counting that day's changes |
| DateUtils.EachDay | src/utils/date.ts:96-101 | the days from start through end, one after another |
| DateUtils.WeekStart | src/utils/date.ts:80-82 | a day at most six days before `n`, not after it |
| DateUtils.WeekEnd | src/utils/date.ts:84-86 | a day at most six days after `n`, not before it |
| DateUtils.WeekBounds | src/utils/date.ts:80-86 | the week starts on a Monday and ends on a Sunday |
| DateUtils.DaysInWeekShape | src/utils/date.ts:96-101 | seven consecutive days, Monday to Sunday, holding `n` at its weekday |
| DateUtils.MonthStart | src/utils/date.ts:88-90 | a day not after `n` |
| DateUtils.MonthEnd | src/utils/date.ts:92-94 | a day not before `n` |
| DateUtils.DaysOfMonthShape | src/utils/date.ts:103-108 | 28 to 31 consecutive days, as many as the month has, holding `n` at its day of the month |
| DateUtils.DaysOfMonthDates | src/utils/date.ts:103-108 | the i-th day is day i+1 of the month of `n` |
| DateUtils.MonthEndIsLast | src/utils/date.ts:92-94 | the day after the month's end lies in another month |
| DateUtils.ISODateShape | src/utils/date.ts:110-112 | for years 1 through 9999 the key is exactly `dddd-dd-dd` |
| DateUtils.ISODateRoundTrip | src/utils/date.ts:110-112 | reading the key back gives the date |
| DateUtils.ISODateInjective | src/utils/date.ts:110-112 | different dates of the Common Era have different keys, in any year |
| DateUtils.DateValueOfKey | src/utils/statistics.ts:56-58 | the value a daily bucket is sorted by is the day's number, so sorting by it is sorting by date |
| DateUtils.DurationSplit | src/utils/date.ts:48-55 | an hour or more splits exactly into whole hours and 0 to 59 minutes, and the text drops a zero minutes part |
| DateUtils.FormatDurationRoundTrip | src/utils/date.ts:48-55 | every duration text reads back as the minutes it came from, so different durations are written differently |
| Export.PrepareExportData | src/services/export.ts:13-24 | the three lists as given, stamped with the export time |
| Export.AmountField | src/services/export.ts:63 | empty for an absent or zero amount, the printed number otherwise |
| Export.DurationField | src/services/export.ts:64 | empty exactly for an absent or zero duration; otherwise decimal text that parseInt reads back |
| Export.NoteField | src/services/export.ts:68 | empty exactly for an absent or empty note; otherwise the note between double quotes, unescaped |
| Export.Rows | src/services/export.ts:41-51 | one row per element, in list order |
| Export.ToCsv | src/services/export.ts:30-93 | the pushed lines are CsvLines, joined with newlines |
| Export.CsvLayout | src/services/export.ts:30-93 | 11 fixed lines plus one per baby, feeding and change: title, export time, then each section's heading, header and rows in list order, with empty lines between sections |
| Export.CsvLinesRoundTrip | src/services/export.ts:92 | when no line holds a newline, splitting the text at newlines gives the lines back |
| Export.BabyRowFields | src/services/export.ts:41-51 | without commas in the fields, a baby row splits back into its five fields |
| Export.FeedingRowFields | src/services/export.ts:57-72 | without commas in the fields, a feeding row splits back into its ten fields in header order |
| Export.DiaperRowFields | src/services/export.ts:78-90 | without commas in the fields, a diaper row splits back into its seven fields |
| FeedingForms.DurationText | src/components/feeding/FeedingForm.tsx:43 | empty for no duration; otherwise text that parseInt reads back as the duration |
| FeedingForms.InitialFormData | src/components/feeding/FeedingForm.tsx:40-48 | a new form is a direct breast feeding starting now; an edited record shows its type, side, its start or now when that is empty, its amount as printed, its duration as decimal text (which reads back as itself), and its end and note (empty when absent) |
| FeedingForms.ErrorsOf | src/components/feeding/FeedingForm.tsx:53-76 | an amount error exactly when not direct and the amount is not a number above 0; a duration error exactly when direct and the duration is not a whole number above 0; a start error exactly when the start is empty; never both amount and duration errors |
| FeedingForms.SubmissionOf | src/components/feeding/FeedingForm.tsx:78-103 | the submitted input: a direct feeding has its parsed duration, above 0, its side and no amount; any other has its parsed amount, above 0, and no duration or side; an empty end or note is left undefined |
| FeedingForms.AsNewFeeding | src/components/feeding/FeedingForm.tsx:81-87 | the submission read as a create input, field by field |
| FeedingForms.AsFeedingChanges | src/components/feeding/FeedingForm.tsx:81-100 | the submission read as an update: type, start, end and note are always given; amount, duration and side only when present |
| FeedingForms.ReopenedAccepted | src/components/feeding/FeedingForm.tsx:40-76 | a stored record with a start and its type's measure above zero opens into fields that pass validation, whatever the other type's measure |
| FeedingForms.UneditedSaveKeepsRecord | src/components/feeding/FeedingForm.tsx:40-103 | opening such a record (with no empty end or note text) and saving it unedited leaves it exactly as it was, including a measure left over from a type switch |
| FeedingForms.SwitchKeepsOtherMeasure | src/components/feeding/FeedingForm.tsx:89-100 | switching the type keeps the stored measure of the other kind (an amount, or a duration and side), since the submission leaves it out |
| FeedingForms.FeedingForm.constructor | src/components/feeding/FeedingForm.tsx:40-49 | the initial fields and no errors |
| FeedingForms.FeedingForm.ValidateForm | src/components/feeding/FeedingForm.tsx:53-76 | sets the errors of ErrorsOf, and returns true exactly when there are none |
| FeedingForms.FeedingForm.HandleSubmit | src/components/feeding/FeedingForm.tsx:78-103 | submits nothing unless validation passes, and then exactly SubmissionOf |
| DiaperForms.InitialFormData | src/components/diaper/DiaperForm.tsx:36-41 | a new form is pee and poop at now; an edited change shows its type, consistency, time (or now) and note |
| DiaperForms.ErrorsOf | src/components/diaper/DiaperForm.tsx:46-55 | a time error exactly when the time is empty |
| DiaperForms.SubmissionOf | src/components/diaper/DiaperForm.tsx:57-72 | type, time and note (an empty note left undefined); a consistency exactly when the change has poop and one is chosen |
| DiaperForms.AsNewDiaper | src/components/diaper/DiaperForm.tsx:60-69 | the submission read as a create input, field by field |
| DiaperForms.AsDiaperChanges | src/components/diaper/DiaperForm.tsx:60-69 | the submission read as an update: type, time and note are always given; the consistency only when present |
| DiaperForms.NewChangeConsistency | src/components/diaper/DiaperForm.tsx:44 | a change created from the form records a consistency only when it has poop |
| DiaperForms.UneditedSaveKeepsRecord | src/components/diaper/DiaperForm.tsx:36-72 | opening a change with a time (and no empty note text) and saving it unedited passes validation and leaves it exactly as it was, including a consistency left over from a switch to pee only |
| DiaperForms.SwitchKeepsConsistency | src/components/diaper/DiaperForm.tsx:67-69 | switching a change to pee only keeps its stored consistency |
| DiaperForms.DiaperForm.constructor | src/components/diaper/DiaperForm.tsx:36-42 | the initial fields and no errors |
| DiaperForms.DiaperForm.ValidateForm | src/components/diaper/DiaperForm.tsx:46-55 | sets the errors of ErrorsOf, and returns true exactly when there are none |
| DiaperForms.DiaperForm.HandleSubmit | src/components/diaper/DiaperForm.tsx:57-72 | submits nothing unless validation passes, and then exactly SubmissionOf |
| BabyForms.InitialFormData | src/components/baby/BabyForm.tsx:33-37 | empty fields for a new baby; otherwise the name, the birth date's part before the first `T`, and the gender |
| BabyForms.DateOnlyTime | src/components/baby/BabyForm.tsx:54-55 | a time exactly for a `YYYY-MM-DD` text naming a real date |
| BabyForms.DateOnlyTimeOrder | src/components/baby/BabyForm.tsx:54-55 | two such times lie as many whole days apart as their dates, so they order like the dates |
| BabyForms.BirthDateError | src/components/baby/BabyForm.tsx:47-59 | none exactly when the text is `YYYY-MM-DD`, names a real date and is not after now; otherwise "missing", "format" or "invalid", in that order of checks |
| BabyForms.ErrorsOf | src/components/baby/BabyForm.tsx:40-63 | a name error exactly when the name is empty after `trim` (which drops ECMAScript white space, every Unicode space separator such as U+3000 included), and the birth-date error of BirthDateError |
| BabyForms.SubmissionOf | src/components/baby/BabyForm.tsx:65-75 | the trimmed, non-empty name with no white space at either end (U+3000 and the other Unicode space separators included), the birth date at UTC midnight as toISOString writes it, and the gender |
| BabyForms.AsNewBaby | src/components/baby/BabyForm.tsx:68-72 | the submission read as a create input, with no avatar |
| BabyForms.AsBabyChanges | src/components/baby/BabyForm.tsx:68-72 | the submission read as an update: name, birth date and gender are always given; the avatar is kept |
| BabyForms.AcceptedBirthDate | src/components/baby/BabyForm.tsx:47-59 | an accepted birth date is a real date no later than now, ten characters long, with no `T` |
| BabyForms.DatePartOfStored | src/components/baby/BabyForm.tsx:35 | the form reads back the date part of a date that handleSubmit wrote |
| BabyForms.SavedBabyReopens | src/components/baby/BabyForm.tsx:33-75 | a baby saved from the form, new or edited, opens again with the trimmed name, the entered birth date and the gender |
| BabyForms.BabyForm.constructor | src/components/baby/BabyForm.tsx:33-38 | the initial fields and no errors |
| BabyForms.BabyForm.ValidateForm | src/components/baby/BabyForm.tsx:40-63 | sets the errors of ErrorsOf, and returns true exactly when there are none |
| BabyForms.BabyForm.HandleSubmit | src/components/baby/BabyForm.tsx:65-75 | submits nothing unless validation passes, and then exactly SubmissionOf |

## Left out

- The `isLoading` flags and zustand's subscriptions are not modelled. They
  change nothing the other operations read.
- The `catch` branches of `loadBabies` and `loadRecords` are left out, with
  their error messages. `getStoredData` catches every failure itself, so
  those branches cannot be reached.
- Stored JSON of another shape than the key's list is read as absent. A
  failing read is read the same way, which is what `getStoredData` returns
  for it.
- `removeStoredData` and the `settings` key are not modelled. No core
  operation uses them.
- The `toJson`, `exportToFile`, `shareExportedFile` and `exportAndShare`
  functions are file and share I/O, so they are not modelled.
- Floating point is not modelled: amounts are exact reals. So are NaN,
  Infinity and rounding. `parseFloat` is modelled on decimal text without
  `Infinity`.
- Time strings that `new Date` cannot read (Invalid Date) are not modelled.
  `Clock.instant` gives every string a time.
- Days run from year 1 of the Common Era onwards.
- The `yyyy-MM-dd` round trip is proved for four-digit years; key
  uniqueness is proved for every year.
- BabyForms.DateOnlyTime: treats a `YYYY-MM-DD` text whose month or day does
  not exist (for example `2023-02-30`) as an invalid date. Some JavaScript
  engines roll such a date over into the next month instead.
- Statistics.CalculateFeedingStats: `lastFeedTime` is stated as the start
  time of some feeding with the latest start. When several feedings share
  that instant, the model does not say which one.
- Statistics.CalculateDiaperStats: `lastChangeTime` is stated as the time of
  some change with the latest time. It does not say which one when several
  share that instant.
- `deleteBaby` does not delete the baby's feedings and diaper changes, and
  the model does not add that.
- The forms' `handleSubmit` also puts `babyId` into the update input. The
  stores spread that input over the record, which at run time overwrites
  the record's baby with the form's. Records.MergeFeeding and
  Records.MergeDiaper follow the declared update types, which have no
  `babyId`, so the model keeps the record's baby. The form is opened with
  the record's own baby, so the two agree.
- CSV fields are not escaped, and the model does not escape them either. A
  note holding a double quote or a comma still breaks the row. The lemmas
  about splitting rows require fields without commas or newlines.
- Form editing is not modelled: the JSX, the `onChange` handlers and the
  pickers. The display helpers (`getStartTimeDisplay`, `formatTime`) are
  not modelled either.
