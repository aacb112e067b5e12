/** The data export of `src/services/export.ts`: the snapshot of the three
    lists and its CSV text, three titled sections of comma-separated rows. */
module Export {
  import opened Wrappers
  import opened Text
  import opened Records

  /** `ExportData`. */
  datatype ExportData = ExportData(
    babies: seq<Baby>, feedingRecords: seq<FeedingRecord>, diaperRecords: seq<DiaperRecord>,
    exportedAt: string)

  /** How the text renders what the model keeps abstract: `formatDateTime`
      (date-fns, local time) and JavaScript's `String(number)` for a
      fractional amount. */
  datatype Rendering = Rendering(dateTime: string -> string, number: real -> string)

  /** `prepareExportData`: the three lists as given, stamped with the time of
      the export (`new Date().toISOString()`, a parameter here). */
  function PrepareExportData(babies: seq<Baby>, feedingRecords: seq<FeedingRecord>,
                             diaperRecords: seq<DiaperRecord>, now: string): (d: ExportData)
    ensures d.babies == babies && d.feedingRecords == feedingRecords && d.diaperRecords == diaperRecords
    ensures d.exportedAt == now
  {
    ExportData(babies, feedingRecords, diaperRecords, now)
  }

  // ---------------------------------------------------------------------------
  // fields

  /** `amount || ''`: an absent or zero amount leaves the field empty. */
  function AmountField(amount: Option<real>, fmt: Rendering): (r: string)
    ensures (amount.None? || amount.value == 0.0) ==> r == ""
    ensures (amount.Some? && amount.value != 0.0) ==> r == fmt.number(amount.value)
  {
    if amount.None? || amount.value == 0.0 then "" else fmt.number(amount.value)
  }

  /** `duration || ''`: an absent or zero duration leaves the field empty; a
      whole number of minutes is written in decimal. */
  function DurationField(duration: Option<int>): (r: string)
    ensures (duration.None? || duration.value == 0) <==> r == ""
    ensures (duration.Some? && duration.value != 0) ==> ParseInt(r) == Some(duration.value)
  {
    if duration.None? || duration.value == 0 then ""
    else
      ParseIntOfIntText(duration.value);
      IntText(duration.value)
  }

  /** `note ? `"${note}"` : ''`: a non-empty note is put between double
      quotes as it is, without escaping. */
  function NoteField(note: Option<string>): (r: string)
    ensures (note.None? || note.value == "") <==> r == ""
    ensures note.Some? && note.value != "" ==> r == "\"" + note.value + "\""
  {
    if note.Some? && note.value != "" then "\"" + note.value + "\"" else ""
  }

  function GenderField(g: Option<Gender>): string {
    match g
    case None => ""
    case Some(v) => GenderName(v)
  }

  function SideField(b: Option<BreastSide>): string {
    match b
    case None => ""
    case Some(v) => BreastSideName(v)
  }

  function ConsistencyField(c: Option<PoopConsistency>): string {
    match c
    case None => ""
    case Some(v) => ConsistencyName(v)
  }

  // ---------------------------------------------------------------------------
  // rows

  function BabyFields(b: Baby): seq<string> {
    [b.id, b.name, b.birthDate, GenderField(b.gender), b.createdAt]
  }

  function FeedingFields(r: FeedingRecord, fmt: Rendering): seq<string> {
    [r.id, r.babyId, FeedingTypeName(r.kind), AmountField(r.amount, fmt), DurationField(r.duration),
     SideField(r.breastSide), r.startTime, TextOrEmpty(r.endTime), NoteField(r.note), r.createdAt]
  }

  function DiaperFields(r: DiaperRecord): seq<string> {
    [r.id, r.babyId, DiaperTypeName(r.kind), ConsistencyField(r.poopConsistency), r.time,
     NoteField(r.note), r.createdAt]
  }

  /** `[...].join(',')`. */
  function BabyRow(b: Baby): string {
    Join(BabyFields(b), ',')
  }

  function FeedingRow(fmt: Rendering): FeedingRecord -> string {
    (r: FeedingRecord) => Join(FeedingFields(r, fmt), ',')
  }

  function DiaperRow(r: DiaperRecord): string {
    Join(DiaperFields(r), ',')
  }

  /** One row per element, in the order of the list. */
  function Rows<T>(xs: seq<T>, row: T -> string): (r: seq<string>)
    ensures |r| == |xs|
    ensures forall i :: 0 <= i < |xs| ==> r[i] == row(xs[i])
  {
    seq(|xs|, i requires 0 <= i < |xs| => row(xs[i]))
  }

  lemma RowsStep<T>(xs: seq<T>, i: nat, row: T -> string)
    requires i < |xs|
    ensures Rows(xs[..i + 1], row) == Rows(xs[..i], row) + [row(xs[i])]
  {
  }

  // ---------------------------------------------------------------------------
  // the text

  const Title := "Nappu Diary 数据导出"
  const BabiesHeading := "=== 宝宝信息 ==="
  const BabiesHeader := "ID,名字,出生日期,性别,创建时间"
  const FeedingsHeading := "=== 喂食记录 ==="
  const FeedingsHeader := "ID,宝宝ID,类型,食量(ml),时长(分钟),喂奶侧,开始时间,结束时间,备注,创建时间"
  const DiapersHeading := "=== 排便记录 ==="
  const DiapersHeader := "ID,宝宝ID,类型,大便性状,时间,备注,创建时间"

  /** The lines before the baby rows. */
  function Preamble(data: ExportData, fmt: Rendering): seq<string> {
    [Title, "导出时间: " + fmt.dateTime(data.exportedAt), "", BabiesHeading, BabiesHeader]
  }

  /** The lines `toCsv` pushes, in order. */
  function CsvLines(data: ExportData, fmt: Rendering): seq<string> {
    Preamble(data, fmt) + Rows(data.babies, BabyRow)
      + ["", FeedingsHeading, FeedingsHeader] + Rows(data.feedingRecords, FeedingRow(fmt))
      + ["", DiapersHeading, DiapersHeader] + Rows(data.diaperRecords, DiaperRow)
  }

  /** `toCsv`: pushes the lines section by section and joins them with
      newlines. */
  method ToCsv(data: ExportData, fmt: Rendering) returns (text: string)
    ensures text == Join(CsvLines(data, fmt), '\n')
  {
    var lines: seq<string> := [];
    lines := lines + [Title];
    lines := lines + ["导出时间: " + fmt.dateTime(data.exportedAt)];
    lines := lines + [""];
    lines := lines + [BabiesHeading];
    lines := lines + [BabiesHeader];
    assert lines == Preamble(data, fmt);
    var head := lines;
    for i := 0 to |data.babies|
      invariant lines == head + Rows(data.babies[..i], BabyRow)
    {
      RowsStep(data.babies, i, BabyRow);
      lines := lines + [BabyRow(data.babies[i])];
    }
    assert data.babies[..|data.babies|] == data.babies;
    lines := lines + [""];
    lines := lines + [FeedingsHeading];
    lines := lines + [FeedingsHeader];
    assert lines == Preamble(data, fmt) + Rows(data.babies, BabyRow) + ["", FeedingsHeading, FeedingsHeader];
    head := lines;
    for i := 0 to |data.feedingRecords|
      invariant lines == head + Rows(data.feedingRecords[..i], FeedingRow(fmt))
    {
      RowsStep(data.feedingRecords, i, FeedingRow(fmt));
      lines := lines + [FeedingRow(fmt)(data.feedingRecords[i])];
    }
    assert data.feedingRecords[..|data.feedingRecords|] == data.feedingRecords;
    lines := lines + [""];
    lines := lines + [DiapersHeading];
    lines := lines + [DiapersHeader];
    assert lines == Preamble(data, fmt) + Rows(data.babies, BabyRow) + ["", FeedingsHeading, FeedingsHeader]
      + Rows(data.feedingRecords, FeedingRow(fmt)) + ["", DiapersHeading, DiapersHeader];
    head := lines;
    for i := 0 to |data.diaperRecords|
      invariant lines == head + Rows(data.diaperRecords[..i], DiaperRow)
    {
      RowsStep(data.diaperRecords, i, DiaperRow);
      lines := lines + [DiaperRow(data.diaperRecords[i])];
    }
    assert data.diaperRecords[..|data.diaperRecords|] == data.diaperRecords;
    text := Join(lines, '\n');
  }

  // ---------------------------------------------------------------------------
  // properties of the text

  /** Eleven fixed lines and one row per element: the title, the export
      time, then each section's heading and header followed by its rows in
      list order, the sections separated by empty lines. */
  lemma CsvLayout(data: ExportData, fmt: Rendering)
    ensures var lines := CsvLines(data, fmt);
      var b := |data.babies|;
      var f := |data.feedingRecords|;
      var d := |data.diaperRecords|;
      && |lines| == 11 + b + f + d
      && lines[0] == Title && lines[1] == "导出时间: " + fmt.dateTime(data.exportedAt) && lines[2] == ""
      && lines[3] == BabiesHeading && lines[4] == BabiesHeader
      && (forall i :: 0 <= i < b ==> lines[5 + i] == BabyRow(data.babies[i]))
      && lines[5 + b] == "" && lines[6 + b] == FeedingsHeading && lines[7 + b] == FeedingsHeader
      && (forall i :: 0 <= i < f ==> lines[8 + b + i] == FeedingRow(fmt)(data.feedingRecords[i]))
      && lines[8 + b + f] == "" && lines[9 + b + f] == DiapersHeading && lines[10 + b + f] == DiapersHeader
      && (forall i :: 0 <= i < d ==> lines[11 + b + f + i] == DiaperRow(data.diaperRecords[i]))
  {
  }

  /** When no line holds a newline, splitting the text at newlines gives the
      lines back. */
  lemma CsvLinesRoundTrip(data: ExportData, fmt: Rendering)
    requires forall i :: 0 <= i < |CsvLines(data, fmt)| ==> '\n' !in CsvLines(data, fmt)[i]
    ensures Split(Join(CsvLines(data, fmt), '\n'), '\n') == CsvLines(data, fmt)
  {
    CsvLayout(data, fmt);
    SplitJoin(CsvLines(data, fmt), '\n');
  }

  /** A baby row splits at its commas into the five header fields when none
      of them holds a comma. */
  lemma BabyRowFields(b: Baby)
    requires PlainField(b.id) && PlainField(b.name) && PlainField(b.birthDate) && PlainField(b.createdAt)
    ensures Split(BabyRow(b), ',') == [b.id, b.name, b.birthDate, GenderField(b.gender), b.createdAt]
  {
    SplitJoin(BabyFields(b), ',');
  }

  /** A feeding row splits into its ten fields, in header order, when none of
      them holds a comma. */
  lemma FeedingRowFields(r: FeedingRecord, fmt: Rendering)
    requires PlainField(r.id) && PlainField(r.babyId) && PlainField(r.startTime) && PlainField(r.createdAt)
    requires PlainField(AmountField(r.amount, fmt))
    requires PlainField(TextOrEmpty(r.endTime)) && PlainField(TextOrEmpty(r.note))
    ensures var fields := Split(FeedingRow(fmt)(r), ',');
      && |fields| == 10
      && fields == [r.id, r.babyId, FeedingTypeName(r.kind), AmountField(r.amount, fmt), DurationField(r.duration),
                    SideField(r.breastSide), r.startTime, TextOrEmpty(r.endTime), NoteField(r.note), r.createdAt]
  {
    assert PlainField(DurationField(r.duration)) by {
      if r.duration.Some? && r.duration.value != 0 {
        IntTextPlain(r.duration.value);
      }
    }
    SplitJoin(FeedingFields(r, fmt), ',');
  }

  /** A diaper row splits into its seven fields when none of them holds a
      comma. */
  lemma DiaperRowFields(r: DiaperRecord)
    requires PlainField(r.id) && PlainField(r.babyId) && PlainField(r.time) && PlainField(r.createdAt)
    requires PlainField(TextOrEmpty(r.note))
    ensures var fields := Split(DiaperRow(r), ',');
      && |fields| == 7
      && fields == [r.id, r.babyId, DiaperTypeName(r.kind), ConsistencyField(r.poopConsistency), r.time,
                    NoteField(r.note), r.createdAt]
  {
    SplitJoin(DiaperFields(r), ',');
  }

  /** Decimal text holds no comma and no newline. */
  lemma IntTextPlain(i: int)
    ensures PlainField(IntText(i))
  {
    var s := IntText(i);
    forall k | 0 <= k < |s| ensures s[k] != ',' && s[k] != '\n' {
      if i >= 0 {
        assert IsDigit(s[k]);
      } else if k > 0 {
        assert s[k] == DecimalText(-i)[k - 1];
        assert IsDigit(DecimalText(-i)[k - 1]);
      }
    }
  }
}
