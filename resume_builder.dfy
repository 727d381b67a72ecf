/** `buildResumeHtml`: fill the résumé template with the loaded data and the
    form. The template is a `ResumeDocument`: the text of the cells the
    builder sets, by name, and the three history tables. */
module ResumeBuilder {
  import opened Wrappers
  import opened Text
  import opened Seqs
  import opened Yaml
  import opened Sorting
  import opened Dom
  import opened ResumeDataLoader

  /** What the user types into the form beside the loaded data. */
  datatype FormState = FormState(
    postalCode: string,
    address: string,
    phone: string,
    motivation: string,
    preference: string,
    photoDataUrl: string)

  /** `new Date(text)` read in local time: the calendar date a text denotes,
      or `None` for an invalid date. */
  type ParseDate = string -> Option<Date>

  // ---------------------------------------------------------------------
  // Year and month of a history entry

  datatype YearMonth = YearMonth(year: nat, month: nat)

  predicate IsSeparator(c: char) {
    c == '.' || c == '/' || c == '-'
  }

  /** The text starts with `^(\d{4})[./-](\d{1,2})`. */
  predicate YearMonthShape(t: string) {
    |t| >= 6 && AllDigits(t[..4]) && IsSeparator(t[4]) && IsDigit(t[5])
  }

  /** The month group: the `\d{1,2}` is greedy, so it takes a second digit when there is one. */
  function MonthDigits(t: string): (r: string)
    requires YearMonthShape(t)
    ensures 1 <= |r| <= 2 && AllDigits(r)
    ensures |r| == 2 <==> |t| >= 7 && IsDigit(t[6])
  {
    if |t| >= 7 && IsDigit(t[6]) then t[5..7] else t[5..6]
  }

  /** The match of the year-month pattern against a text. */
  function ParseYearMonthText(t: string): (r: Option<YearMonth>)
    ensures r.Some? <==> YearMonthShape(t)
  {
    if YearMonthShape(t) then Some(YearMonth(DigitsValue(t[..4]), DigitsValue(MonthDigits(t)))) else None
  }

  /** `parseYearMonth`. The month is not range-checked. */
  function ParseYearMonth(v: Yaml): (r: Option<YearMonth>)
    ensures r.Some? <==> YearMonthShape(TrimmedText(v))
  {
    ParseYearMonthText(TrimmedText(v))
  }

  /** A four-digit year, a separator and a one- or two-digit month, followed by
      anything that does not continue the month, match as that year and month. */
  lemma YearMonthTextRoundTrip(year: nat, sep: char, month: string, rest: string)
    requires year < 10000 && IsSeparator(sep)
    requires 1 <= |month| <= 2 && AllDigits(month)
    requires |month| == 2 || rest == [] || !IsDigit(rest[0])
    ensures ParseYearMonthText(PadNat(year, 4) + [sep] + month + rest) == Some(YearMonth(year, DigitsValue(month)))
  {
    assert Power10(4) == 10000;
    PadNatShort(year, 4);
    var y := PadNat(year, 4);
    var s := y + [sep] + month + rest;
    assert s[..4] == y;
    assert s[4] == sep && s[5] == month[0];
    if |month| == 2 {
      assert s[5..7] == month;
    } else {
      assert s[5..6] == month;
      assert |s| >= 7 ==> s[6] == rest[0];
    }
  }

  /** A text that starts with a digit and does not end in whitespace is its own trimmed text. */
  lemma TrimmedTextOfString(s: string)
    requires s != [] && IsDigit(s[0]) && !IsSpace(s[|s| - 1])
    ensures TrimmedText(YStr(s)) == s
  {
    TrimOfTrimmed(s);
  }

  /** Such a text starts with a digit and ends where `rest` or the month ends. */
  lemma YearMonthTextEnds(year: nat, sep: char, month: string, rest: string)
    requires year < 10000
    requires 1 <= |month| <= 2 && AllDigits(month)
    requires IsTrimmed(rest)
    ensures var s := PadNat(year, 4) + [sep] + month + rest;
            s != [] && IsDigit(s[0]) && !IsSpace(s[|s| - 1])
  {
    assert Power10(4) == 10000;
    PadNatShort(year, 4);
    var y := PadNat(year, 4);
    var tail := [sep] + month + rest;
    var s := y + tail;
    assert s == PadNat(year, 4) + [sep] + month + rest;
    assert s[0] == y[0];
    assert s[|s| - 1] == tail[|tail| - 1];
    assert !IsSpace(tail[|tail| - 1]) by {
      if rest == [] {
        assert tail[|tail| - 1] == month[|month| - 1];
      } else {
        assert tail[|tail| - 1] == rest[|rest| - 1];
      }
    }
  }

  /** The same, for a string value. */
  lemma YearMonthRoundTrip(year: nat, sep: char, month: string, rest: string)
    requires year < 10000 && IsSeparator(sep)
    requires 1 <= |month| <= 2 && AllDigits(month)
    requires |month| == 2 || rest == [] || !IsDigit(rest[0])
    requires IsTrimmed(rest)
    ensures ParseYearMonth(YStr(PadNat(year, 4) + [sep] + month + rest)) == Some(YearMonth(year, DigitsValue(month)))
  {
    YearMonthTextEnds(year, sep, month, rest);
    YearMonthTextRoundTrip(year, sep, month, rest);
    ParseUntrimmed(PadNat(year, 4) + [sep] + month + rest, YearMonth(year, DigitsValue(month)));
  }

  /** A string value that trimming leaves alone is matched as it is. */
  lemma ParseUntrimmed(s: string, ym: YearMonth)
    requires s != [] && IsDigit(s[0]) && !IsSpace(s[|s| - 1])
    requires ParseYearMonthText(s) == Some(ym)
    ensures ParseYearMonth(YStr(s)) == Some(ym)
  {
    TrimmedTextOfString(s);
  }

  /** A YAML date is rendered in ISO form, so its own year and month are read. */
  lemma DateYearMonth(d: Date)
    requires ValidDate(d)
    ensures ParseYearMonth(YDate(d)) == Some(YearMonth(d.year, d.month))
  {
    assert Power10(2) == 100;
    PadNatShort(d.month, 2);
    IsoDateParts(d);
    YearMonthRoundTrip(d.year, '-', PadNat(d.month, 2), "-" + PadNat(d.day, 2));
    DateText(d);
  }

  /** The ISO form of a date, split after its month. */
  lemma IsoDateParts(d: Date)
    requires ValidDate(d)
    ensures IsoDate(d) == PadNat(d.year, 4) + ['-'] + PadNat(d.month, 2) + ("-" + PadNat(d.day, 2))
    ensures IsTrimmed("-" + PadNat(d.day, 2))
  {
    assert Power10(2) == 100;
    PadNatShort(d.day, 2);
    var dd := PadNat(d.day, 2);
    var rest := "-" + dd;
    assert rest[0] == '-' && rest[|rest| - 1] == dd[1];
  }

  /** A date reads as the string of its ISO form. */
  lemma DateText(d: Date)
    ensures TrimmedText(YDate(d)) == TrimmedText(YStr(IsoDate(d)))
    ensures ParseYearMonth(YDate(d)) == ParseYearMonth(YStr(IsoDate(d)))
  {
  }

  /** `formatYearMonth`: "2024年4月" when the text starts with a year and a
      month, the trimmed text itself otherwise. */
  function FormatYearMonth(v: Yaml): (r: string)
    ensures ParseYearMonth(v).Some? ==>
              r == NatToString(ParseYearMonth(v).value.year) + "年" + NatToString(ParseYearMonth(v).value.month) + "月"
    ensures ParseYearMonth(v).None? ==> r == TrimmedText(v)
  {
    match ParseYearMonth(v)
    case Some(ym) => NatToString(ym.year) + "年" + NatToString(ym.month) + "月"
    case None => TrimmedText(v)
  }

  /** A YAML date shows as its year and month without leading zeros. */
  lemma FormatDate(d: Date)
    requires ValidDate(d)
    ensures FormatYearMonth(YDate(d)) == NatToString(d.year) + "年" + NatToString(d.month) + "月"
  {
    DateYearMonth(d);
  }

  // ---------------------------------------------------------------------
  // Dates of the basic information

  /** `formatTodayJa`, for the day the document is built. */
  function FormatTodayJa(today: Date): string {
    NatToString(today.year) + "年" + NatToString(today.month) + "月" + NatToString(today.day) + "日現在"
  }

  /** `toInputDate`: the birth date as "1990年1月2日", empty when missing or invalid. */
  function ToInputDate(birth: string, parseDate: ParseDate): (r: string)
    ensures birth == "" || parseDate(birth).None? ==> r == ""
    ensures birth != "" && parseDate(birth).Some? ==>
              var d := parseDate(birth).value;
              r == NatToString(d.year) + "年" + NatToString(d.month) + "月" + NatToString(d.day) + "日"
  {
    if birth == "" then ""
    else match parseDate(birth)
      case None => ""
      case Some(d) => NatToString(d.year) + "年" + NatToString(d.month) + "月" + NatToString(d.day) + "日"
  }

  /** The date line shows today as the birth cell shows a birth date, then "現在". */
  lemma TodayAsInputDate(today: Date, s: string, parseDate: ParseDate)
    requires s != "" && parseDate(s) == Some(today)
    ensures FormatTodayJa(today) == ToInputDate(s, parseDate) + "現在"
  {
  }

  /** The `n`-th birthday after `birth` falls on or before `today`. */
  predicate Reached(birth: Date, today: Date, n: int) {
    var year := birth.year + n;
    year < today.year
    || (year == today.year && (birth.month < today.month || (birth.month == today.month && birth.day <= today.day)))
  }

  /** The number of whole years from `birth` to `today`: the last birthday
      reached, one year less when this year's birthday is still ahead. */
  function FullYears(birth: Date, today: Date): (n: int)
    ensures Reached(birth, today, n) && !Reached(birth, today, n + 1)
  {
    var age := today.year - birth.year;
    if today.month < birth.month || (today.month == birth.month && today.day < birth.day) then age - 1 else age
  }

  /** Only one count of years has its birthday reached and the next one not. */
  lemma FullYearsUnique(birth: Date, today: Date, n: int)
    requires Reached(birth, today, n) && !Reached(birth, today, n + 1)
    ensures n == FullYears(birth, today)
  {
  }

  /** The age shown in the birth cell, empty when the birth date is missing or invalid. */
  function AgeText(birth: string, parseDate: ParseDate, today: Date): (r: string)
    ensures birth == "" || parseDate(birth).None? ==> r == ""
    ensures birth != "" && parseDate(birth).Some? ==> r == IntToString(FullYears(parseDate(birth).value, today))
  {
    if birth == "" then ""
    else match parseDate(birth)
      case None => ""
      case Some(b) => IntToString(FullYears(b, today))
  }

  /** `calcAge`. */
  method CalcAge(birth: string, parseDate: ParseDate, today: Date) returns (r: string)
    ensures r == AgeText(birth, parseDate, today)
    ensures r != "" ==> exists b :: parseDate(birth) == Some(b) && r == IntToString(FullYears(b, today))
  {
    if birth == "" {
      return "";
    }
    var parsed := parseDate(birth);
    if parsed.None? {
      return "";
    }
    var b := parsed.value;
    var age := today.year - b.year;
    var hasNotHadBirthday := today.month < b.month || (today.month == b.month && today.day < b.day);
    if hasNotHadBirthday {
      age := age - 1;
    }
    r := IntToString(age);
  }

  /** The text of the birth cell. */
  function BirthLabel(inputDate: string, age: string): string {
    inputDate + "（満 " + age + " 歳）"
  }

  // ---------------------------------------------------------------------
  // Rows of the history tables

  /** One row of a history table: the year and month, and the text. */
  datatype Row = Row(yearMonth: string, content: string)

  predicate HasContent(r: Row) {
    r.content != ""
  }

  /** `item.tags?.includes(tag)`: membership for a list, substring for a
      string; any other value has no tags. */
  predicate HasTag(item: Yaml, tag: string) {
    var tags := Get(item, "tags");
    (tags.YList? && YStr(tag) in tags.items) || (tags.YStr? && Contains(tags.s, tag))
  }

  predicate IsEducation(item: Yaml) {
    HasTag(item, "education")
  }

  predicate IsWork(item: Yaml) {
    HasTag(item, "work") || HasTag(item, "now")
  }

  function TimelineRow(item: Yaml): Row {
    Row(FormatYearMonth(Get(item, "time")), TrimmedText(Get(item, "title")))
  }

  /** The entries passing `tagged`, in order, as rows; an entry whose title
      is blank is dropped. */
  function TimelineRows(timeline: seq<Yaml>, tagged: Yaml -> bool): (r: seq<Row>)
    ensures forall i :: 0 <= i < |r| ==> r[i].content != "" && IsTrimmed(r[i].content)
  {
    var rows := Map(TimelineRow, Filter(tagged, timeline));
    FilterPreserves(HasContent, (row: Row) => IsTrimmed(row.content), rows);
    Filter(HasContent, rows)
  }

  /** The rows of a joined history are the rows of each part, in order. */
  lemma TimelineRowsConcat(xs: seq<Yaml>, ys: seq<Yaml>, tagged: Yaml -> bool)
    ensures TimelineRows(xs + ys, tagged) == TimelineRows(xs, tagged) + TimelineRows(ys, tagged)
  {
    FilterConcat(tagged, xs, ys);
    MapConcat(TimelineRow, Filter(tagged, xs), Filter(tagged, ys));
    FilterConcat(HasContent, Map(TimelineRow, Filter(tagged, xs)), Map(TimelineRow, Filter(tagged, ys)));
  }

  /** One entry gives its row exactly when it is tagged and its title is not blank. */
  lemma TimelineRowsSingle(item: Yaml, tagged: Yaml -> bool)
    ensures TimelineRows([item], tagged) ==
              if tagged(item) && TimelineRow(item).content != "" then [TimelineRow(item)] else []
  {
    FilterSingle(tagged, item);
    var rows := Map(TimelineRow, Filter(tagged, [item]));
    assert TimelineRows([item], tagged) == Filter(HasContent, rows);
    if tagged(item) {
      assert rows == [TimelineRow(item)];
      FilterSingle(HasContent, TimelineRow(item));
    } else {
      assert rows == [];
    }
  }

  function EducationRows(timeline: seq<Yaml>): seq<Row> {
    TimelineRows(timeline, IsEducation)
  }

  function WorkRows(timeline: seq<Yaml>): seq<Row> {
    TimelineRows(timeline, IsWork)
  }

  /** "（org）" after the certification, when the organisation is known. */
  function OrgSuffix(org: string): string {
    if org == "" then "" else "（" + org + "）"
  }

  /** `[a, b].filter(Boolean).join(' ')`. */
  lemma PartsOfPair(a: string, b: string)
    ensures Join(Filter(NonEmpty, [a, b]), " ") ==
              if a == "" then b else if b == "" then a else a + " " + b
  {
    assert [a, b] == [a] + [b];
    FilterConcat(NonEmpty, [a], [b]);
    FilterSingle(NonEmpty, a);
    FilterSingle(NonEmpty, b);
    if a != "" && b != "" {
      assert [a, b][1..] == [b];
    }
  }

  /** `buildCertificationContent`: the name and the result label joined by
      a space, leaving out whichever is blank, then the organisation; blank
      when both the name and the label are. */
  function CertificationContent(item: Yaml): (r: string)
    ensures var name := TrimmedText(Get(item, "name"));
            var resultLabel := TrimmedText(Get(item, "result_label"));
            var org := TrimmedText(Get(item, "org_name"));
            && (name == "" && resultLabel == "" ==> r == "")
            && (name != "" && resultLabel != "" ==> r == name + " " + resultLabel + OrgSuffix(org))
            && (name != "" && resultLabel == "" ==> r == name + OrgSuffix(org))
            && (name == "" && resultLabel != "" ==> r == resultLabel + OrgSuffix(org))
  {
    var name := TrimmedText(Get(item, "name"));
    var resultLabel := TrimmedText(Get(item, "result_label"));
    var org := TrimmedText(Get(item, "org_name"));
    PartsOfPair(name, resultLabel);
    var body := Join(Filter(NonEmpty, [name, resultLabel]), " ");
    if body == "" then "" else body + OrgSuffix(org)
  }

  /** What the certifications are ordered by: the untrimmed text of the date. */
  function CertKey(item: Yaml): string {
    NormalizeText(Get(item, "DateOfQualification"))
  }

  function CertRow(item: Yaml): Row {
    Row(FormatYearMonth(Get(item, "DateOfQualification")), CertificationContent(item))
  }

  /** The certifications sorted by date, as rows; one with no name and no
      resultLabel is dropped. */
  function CertRows(certifications: seq<Yaml>): (r: seq<Row>)
    ensures forall i :: 0 <= i < |r| ==> r[i].content != ""
  {
    Filter(HasContent, Map(CertRow, SortBy(certifications, CertKey)))
  }

  /** The order the certification rows come from: every certification once,
      by date, and certifications with the same date text in their order in
      the data. */
  lemma CertificationOrder(certifications: seq<Yaml>)
    ensures SortedBy(SortBy(certifications, CertKey), CertKey)
    ensures multiset(SortBy(certifications, CertKey)) == multiset(certifications)
    ensures forall k :: Filter(HasKey(CertKey, k), SortBy(certifications, CertKey)) == Filter(HasKey(CertKey, k), certifications)
  {
    SortBySorted(certifications, CertKey);
    forall k
      ensures Filter(HasKey(CertKey, k), SortBy(certifications, CertKey)) == Filter(HasKey(CertKey, k), certifications)
    {
      SortByStable(certifications, CertKey, k);
    }
  }

  // ---------------------------------------------------------------------
  // Replacing the rows of a table

  /** `createTableRow`, with the date cell centred. */
  function TableRowNode(r: Row): Node {
    Elem("tr", "", [TextElem("td", "h-1 center", r.yearMonth), TextElem("td", "", r.content)])
  }

  /** The closing row of the work history: an empty date and "以上" on the right. */
  function EndRow(): Node {
    Elem("tr", "", [TextElem("td", "h-1 center", ""), TextElem("td", "right", "以上")])
  }

  /** The rows of a table after `replaceTableRows`: the header row, one row
      per entry, then the closing row when asked for. A table with no row at
      all is left as it is. */
  function RebuiltRows(rows: seq<Node>, entries: seq<Row>, withEnd: bool): (r: seq<Node>)
    ensures rows == [] ==> r == []
    ensures rows != [] ==>
              && |r| == 1 + |entries| + (if withEnd then 1 else 0)
              && r[0] == rows[0]
              && (forall i :: 0 <= i < |entries| ==> r[1 + i] == TableRowNode(entries[i]))
              && (withEnd ==> r[|r| - 1] == EndRow())
  {
    if rows == [] then rows
    else [rows[0]] + Map(TableRowNode, entries) + (if withEnd then [EndRow()] else [])
  }

  /** Replacing the rows twice with the same entries is replacing them once. */
  lemma RebuiltRowsIdempotent(rows: seq<Node>, entries: seq<Row>, withEnd: bool)
    ensures RebuiltRows(RebuiltRows(rows, entries, withEnd), entries, withEnd) == RebuiltRows(rows, entries, withEnd)
  {
  }

  /** `replaceTableRows`: remove every row but the first, one at a time, then
      append the new rows. A missing table, or one without rows, is left alone. */
  method ReplaceTableRows(table: Table?, entries: seq<Row>, withEnd: bool)
    modifies table
    ensures table != null ==> table.rows == RebuiltRows(old(table.rows), entries, withEnd)
  {
    if table == null {
      return;
    }
    var allRows := table.rows;
    if |allRows| == 0 {
      return;
    }
    var i := 1;
    while i < |allRows|
      invariant 1 <= i <= |allRows|
      invariant table.rows == [allRows[0]] + allRows[i..]
    {
      table.rows := [table.rows[0]] + table.rows[2..];
      i := i + 1;
    }
    var k := 0;
    while k < |entries|
      invariant 0 <= k <= |entries|
      invariant table.rows == [allRows[0]] + Map(TableRowNode, entries[..k])
    {
      assert entries[..k + 1] == entries[..k] + [entries[k]];
      MapConcat(TableRowNode, entries[..k], [entries[k]]);
      table.rows := table.rows + [TableRowNode(entries[k])];
      k := k + 1;
    }
    assert entries[..k] == entries;
    if withEnd {
      table.rows := table.rows + [EndRow()];
    }
  }

  // ---------------------------------------------------------------------
  // The document

  const ResumeTitle := "履歴書.html"

  /** The text the builder writes into each named cell. The photo cell holds
      the address of the image it shows, and is only written when the form
      has a photo. */
  function CellTexts(data: ResumeData, form: FormState, today: Date, birthLabel: string): (r: map<string, string>)
    ensures "photo" in r <==> form.photoDataUrl != ""
  {
    var cells := map[
      "pronounce" := data.pronounce,
      "name" := data.name,
      "birth" := birthLabel,
      "gender" := data.gender,
      "date" := FormatTodayJa(today),
      "zip" := if form.postalCode != "" then "〒" + form.postalCode else "〒",
      "address" := form.address,
      "phone" := form.phone,
      "email" := data.email,
      "motivation" := form.motivation,
      "selfPr" := "職務経歴書参照",
      "preference" := form.preference];
    if form.photoDataUrl != "" then cells["photo" := form.photoDataUrl] else cells
  }

  /** `setCellText` on every cell: a cell the template has gets its new text,
      a cell it lacks is not created. */
  function Updated(cells: map<string, string>, texts: map<string, string>): (r: map<string, string>)
    ensures r.Keys == cells.Keys
    ensures forall k :: k in cells && k in texts ==> r[k] == texts[k]
    ensures forall k :: k in cells && k !in texts ==> r[k] == cells[k]
  {
    map k | k in cells :: if k in texts then texts[k] else cells[k]
  }

  lemma UpdatedIdempotent(cells: map<string, string>, texts: map<string, string>)
    ensures Updated(Updated(cells, texts), texts) == Updated(cells, texts)
  {
  }

  /** The résumé template: its title, the texts of the cells the builder
      writes, by name, and the three history tables (absent ones are null). */
  /** What a build reads and writes of the template: the title, the cell
      texts and the rows of each of the three tables that is present. */
  datatype ResumeState = ResumeState(title: string, cells: map<string, string>,
                                     education: Option<seq<Node>>, work: Option<seq<Node>>,
                                     licenses: Option<seq<Node>>)

  function RebuiltTable(rows: Option<seq<Node>>, entries: seq<Row>, withEnd: bool): Option<seq<Node>> {
    if rows.None? then None else Some(RebuiltRows(rows.value, entries, withEnd))
  }

  /** The state after writing the title, the cell texts and the rows of the
      three tables, the work table with its closing row. */
  function BuiltWith(s: ResumeState, texts: map<string, string>,
                     educationRows: seq<Row>, workRows: seq<Row>, licenseRows: seq<Row>): ResumeState {
    ResumeState(ResumeTitle, Updated(s.cells, texts),
                RebuiltTable(s.education, educationRows, false),
                RebuiltTable(s.work, workRows, true),
                RebuiltTable(s.licenses, licenseRows, false))
  }

  /** The template's state after `buildResumeHtml`, from its state before. */
  function BuiltState(s: ResumeState, data: ResumeData, form: FormState, today: Date, parseDate: ParseDate): ResumeState {
    BuiltWith(s, CellTexts(data, form, today,
                           BirthLabel(ToInputDate(data.birth, parseDate), AgeText(data.birth, parseDate, today))),
              EducationRows(data.timeline), WorkRows(data.timeline), CertRows(data.certifications))
  }

  /** Writing the same texts and rows twice leaves what writing them once leaves. */
  lemma BuiltWithIdempotent(s: ResumeState, texts: map<string, string>,
                            educationRows: seq<Row>, workRows: seq<Row>, licenseRows: seq<Row>)
    ensures BuiltWith(BuiltWith(s, texts, educationRows, workRows, licenseRows), texts, educationRows, workRows, licenseRows)
            == BuiltWith(s, texts, educationRows, workRows, licenseRows)
  {
    UpdatedIdempotent(s.cells, texts);
    if s.education.Some? {
      RebuiltRowsIdempotent(s.education.value, educationRows, false);
    }
    if s.work.Some? {
      RebuiltRowsIdempotent(s.work.value, workRows, true);
    }
    if s.licenses.Some? {
      RebuiltRowsIdempotent(s.licenses.value, licenseRows, false);
    }
  }

  class ResumeDocument {
    var title: string
    var cells: map<string, string>
    const education: Table?
    const work: Table?
    const licenses: Table?

    constructor(title: string, cells: map<string, string>, education: Table?, work: Table?, licenses: Table?)
      ensures this.title == title && this.cells == cells
      ensures this.education == education && this.work == work && this.licenses == licenses
    {
      this.title := title;
      this.cells := cells;
      this.education := education;
      this.work := work;
      this.licenses := licenses;
    }

    /** The three tables are different elements. */
    predicate TablesDistinct()
    {
      && (education != null && work != null ==> education != work)
      && (education != null && licenses != null ==> education != licenses)
      && (work != null && licenses != null ==> work != licenses)
    }

    function State(): ResumeState
      reads this, education, work, licenses
    {
      ResumeState(title, cells,
                  if education == null then None else Some(education.rows),
                  if work == null then None else Some(work.rows),
                  if licenses == null then None else Some(licenses.rows))
    }

    /** `buildResumeHtml` on this template, on the day `today`. */
    method Build(data: ResumeData, form: FormState, today: Date, parseDate: ParseDate)
      requires TablesDistinct()
      modifies this, education, work, licenses
      ensures title == ResumeTitle
      ensures cells == Updated(old(cells), CellTexts(data, form, today,
                                 BirthLabel(ToInputDate(data.birth, parseDate), AgeText(data.birth, parseDate, today))))
      ensures education != null ==> education.rows == RebuiltRows(old(education.rows), EducationRows(data.timeline), false)
      ensures work != null ==> work.rows == RebuiltRows(old(work.rows), WorkRows(data.timeline), true)
      ensures licenses != null ==> licenses.rows == RebuiltRows(old(licenses.rows), CertRows(data.certifications), false)
      ensures State() == BuiltState(old(State()), data, form, today, parseDate)
    {
      var age := CalcAge(data.birth, parseDate, today);
      var birthLabel := BirthLabel(ToInputDate(data.birth, parseDate), age);
      Write(CellTexts(data, form, today, birthLabel),
            EducationRows(data.timeline), WorkRows(data.timeline), CertRows(data.certifications));
    }

    /** The writes of a build: the title, the cell texts, then the rows of
        the education, work and certification tables. */
    method Write(texts: map<string, string>, educationRows: seq<Row>, workRows: seq<Row>, licenseRows: seq<Row>)
      requires TablesDistinct()
      modifies this, education, work, licenses
      ensures title == ResumeTitle
      ensures cells == Updated(old(cells), texts)
      ensures education != null ==> education.rows == RebuiltRows(old(education.rows), educationRows, false)
      ensures work != null ==> work.rows == RebuiltRows(old(work.rows), workRows, true)
      ensures licenses != null ==> licenses.rows == RebuiltRows(old(licenses.rows), licenseRows, false)
      ensures State() == BuiltWith(old(State()), texts, educationRows, workRows, licenseRows)
    {
      title := ResumeTitle;
      cells := Updated(cells, texts);
      ReplaceTableRows(education, educationRows, false);
      ReplaceTableRows(work, workRows, true);
      ReplaceTableRows(licenses, licenseRows, false);
    }
  }

  /** Building an already built template again with the same data changes
      nothing: by `ResumeDocument.Build`'s contract, two builds leave the
      state one build leaves. */
  lemma RebuildStable(s: ResumeState, data: ResumeData, form: FormState, today: Date, parseDate: ParseDate)
    ensures BuiltState(BuiltState(s, data, form, today, parseDate), data, form, today, parseDate)
            == BuiltState(s, data, form, today, parseDate)
  {
    BuiltWithIdempotent(s, CellTexts(data, form, today,
                                     BirthLabel(ToInputDate(data.birth, parseDate), AgeText(data.birth, parseDate, today))),
                        EducationRows(data.timeline), WorkRows(data.timeline), CertRows(data.certifications));
  }

}
