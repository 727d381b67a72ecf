/** The career timeline validator: each entry's scalars are normalised to
    strings and its dot style is one of a closed set. */
module HistorySchema {
  import opened Wrappers
  import opened Text
  import opened Seqs
  import opened Yaml
  import opened Fields

  datatype DotVariant = Filled | Outlined

  datatype TimelineItem = TimelineItem(
    id: Option<string>,
    time: Option<string>,
    title: Option<string>,
    tags: seq<string>,
    organizationUrl: Option<string>,
    details: seq<string>,
    dotColor: Option<string>,
    dotVariant: Option<DotVariant>)

  /** A scalar that reads as text: a string as is, a number in decimal, a
      date as "YYYY-MM-DD". */
  predicate IsScalar(v: Yaml) {
    v.YStr? || v.YNum? || v.YDate?
  }

  /** The text a scalar reads as. */
  predicate ScalarReadsAs(v: Yaml, s: string) {
    match v
    case YStr(t) => s == t
    case YNum(n) => s == IntToString(n)
    case YDate(d) => s == IsoDate(d)
    case _ => false
  }

  function OptionalScalarString(v: Yaml, path: string): (r: Result<Option<string>>)
    ensures r.Ok? <==> IsNullish(v) || IsScalar(v)
    ensures r == Ok(None) <==> IsNullish(v)
    ensures r.Ok? && r.value.Some? ==> ScalarReadsAs(v, r.value.value)
    ensures r.Err? ==> r.error == path + " must be a string/number/date"
  {
    if IsNullish(v) then Ok(None)
    else if v.YDate? then Ok(Some(IsoDate(v.date)))
    else if v.YStr? || v.YNum? then Ok(Some(JsString(v)))
    else Err(path + " must be a string/number/date")
  }

  /** A date survives normalisation as the text it is read back from. */
  lemma ScalarDateRoundTrip(d: Date, path: string)
    requires ValidDate(d)
    ensures OptionalScalarString(YDate(d), path).Ok?
    ensures ParseIsoDate(OptionalScalarString(YDate(d), path).value.value) == Some(d)
  {
    IsoDateRoundTrip(d);
  }

  /** A number survives normalisation as its decimal digits. */
  lemma ScalarNumberDigits(n: nat, path: string)
    ensures OptionalScalarString(YNum(n), path) == Ok(Some(NatToString(n)))
    ensures DigitsValue(NatToString(n)) == n
  {
  }

  /** `dotVariant` is absent (not null), or one of the two styles. */
  predicate DotVariantOk(v: Yaml) {
    v.YUndefined? || v == YStr("filled") || v == YStr("outlined")
  }

  function DotVariantOf(v: Yaml): Option<DotVariant> {
    if v == YStr("filled") then Some(Filled)
    else if v == YStr("outlined") then Some(Outlined)
    else None
  }

  /** The reference reading of what `ParseTimelineItem` accepts. */
  predicate TimelineAccepts(v: Yaml) {
    && IsRecord(v)
    && DotVariantOk(Get(v, "dotVariant"))
    && OptionalFieldOk(v, "id")
    && (IsNullish(Get(v, "time")) || IsScalar(Get(v, "time")))
    && OptionalFieldOk(v, "title")
    && ListFieldOk(v, "tags")
    && OptionalFieldOk(v, "organizationUrl")
    && ListFieldOk(v, "details")
    && OptionalFieldOk(v, "dotColor")
  }

  /** The item's fields are what the record `v` holds. */
  predicate TimelineFieldsAre(v: Yaml, t: TimelineItem) {
    && OptionalFieldIs(v, "id", t.id)
    && (match t.time
        case None => IsNullish(Get(v, "time"))
        case Some(s) => ScalarReadsAs(Get(v, "time"), s))
    && OptionalFieldIs(v, "title", t.title)
    && ListFieldIs(v, "tags", t.tags)
    && OptionalFieldIs(v, "organizationUrl", t.organizationUrl)
    && ListFieldIs(v, "details", t.details)
    && OptionalFieldIs(v, "dotColor", t.dotColor)
    && (t.dotVariant == Some(Filled) <==> Get(v, "dotVariant") == YStr("filled"))
    && (t.dotVariant == Some(Outlined) <==> Get(v, "dotVariant") == YStr("outlined"))
  }

  function ParseTimelineFields(v: Yaml, path: string, dot: Option<DotVariant>): (r: Result<TimelineItem>)
    ensures r.Ok? <==>
              && OptionalFieldOk(v, "id")
              && (IsNullish(Get(v, "time")) || IsScalar(Get(v, "time")))
              && OptionalFieldOk(v, "title")
              && ListFieldOk(v, "tags")
              && OptionalFieldOk(v, "organizationUrl")
              && ListFieldOk(v, "details")
              && OptionalFieldOk(v, "dotColor")
    ensures r.Ok? ==> r.value.dotVariant == dot
    ensures r.Ok? ==>
              && OptionalFieldIs(v, "id", r.value.id)
              && (match r.value.time
                  case None => IsNullish(Get(v, "time"))
                  case Some(s) => ScalarReadsAs(Get(v, "time"), s))
              && OptionalFieldIs(v, "title", r.value.title)
              && ListFieldIs(v, "tags", r.value.tags)
              && OptionalFieldIs(v, "organizationUrl", r.value.organizationUrl)
              && ListFieldIs(v, "details", r.value.details)
              && OptionalFieldIs(v, "dotColor", r.value.dotColor)
  {
    var id :- OptionalString(Get(v, "id"), path + ".id");
    var time :- OptionalScalarString(Get(v, "time"), path + ".time");
    var title :- OptionalString(Get(v, "title"), path + ".title");
    var tags :- OptionalStringArray(Get(v, "tags"), path + ".tags");
    var organizationUrl :- OptionalString(Get(v, "organizationUrl"), path + ".organizationUrl");
    var details :- OptionalStringArray(Get(v, "details"), path + ".details");
    var dotColor :- OptionalString(Get(v, "dotColor"), path + ".dotColor");
    OptionalStringReads(v, "id", path + ".id");
    OptionalStringReads(v, "title", path + ".title");
    OptionalStringReads(v, "organizationUrl", path + ".organizationUrl");
    OptionalStringReads(v, "dotColor", path + ".dotColor");
    OptionalStringArrayReads(v, "tags", path + ".tags");
    OptionalStringArrayReads(v, "details", path + ".details");
    Ok(TimelineItem(id, time, title, tags, organizationUrl, details, dotColor, dot))
  }

  /** One timeline entry; the dot style is checked before any other field. */
  function ParseTimelineItem(v: Yaml, path: string): (r: Result<TimelineItem>)
    ensures !IsRecord(v) ==> r == Err(path + " must be an object")
    ensures IsRecord(v) && !DotVariantOk(Get(v, "dotVariant")) ==>
              r == Err(path + ".dotVariant must be \"filled\" or \"outlined\"")
    ensures r.Ok? <==> TimelineAccepts(v)
    ensures r.Ok? ==> TimelineFieldsAre(v, r.value)
  {
    if !IsRecord(v) then Err(path + " must be an object")
    else
      var dotRaw := Get(v, "dotVariant");
      if !DotVariantOk(dotRaw) then Err(path + ".dotVariant must be \"filled\" or \"outlined\"")
      else ParseTimelineFields(v, path, DotVariantOf(dotRaw))
  }

  /** A `dotVariant` given as null is refused, unlike every other optional field. */
  lemma NullDotVariantRefused(v: Yaml, path: string)
    requires IsRecord(v) && Get(v, "dotVariant") == YNull
    ensures ParseTimelineItem(v, path) == Err(path + ".dotVariant must be \"filled\" or \"outlined\"")
  {
  }

  function TimelinePath(source: string, i: nat): string {
    "[" + source + "] timeline" + Index(i)
  }

  /** A history file: its timeline, in order, with absent and null read as empty. */
  function ParseHistoryYaml(v: Yaml, source: string): (r: Result<seq<TimelineItem>>)
    ensures !IsRecord(v) ==> r == Err("[" + source + "] root must be an object")
    ensures IsRecord(v) && IsNullish(Get(v, "timeline")) ==> r == Ok([])
    ensures IsRecord(v) && !IsNullish(Get(v, "timeline")) && !Get(v, "timeline").YList? ==>
              r == Err("[" + source + "] timeline must be an array")
    ensures IsRecord(v) && Get(v, "timeline").YList? ==>
              (r.Ok? <==> forall i :: 0 <= i < |Get(v, "timeline").items| ==> TimelineAccepts(Get(v, "timeline").items[i]))
    ensures r.Ok? && Get(v, "timeline").YList? ==>
              var items := Get(v, "timeline").items;
              |r.value| == |items|
              && forall i :: 0 <= i < |items| ==> ParseTimelineItem(items[i], TimelinePath(source, i)) == Ok(r.value[i])
  {
    if !IsRecord(v) then Err("[" + source + "] root must be an object")
    else
      var raw := Get(v, "timeline");
      if IsNullish(raw) then Ok([])
      else if !raw.YList? then Err("[" + source + "] timeline must be an array")
      else Traverse(raw.items, (item, i: nat) => ParseTimelineItem(item, TimelinePath(source, i)))
  }
}
