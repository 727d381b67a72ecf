/** The parsed YAML value the validators and loaders receive, with the
    JavaScript operations they apply to it: `typeof`/`Array.isArray` tests,
    property access, `Object.entries`, truthiness and `String(...)`. */
module Yaml {
  import opened Wrappers
  import opened Text
  import opened Seqs

  /** A calendar date, as js-yaml produces from a `YYYY-MM-DD` scalar. */
  datatype Date = Date(year: nat, month: nat, day: nat)

  /** The dates a YAML timestamp denotes: a four-digit year and a real month and day. */
  predicate ValidDate(d: Date) {
    d.year <= 9999 && 1 <= d.month <= 12 && 1 <= d.day <= 31
  }

  /** A parsed YAML value. `YUndefined` stands for JavaScript's `undefined`,
      which is what reading an absent key yields. A mapping keeps its keys in
      document order beside the lookup table. */
  datatype Yaml =
    | YUndefined
    | YNull
    | YBool(b: bool)
    | YNum(n: int)
    | YStr(s: string)
    | YDate(date: Date)
    | YList(items: seq<Yaml>)
    | YMap(keys: seq<string>, fields: map<string, Yaml>)

  /** `typeof value === 'object' && value !== null`: true of mappings, of
      lists and of dates alike. */
  predicate IsRecord(v: Yaml) {
    v.YMap? || v.YList? || v.YDate?
  }

  /** `value === undefined || value === null`. */
  predicate IsNullish(v: Yaml) {
    v.YUndefined? || v.YNull?
  }

  /** `value[key]` for a non-numeric key: only a mapping has such a property. */
  function Get(v: Yaml, key: string): (r: Yaml)
    ensures !v.YMap? ==> r == YUndefined
  {
    if v.YMap? && key in v.fields then v.fields[key] else YUndefined
  }

  /** `value[0]`: the first element of a list, `undefined` otherwise. */
  function First(v: Yaml): Yaml {
    if v.YList? && |v.items| > 0 then v.items[0] else YUndefined
  }

  /** `Object.entries(value)` for a record: a mapping's keys in order, a
      list's indices as strings, nothing for a date. */
  function Entries(v: Yaml): seq<(string, Yaml)> {
    match v
    case YMap(keys, fields) => MapEntries(keys, fields)
    case YList(items) => seq(|items|, i requires 0 <= i < |items| => (NatToString(i), items[i]))
    case _ => []
  }

  function MapEntries(keys: seq<string>, fields: map<string, Yaml>): (r: seq<(string, Yaml)>)
    ensures forall i :: 0 <= i < |r| ==> r[i].0 in fields && r[i].1 == fields[r[i].0]
  {
    if keys == [] then []
    else (if keys[0] in fields then [(keys[0], fields[keys[0]])] else []) + MapEntries(keys[1..], fields)
  }

  /** `Boolean(value)`. */
  predicate Truthy(v: Yaml) {
    match v
    case YUndefined => false
    case YNull => false
    case YBool(b) => b
    case YNum(n) => n != 0
    case YStr(s) => s != ""
    case _ => true
  }

  /** `Array.isArray(value) && value.every((item) => typeof item === 'string')`. */
  predicate IsStringArray(v: Yaml) {
    v.YList? && forall i :: 0 <= i < |v.items| ==> v.items[i].YStr?
  }

  /** The strings of a list of strings. */
  function Strings(items: seq<Yaml>): (r: seq<string>)
    requires forall i :: 0 <= i < |items| ==> items[i].YStr?
    ensures |r| == |items| && forall i :: 0 <= i < |items| ==> items[i] == YStr(r[i])
  {
    seq(|items|, i requires 0 <= i < |items| => items[i].s)
  }

  /** A list holding the given strings. */
  function StringList(xs: seq<string>): (v: Yaml)
    ensures IsStringArray(v) && Strings(v.items) == xs
  {
    YList(seq(|xs|, i requires 0 <= i < |xs| => YStr(xs[i])))
  }

  lemma StringListOfStrings(items: seq<Yaml>)
    requires forall i :: 0 <= i < |items| ==> items[i].YStr?
    ensures StringList(Strings(items)) == YList(items)
  {
    assert StringList(Strings(items)).items == items;
  }

  /** `date.toISOString().slice(0, 10)`: the date as "YYYY-MM-DD". */
  function IsoDate(d: Date): string {
    PadNat(d.year, 4) + "-" + PadNat(d.month, 2) + "-" + PadNat(d.day, 2)
  }

  /** Reads back a "YYYY-MM-DD" string. */
  function ParseIsoDate(s: string): Option<Date> {
    if |s| == 10 && AllDigits(s[..4]) && s[4] == '-' && AllDigits(s[5..7]) && s[7] == '-' && AllDigits(s[8..])
    then Some(Date(DigitsValue(s[..4]), DigitsValue(s[5..7]), DigitsValue(s[8..])))
    else None
  }

  /** The ISO rendering of a date is ten characters of the form YYYY-MM-DD
      and reads back as the same date. */
  lemma IsoDateRoundTrip(d: Date)
    requires ValidDate(d)
    ensures |IsoDate(d)| == 10
    ensures ParseIsoDate(IsoDate(d)) == Some(d)
  {
    assert Power10(4) == 10000 && Power10(2) == 100;
    PadNatShort(d.year, 4);
    PadNatShort(d.month, 2);
    PadNatShort(d.day, 2);
    var y, m, dd := PadNat(d.year, 4), PadNat(d.month, 2), PadNat(d.day, 2);
    var s := IsoDate(d);
    assert s[..4] == y && s[5..7] == m && s[8..] == dd;
  }

  /** `String(value)`. A date is rendered in ISO form here, at any depth,
      where JavaScript would use `Date.prototype.toString`. */
  function JsString(v: Yaml): string
    decreases v
  {
    match v
    case YUndefined => "undefined"
    case YNull => "null"
    case YBool(b) => if b then "true" else "false"
    case YNum(n) => IntToString(n)
    case YStr(s) => s
    case YDate(d) => IsoDate(d)
    case YList(items) =>
      Join(seq(|items|, i requires 0 <= i < |items| =>
        if IsNullish(items[i]) then "" else JsString(items[i])), ",")
    case YMap(_, _) => "[object Object]"
  }

  /** `normalizeText`: '' for null and undefined, the ISO form of a date,
      `String(value)` for everything else. */
  function NormalizeText(v: Yaml): (r: string)
    ensures IsNullish(v) ==> r == ""
    ensures v.YStr? ==> r == v.s
    ensures v.YNum? ==> r == IntToString(v.n)
    ensures v.YDate? ==> r == IsoDate(v.date)
  {
    if IsNullish(v) then "" else JsString(v)
  }

  /** `normalizeText(value).trim()`. */
  function TrimmedText(v: Yaml): (r: string)
    ensures IsTrimmed(r)
  {
    Trim(NormalizeText(v))
  }
}
