/** The per-field checks every schema validator applies (each validator file
    of the source carries its own copy of these). */
module Fields {
  import opened Wrappers
  import opened Text
  import opened Yaml

  /** A string that is not blank; returned as given, untrimmed. */
  function RequiredString(v: Yaml, path: string): (r: Result<string>)
    ensures r.Ok? <==> v.YStr? && !AllSpace(v.s)
    ensures r.Ok? ==> r.value == v.s && Trim(r.value) != ""
    ensures r.Err? ==> r.error == path + " is required and must be a non-empty string"
  {
    if !v.YStr? || Trim(v.s) == "" then Err(path + " is required and must be a non-empty string")
    else Ok(v.s)
  }

  /** An optional string: absent and null both read as "no value". */
  function OptionalString(v: Yaml, path: string): (r: Result<Option<string>>)
    ensures IsNullish(v) ==> r == Ok(None)
    ensures v.YStr? ==> r == Ok(Some(v.s))
    ensures r.Ok? <==> IsNullish(v) || v.YStr?
    ensures r.Err? ==> r.error == path + " must be a string"
  {
    if IsNullish(v) then Ok(None)
    else if !v.YStr? then Err(path + " must be a string")
    else Ok(Some(v.s))
  }

  /** An optional list of strings: absent and null both read as the empty list. */
  function OptionalStringArray(v: Yaml, path: string): (r: Result<seq<string>>)
    ensures IsNullish(v) ==> r == Ok([])
    ensures r.Ok? <==> IsNullish(v) || IsStringArray(v)
    ensures IsStringArray(v) ==>
              r.Ok? && |r.value| == |v.items| && forall i :: 0 <= i < |v.items| ==> v.items[i] == YStr(r.value[i])
    ensures r.Err? ==> r.error == path + " must be string[]"
  {
    if IsNullish(v) then Ok([])
    else if !IsStringArray(v) then Err(path + " must be string[]")
    else Ok(Strings(v.items))
  }

  /** The YAML a present optional string is written as (null when absent). */
  function OptionalToYaml(o: Option<string>): Yaml {
    match o
    case Some(s) => YStr(s)
    case None => YNull
  }

  lemma OptionalStringRoundTrip(o: Option<string>, path: string)
    ensures OptionalString(OptionalToYaml(o), path) == Ok(o)
  {
  }

  lemma OptionalStringArrayRoundTrip(xs: seq<string>, path: string)
    ensures OptionalStringArray(StringList(xs), path) == Ok(xs)
  {
  }

  /** The record `v` holds the non-blank string `s` under `key`. */
  predicate RequiredFieldIs(v: Yaml, key: string, s: string) {
    Get(v, key) == YStr(s) && !AllSpace(s)
  }

  /** The record `v` holds `o` under `key`, reading absent and null as no value. */
  predicate OptionalFieldIs(v: Yaml, key: string, o: Option<string>) {
    match o
    case Some(s) => Get(v, key) == YStr(s)
    case None => IsNullish(Get(v, key))
  }

  /** The record `v` holds the string list `xs` under `key`, reading absent
      and null as the empty list. */
  predicate ListFieldIs(v: Yaml, key: string, xs: seq<string>) {
    Get(v, key) == StringList(xs) || (IsNullish(Get(v, key)) && xs == [])
  }

  /** The field `key` of `v` is absent, null or a list of strings. */
  predicate ListFieldOk(v: Yaml, key: string) {
    IsNullish(Get(v, key)) || IsStringArray(Get(v, key))
  }

  /** The field `key` of `v` is absent, null or a string. */
  predicate OptionalFieldOk(v: Yaml, key: string) {
    IsNullish(Get(v, key)) || Get(v, key).YStr?
  }

  lemma OptionalStringReads(v: Yaml, key: string, path: string)
    requires OptionalString(Get(v, key), path).Ok?
    ensures OptionalFieldIs(v, key, OptionalString(Get(v, key), path).value)
  {
  }

  lemma OptionalStringArrayReads(v: Yaml, key: string, path: string)
    requires OptionalStringArray(Get(v, key), path).Ok?
    ensures ListFieldIs(v, key, OptionalStringArray(Get(v, key), path).value)
  {
    var f := Get(v, key);
    if IsStringArray(f) {
      StringListOfStrings(f.items);
    }
  }

  lemma ListFieldDetermines(v: Yaml, key: string, xs: seq<string>, ys: seq<string>)
    requires ListFieldIs(v, key, xs) && ListFieldIs(v, key, ys)
    ensures xs == ys
  {
    if Get(v, key) == StringList(xs) && Get(v, key) == StringList(ys) {
      assert Strings(StringList(xs).items) == xs;
    }
  }

  /** `[index]` as it appears in a path. */
  function Index(i: nat): string {
    "[" + NatToString(i) + "]"
  }
}
