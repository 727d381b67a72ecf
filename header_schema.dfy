/** The header validator: a list of link blocks, each an object whose every
    key maps to a list of `{link}` items. */
module HeaderSchema {
  import opened Wrappers
  import opened Text
  import opened Seqs
  import opened Yaml
  import opened Fields

  datatype LinkItem = LinkItem(link: Option<string>)

  /** A normalised link block: each key's items. */
  type LinkBlock = map<string, seq<LinkItem>>

  /** A link item: a record whose `link` is absent or a string (null is refused). */
  function ParseLinkItem(v: Yaml, path: string): (r: Result<LinkItem>)
    ensures !IsRecord(v) ==> r == Err(path + " must be an object")
    ensures r.Ok? <==> IsRecord(v) && (Get(v, "link").YUndefined? || Get(v, "link").YStr?)
    ensures IsRecord(v) && !r.Ok? ==> r == Err(path + ".link must be a string")
    ensures r.Ok? ==> (r.value.link == None <==> Get(v, "link").YUndefined?)
    ensures r.Ok? && r.value.link.Some? ==> Get(v, "link") == YStr(r.value.link.value)
  {
    if !IsRecord(v) then Err(path + " must be an object")
    else
      var link := Get(v, "link");
      if !link.YUndefined? && !link.YStr? then Err(path + ".link must be a string")
      else Ok(LinkItem(if link.YStr? then Some(link.s) else None))
  }

  function KeyPath(path: string, key: string): string {
    path + "." + key
  }

  /** The items under one key of a block. */
  function ParseKeyItems(key: string, raw: Yaml, path: string): (r: Result<seq<LinkItem>>)
    ensures !raw.YList? ==> r == Err(KeyPath(path, key) + " must be an array")
    ensures r.Ok? ==> raw.YList? && |r.value| == |raw.items|
    ensures r.Ok? ==> forall i :: 0 <= i < |raw.items| ==>
                        ParseLinkItem(raw.items[i], KeyPath(path, key) + Index(i)) == Ok(r.value[i])
  {
    if !raw.YList? then Err(KeyPath(path, key) + " must be an array")
    else Traverse(raw.items, (item, i: nat) => ParseLinkItem(item, KeyPath(path, key) + Index(i)))
  }

  /** The block built from the first `|entries|` entries, in order: later
      entries overwrite earlier ones with the same key. */
  function LinkEntries(entries: seq<(string, Yaml)>, path: string): (r: Result<LinkBlock>)
  {
    if entries == [] then Ok(map[])
    else
      var m :- LinkEntries(entries[..|entries| - 1], path);
      var (key, raw) := entries[|entries| - 1];
      var items :- ParseKeyItems(key, raw, path);
      Ok(m[key := items])
  }

  /** The specification of `ParseLinkBlock`. */
  function LinkBlockOf(v: Yaml, path: string): Result<LinkBlock> {
    if !IsRecord(v) then Err(path + " must be an object")
    else if Entries(v) == [] then Err(path + " must contain at least one key")
    else LinkEntries(Entries(v), path)
  }

  /** Once building a block fails, the later entries do not change the error. */
  lemma {:induction false} LinkEntriesErrorPersists(entries: seq<(string, Yaml)>, n: nat, path: string)
    requires n <= |entries| && LinkEntries(entries[..n], path).Err?
    ensures LinkEntries(entries, path) == LinkEntries(entries[..n], path)
    decreases |entries| - n
  {
    if n < |entries| {
      assert entries[..n + 1][..n] == entries[..n];
      LinkEntriesErrorPersists(entries, n + 1, path);
    } else {
      assert entries[..n] == entries;
    }
  }

  /** `parseLinkBlock`: walks `Object.entries(value)` once, filling the normalised block. */
  method ParseLinkBlock(v: Yaml, path: string) returns (r: Result<LinkBlock>)
    ensures r == LinkBlockOf(v, path)
  {
    if !IsRecord(v) {
      return Err(path + " must be an object");
    }
    var entries := Entries(v);
    if |entries| == 0 {
      return Err(path + " must contain at least one key");
    }
    var normalized: LinkBlock := map[];
    var i := 0;
    while i < |entries|
      invariant 0 <= i <= |entries|
      invariant LinkEntries(entries[..i], path) == Ok(normalized)
    {
      var (key, rawItems) := entries[i];
      assert entries[..i + 1][..i] == entries[..i];
      if !rawItems.YList? {
        LinkEntriesErrorPersists(entries, i + 1, path);
        return Err(KeyPath(path, key) + " must be an array");
      }
      var items := ParseKeyItems(key, rawItems, path);
      if items.Err? {
        LinkEntriesErrorPersists(entries, i + 1, path);
        return Err(items.error);
      }
      normalized := normalized[key := items.value];
      i := i + 1;
    }
    assert entries[..i] == entries;
    return Ok(normalized);
  }

  /** A completed block has exactly the keys of the entries... */
  lemma {:induction false} LinkEntriesKeys(entries: seq<(string, Yaml)>, path: string)
    requires LinkEntries(entries, path).Ok?
    ensures forall k :: k in LinkEntries(entries, path).value <==> exists j :: 0 <= j < |entries| && entries[j].0 == k
  {
    if entries != [] {
      var front := entries[..|entries| - 1];
      LinkEntriesKeys(front, path);
      forall k ensures k in LinkEntries(entries, path).value <==> exists j :: 0 <= j < |entries| && entries[j].0 == k {
        if exists j :: 0 <= j < |front| && front[j].0 == k {
          var j :| 0 <= j < |front| && front[j].0 == k;
          assert entries[j].0 == k;
        }
        if exists j :: 0 <= j < |entries| && entries[j].0 == k {
          var j :| 0 <= j < |entries| && entries[j].0 == k;
          if j < |front| { assert front[j].0 == k; }
        }
      }
    }
  }

  /** ...and each key holds the items of its last entry, one item per element. */
  lemma {:induction false} LinkEntriesItems(entries: seq<(string, Yaml)>, path: string, j: nat)
    requires LinkEntries(entries, path).Ok? && j < |entries|
    requires forall l :: j < l < |entries| ==> entries[l].0 != entries[j].0
    ensures entries[j].1.YList?
    ensures entries[j].0 in LinkEntries(entries, path).value
    ensures ParseKeyItems(entries[j].0, entries[j].1, path) == Ok(LinkEntries(entries, path).value[entries[j].0])
    ensures |LinkEntries(entries, path).value[entries[j].0]| == |entries[j].1.items|
  {
    var front := entries[..|entries| - 1];
    if j < |front| {
      assert front[j] == entries[j];
      LinkEntriesItems(front, path, j);
    }
  }

  /** Every entry of a completed block was a list whose items all validated. */
  lemma {:induction false} LinkEntriesAllLists(entries: seq<(string, Yaml)>, path: string, j: nat)
    requires LinkEntries(entries, path).Ok? && j < |entries|
    ensures entries[j].1.YList? && ParseKeyItems(entries[j].0, entries[j].1, path).Ok?
  {
    var front := entries[..|entries| - 1];
    if j < |front| {
      assert front[j] == entries[j];
      LinkEntriesAllLists(front, path, j);
    }
  }

  /** An accepted block keeps every key of the record, so it is never empty. */
  lemma LinkBlockKeys(v: Yaml, path: string)
    requires LinkBlockOf(v, path).Ok?
    ensures Entries(v) != []
    ensures forall k :: k in LinkBlockOf(v, path).value <==> exists j :: 0 <= j < |Entries(v)| && Entries(v)[j].0 == k
    ensures Entries(v)[0].0 in LinkBlockOf(v, path).value
  {
    LinkEntriesKeys(Entries(v), path);
  }

  function LinkBlockPath(source: string, i: nat): string {
    "[" + source + "] links" + Index(i)
  }

  /** A header file: its link blocks, in order, with absent and null read as none. */
  function ParseHeaderYaml(v: Yaml, source: string): (r: Result<seq<LinkBlock>>)
    ensures !IsRecord(v) ==> r == Err("[" + source + "] root must be an object")
    ensures IsRecord(v) && IsNullish(Get(v, "links")) ==> r == Ok([])
    ensures IsRecord(v) && !IsNullish(Get(v, "links")) && !Get(v, "links").YList? ==>
              r == Err("[" + source + "] links must be an array")
    ensures IsRecord(v) && Get(v, "links").YList? ==>
              (r.Ok? <==> forall i :: 0 <= i < |Get(v, "links").items| ==>
                            LinkBlockOf(Get(v, "links").items[i], LinkBlockPath(source, i)).Ok?)
    ensures r.Ok? && Get(v, "links").YList? ==>
              var items := Get(v, "links").items;
              |r.value| == |items|
              && forall i :: 0 <= i < |items| ==> LinkBlockOf(items[i], LinkBlockPath(source, i)) == Ok(r.value[i])
  {
    if !IsRecord(v) then Err("[" + source + "] root must be an object")
    else
      var raw := Get(v, "links");
      if IsNullish(raw) then Ok([])
      else if !raw.YList? then Err("[" + source + "] links must be an array")
      else Traverse(raw.items, (item, i: nat) => LinkBlockOf(item, LinkBlockPath(source, i)))
  }

  /** A date is an object with no keys, so it is refused as an empty block. */
  lemma DateIsEmptyBlock(d: Date, path: string)
    ensures LinkBlockOf(YDate(d), path) == Err(path + " must contain at least one key")
  {
  }
}
