/** `loadProjectsConfig`: fetch the projects index, validate it, and when it
    lists files fetch and validate each one, keeping the index order. */
module LoadProjects {
  import opened Wrappers
  import opened Text
  import opened Seqs
  import opened Yaml
  import opened Fetching
  import opened ProjectSchema

  /** Fetch one referenced project file and validate it under its own path. */
  function LoadRef(fetch: Fetch, parse: ParseYaml, baseUrl: string, file: string): (r: Result<ProjectEntry>)
    ensures fetch(ResolveUrl(baseUrl, file)).ok && parse(fetch(ResolveUrl(baseUrl, file)).body).Ok? ==>
              r == ParseProjectEntry(parse(fetch(ResolveUrl(baseUrl, file)).body).value, file)
    ensures !fetch(ResolveUrl(baseUrl, file)).ok ==> r == Err(FetchYamlText(fetch, ResolveUrl(baseUrl, file)).error)
    ensures fetch(ResolveUrl(baseUrl, file)).ok && parse(fetch(ResolveUrl(baseUrl, file)).body).Err? ==>
              r == Err(parse(fetch(ResolveUrl(baseUrl, file)).body).error)
  {
    var parsed :- FetchYaml(fetch, parse, ResolveUrl(baseUrl, file));
    ParseProjectEntry(parsed, file)
  }

  /** The classified index, or the error that stopped the load before it. */
  function LoadIndex(fetch: Fetch, parse: ParseYaml, configPath: string, baseUrl: string): (r: Result<ProjectIndex>)
    ensures !fetch(ResolveUrl(baseUrl, configPath)).ok ==> r == Err(FetchYamlText(fetch, ResolveUrl(baseUrl, configPath)).error)
    ensures fetch(ResolveUrl(baseUrl, configPath)).ok ==>
              var parsed := parse(fetch(ResolveUrl(baseUrl, configPath)).body);
              && (parsed.Err? ==> r == Err(parsed.error))
              && (parsed.Ok? ==> r == ParseProjectEntriesRoot(parsed.value, configPath))
    ensures r.Ok? && r.value.Refs? ==> forall i :: 0 <= i < |r.value.refs| ==> SafeRefPath(r.value.refs[i])
  {
    var parsed :- FetchYaml(fetch, parse, ResolveUrl(baseUrl, configPath));
    ParseProjectEntriesRoot(parsed, configPath)
  }

  /** The referenced files, loaded in index order; the first failing one
      decides the error. */
  function LoadRefs(fetch: Fetch, parse: ParseYaml, baseUrl: string, refs: seq<string>): (r: Result<seq<ProjectEntry>>)
    ensures r.Ok? <==> forall i :: 0 <= i < |refs| ==> LoadRef(fetch, parse, baseUrl, refs[i]).Ok?
    ensures r.Ok? ==> |r.value| == |refs|
                      && forall i :: 0 <= i < |refs| ==> LoadRef(fetch, parse, baseUrl, refs[i]) == Ok(r.value[i])
    ensures forall i :: 0 <= i < |refs| && FirstFailedRef(fetch, parse, baseUrl, refs, i) ==>
              r == Err(LoadRef(fetch, parse, baseUrl, refs[i]).error)
  {
    var f := (file: string, i: nat) => LoadRef(fetch, parse, baseUrl, file);
    forall i | 0 <= i < |refs| && FirstFailedRef(fetch, parse, baseUrl, refs, i)
      ensures FirstFailure(refs, f, i)
    {
    }
    Traverse(refs, f)
  }

  /** Ref i is the first that fails to load. */
  predicate FirstFailedRef(fetch: Fetch, parse: ParseYaml, baseUrl: string, refs: seq<string>, i: nat)
    requires i < |refs|
  {
    LoadRef(fetch, parse, baseUrl, refs[i]).Err? && forall j :: 0 <= j < i ==> LoadRef(fetch, parse, baseUrl, refs[j]).Ok?
  }

  function LoadProjectsConfig(fetch: Fetch, parse: ParseYaml, configPath: string, baseUrl: string): (r: LoadOutcome<seq<ProjectEntry>>)
    ensures |r.fetched| >= 1 && r.fetched[0] == ResolveUrl(baseUrl, configPath)
    ensures !fetch(ResolveUrl(baseUrl, configPath)).ok ==>
              r == LoadOutcome(Err(FetchYamlText(fetch, ResolveUrl(baseUrl, configPath)).error),
                               [ResolveUrl(baseUrl, configPath)])
    ensures LoadIndex(fetch, parse, configPath, baseUrl).Err? ==>
              r == LoadOutcome(Err(LoadIndex(fetch, parse, configPath, baseUrl).error), [ResolveUrl(baseUrl, configPath)])
    ensures LoadIndex(fetch, parse, configPath, baseUrl).Ok? && LoadIndex(fetch, parse, configPath, baseUrl).value.Inline? ==>
              r == LoadOutcome(Ok(LoadIndex(fetch, parse, configPath, baseUrl).value.projects), [ResolveUrl(baseUrl, configPath)])
    ensures LoadIndex(fetch, parse, configPath, baseUrl).Ok? && LoadIndex(fetch, parse, configPath, baseUrl).value.Refs? ==>
              var refs := LoadIndex(fetch, parse, configPath, baseUrl).value.refs;
              r == LoadOutcome(LoadRefs(fetch, parse, baseUrl, refs), [ResolveUrl(baseUrl, configPath)] + RefUrls(baseUrl, refs))
  {
    var rootUrl := ResolveUrl(baseUrl, configPath);
    match LoadIndex(fetch, parse, configPath, baseUrl)
    case Err(e) => LoadOutcome(Err(e), [rootUrl])
    case Ok(Inline(projects)) => LoadOutcome(Ok(projects), [rootUrl])
    case Ok(Refs(refs)) => LoadOutcome(LoadRefs(fetch, parse, baseUrl, refs), [rootUrl] + RefUrls(baseUrl, refs))
  }

  /** A mixed or otherwise invalid index stops the load after the index itself:
      no project file is requested. */
  lemma InvalidIndexFetchesNothingElse(fetch: Fetch, parse: ParseYaml, configPath: string, baseUrl: string)
    requires fetch(ResolveUrl(baseUrl, configPath)).ok
    requires parse(fetch(ResolveUrl(baseUrl, configPath)).body).Ok?
    requires ParseProjectEntriesRoot(parse(fetch(ResolveUrl(baseUrl, configPath)).body).value, configPath).Err?
    ensures LoadProjectsConfig(fetch, parse, configPath, baseUrl).result.Err?
    ensures LoadProjectsConfig(fetch, parse, configPath, baseUrl).fetched == [ResolveUrl(baseUrl, configPath)]
  {
  }

  /** A validated ref path is appended to the base as it stands. */
  lemma RefUrlBelowBase(baseUrl: string, file: string)
    requires StartsWith(file, "/")
    ensures ResolveUrl(baseUrl, file) == DropTrailingSlash(baseUrl) + file
  {
    assert file == "/" + file[1..];
  }

  /** The URLs requested for the refs of a validated index lie below the base:
      each is the base without its trailing "/" followed by the ref path as it stands. */
  lemma {:induction false} RefUrlsBelowBase(baseUrl: string, refs: seq<string>)
    requires forall i :: 0 <= i < |refs| ==> SafeRefPath(refs[i])
    ensures forall i :: 0 <= i < |refs| ==> RefUrls(baseUrl, refs)[i] == DropTrailingSlash(baseUrl) + refs[i]
  {
    forall i | 0 <= i < |refs|
      ensures RefUrls(baseUrl, refs)[i] == DropTrailingSlash(baseUrl) + refs[i]
    {
      RefUrlBelowBase(baseUrl, refs[i]);
    }
  }
}
