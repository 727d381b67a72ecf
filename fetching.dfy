/** The I/O boundary of the loaders. A fetch is a function from URL to
    response and YAML parsing a function from text to value; both are
    parameters of every loader. */
module Fetching {
  import opened Wrappers
  import opened Text
  import opened Yaml

  /** What `fetch` resolves to: the `ok` flag, the HTTP status and the body text. */
  datatype Response = Response(ok: bool, status: int, body: string)

  /** What the loaders fetch: response by URL. */
  type Fetch = string -> Response

  /** `js-yaml`'s `load`, which throws on malformed input. */
  type ParseYaml = string -> Result<Yaml>

  /** `base` without its trailing "/", if it has one. */
  function DropTrailingSlash(base: string): (r: string)
    ensures EndsWith(base, "/") ==> r + "/" == base
    ensures !EndsWith(base, "/") ==> r == base
  {
    if EndsWith(base, "/") then base[..|base| - 1] else base
  }

  /** `resolveUrl`: one trailing "/" of the base and one leading "/" of the
      path collapse into a single separator. */
  function ResolveUrl(base: string, path: string): (r: string)
    ensures r == DropTrailingSlash(base) + "/" + (if StartsWith(path, "/") then path[1..] else path)
    ensures EndsWith(r, path)
  {
    var normalizedPath := if StartsWith(path, "/") then path else "/" + path;
    assert StartsWith(path, "/") ==> path == "/" + path[1..];
    DropTrailingSlash(base) + normalizedPath
  }

  /** A trailing "/" on the base makes no difference. */
  lemma ResolveUrlTrailingSlash(base: string, path: string)
    requires !EndsWith(base, "/")
    ensures ResolveUrl(base + "/", path) == ResolveUrl(base, path)
  {
    assert EndsWith(base + "/", "/");
    assert (base + "/")[..|base|] == base;
  }

  /** A leading "/" on the path makes no difference. */
  lemma ResolveUrlLeadingSlash(base: string, path: string)
    requires !StartsWith(path, "/")
    ensures ResolveUrl(base, "/" + path) == ResolveUrl(base, path)
  {
    assert StartsWith("/" + path, "/");
    assert ("/" + path)[1..] == path;
  }

  /** Only one trailing "/" is removed from the base: a base ending in "//"
      keeps one of them. */
  lemma ResolveUrlKeepsInnerSlash(base: string, path: string)
    requires !StartsWith(path, "/")
    ensures ResolveUrl(base + "//", path) == base + "//" + path
  {
    assert EndsWith(base + "//", "/");
    assert (base + "//")[..|base| + 1] == base + "/";
  }

  /** The loaders' `fetchText`: a non-ok response is an error naming status and URL. */
  function FetchYamlText(fetch: Fetch, url: string): (r: Result<string>)
    ensures fetch(url).ok <==> r.Ok?
    ensures r.Ok? ==> r.value == fetch(url).body
    ensures r.Err? ==> r.error == "Failed to fetch yaml: " + IntToString(fetch(url).status) + " (" + url + ")"
  {
    var response := fetch(url);
    if !response.ok then Err("Failed to fetch yaml: " + IntToString(response.status) + " (" + url + ")")
    else Ok(response.body)
  }

  /** The data loader's `fetchText`, whose message names the path first. */
  function FetchText(fetch: Fetch, path: string): (r: Result<string>)
    ensures fetch(path).ok <==> r.Ok?
    ensures r.Ok? ==> r.value == fetch(path).body
    ensures r.Err? ==> r.error == "Failed to fetch: " + path + " (" + IntToString(fetch(path).status) + ")"
  {
    var response := fetch(path);
    if !response.ok then Err("Failed to fetch: " + path + " (" + IntToString(response.status) + ")")
    else Ok(response.body)
  }

  /** Fetch a URL and parse the body as YAML. */
  function FetchYaml(fetch: Fetch, parse: ParseYaml, url: string): (r: Result<Yaml>)
    ensures !fetch(url).ok ==> r == Err(FetchYamlText(fetch, url).error)
    ensures fetch(url).ok ==> r == parse(fetch(url).body)
  {
    var text :- FetchYamlText(fetch, url);
    parse(text)
  }

  /** The result of a load together with the URLs it requested, in the
      order the requests were issued. */
  datatype LoadOutcome<T> = LoadOutcome(result: Result<T>, fetched: seq<string>)

  /** The URLs of referenced files, in the order they are requested. */
  function RefUrls(baseUrl: string, refs: seq<string>): (r: seq<string>)
    ensures |r| == |refs| && forall i :: 0 <= i < |refs| ==> r[i] == ResolveUrl(baseUrl, refs[i])
  {
    seq(|refs|, i requires 0 <= i < |refs| => ResolveUrl(baseUrl, refs[i]))
  }
}
