/** `loadExperiencesConfig`: fetch the experiences index; an inline list of
    companies is returned as it stands, a list of `{file}` references is
    fetched file by file. Only the shape of each company is checked, not
    its contents, and reference paths are not checked at all. */
module LoadExperiences {
  import opened Wrappers
  import opened Text
  import opened Seqs
  import opened Yaml
  import opened Fetching

  /** `isCompanyRef`: an object whose `file` is a string (such a value is
      already truthy). */
  predicate IsCompanyRef(v: Yaml) {
    IsRecord(v) && Get(v, "file").YStr?
  }

  /** `isExperienceCompany`: an object with string `id`, `name` and `slug`
      and a list of `projects`. */
  predicate IsExperienceCompany(v: Yaml) {
    && IsRecord(v)
    && Get(v, "id").YStr? && Get(v, "name").YStr? && Get(v, "slug").YStr?
    && Get(v, "projects").YList?
  }

  predicate AllCompanies(items: seq<Yaml>) {
    forall i :: 0 <= i < |items| ==> IsExperienceCompany(items[i])
  }

  predicate AllCompanyRefs(items: seq<Yaml>) {
    forall i :: 0 <= i < |items| ==> IsCompanyRef(items[i])
  }

  /** How the index lists its companies. */
  datatype CompaniesIndex = Companies(companies: seq<Yaml>) | CompanyFiles(files: seq<string>)

  const MissingCompanies := "Invalid config format: companies is required"
  const MixedCompanies := "Invalid config format: companies must be ExperienceCompany[] or { file }[]"

  /** The `file` of each reference, in order. */
  function RefFiles(items: seq<Yaml>): (r: seq<string>)
    requires AllCompanyRefs(items)
    ensures |r| == |items| && forall i :: 0 <= i < |items| ==> Get(items[i], "file") == YStr(r[i])
  {
    seq(|items|, i requires 0 <= i < |items| => Get(items[i], "file").s)
  }

  /** The checks on the parsed index, in the source's order: a list of
      companies wins over a list of references, so an empty list is an
      empty list of companies. */
  function ClassifyCompanies(root: Yaml): (r: Result<CompaniesIndex>)
    ensures !Truthy(root) || !Get(root, "companies").YList? ==> r == Err(MissingCompanies)
    ensures r.Ok? ==> Get(root, "companies").YList?
    ensures Truthy(root) && Get(root, "companies").YList? ==>
              var items := Get(root, "companies").items;
              && (AllCompanies(items) ==> r == Ok(Companies(items)))
              && (!AllCompanies(items) && !AllCompanyRefs(items) ==> r == Err(MixedCompanies))
              && (!AllCompanies(items) && AllCompanyRefs(items) ==>
                    && r.Ok? && r.value.CompanyFiles?
                    && |r.value.files| == |items|
                    && forall i :: 0 <= i < |items| ==> Get(items[i], "file") == YStr(r.value.files[i]))
  {
    if !Truthy(root) || !Get(root, "companies").YList? then Err(MissingCompanies)
    else
      var items := Get(root, "companies").items;
      if AllCompanies(items) then Ok(Companies(items))
      else if !AllCompanyRefs(items) then Err(MixedCompanies)
      else Ok(CompanyFiles(RefFiles(items)))
  }

  /** One referenced company file, which must have the shape of a company. */
  function LoadCompany(fetch: Fetch, parse: ParseYaml, baseUrl: string, file: string): (r: Result<Yaml>)
    ensures r.Ok? ==> IsExperienceCompany(r.value)
    ensures !fetch(ResolveUrl(baseUrl, file)).ok ==> r == Err(FetchYamlText(fetch, ResolveUrl(baseUrl, file)).error)
    ensures fetch(ResolveUrl(baseUrl, file)).ok && parse(fetch(ResolveUrl(baseUrl, file)).body).Err? ==>
              r == Err(parse(fetch(ResolveUrl(baseUrl, file)).body).error)
    ensures fetch(ResolveUrl(baseUrl, file)).ok && parse(fetch(ResolveUrl(baseUrl, file)).body).Ok? ==>
              var parsed := parse(fetch(ResolveUrl(baseUrl, file)).body).value;
              && (IsExperienceCompany(parsed) ==> r == Ok(parsed))
              && (!IsExperienceCompany(parsed) ==> r == Err("Invalid company file format: " + file))
  {
    var parsed :- FetchYaml(fetch, parse, ResolveUrl(baseUrl, file));
    if !IsExperienceCompany(parsed) then Err("Invalid company file format: " + file)
    else Ok(parsed)
  }

  /** Ref i is the first whose company file fails to load. */
  predicate FirstFailedCompany(fetch: Fetch, parse: ParseYaml, baseUrl: string, files: seq<string>, i: nat)
    requires i < |files|
  {
    LoadCompany(fetch, parse, baseUrl, files[i]).Err?
    && forall j :: 0 <= j < i ==> LoadCompany(fetch, parse, baseUrl, files[j]).Ok?
  }

  /** The company files, loaded in index order; the first failing one decides
      the error. */
  function LoadCompanies(fetch: Fetch, parse: ParseYaml, baseUrl: string, files: seq<string>): (r: Result<seq<Yaml>>)
    ensures r.Ok? <==> forall i :: 0 <= i < |files| ==> LoadCompany(fetch, parse, baseUrl, files[i]).Ok?
    ensures r.Ok? ==> |r.value| == |files|
                      && forall i :: 0 <= i < |files| ==> LoadCompany(fetch, parse, baseUrl, files[i]) == Ok(r.value[i])
    ensures forall i :: 0 <= i < |files| && FirstFailedCompany(fetch, parse, baseUrl, files, i) ==>
              r == Err(LoadCompany(fetch, parse, baseUrl, files[i]).error)
  {
    var f := (file: string, i: nat) => LoadCompany(fetch, parse, baseUrl, file);
    forall i | 0 <= i < |files| && FirstFailedCompany(fetch, parse, baseUrl, files, i)
      ensures FirstFailure(files, f, i)
    {
    }
    Traverse(files, f)
  }

  /** The classified index, or the error that stopped the load before it. */
  function LoadIndex(fetch: Fetch, parse: ParseYaml, configPath: string, baseUrl: string): (r: Result<CompaniesIndex>)
    ensures !fetch(ResolveUrl(baseUrl, configPath)).ok ==> r == Err(FetchYamlText(fetch, ResolveUrl(baseUrl, configPath)).error)
    ensures fetch(ResolveUrl(baseUrl, configPath)).ok && parse(fetch(ResolveUrl(baseUrl, configPath)).body).Ok? ==>
              r == ClassifyCompanies(parse(fetch(ResolveUrl(baseUrl, configPath)).body).value)
    ensures fetch(ResolveUrl(baseUrl, configPath)).ok && parse(fetch(ResolveUrl(baseUrl, configPath)).body).Err? ==>
              r == Err(parse(fetch(ResolveUrl(baseUrl, configPath)).body).error)
  {
    var parsed :- FetchYaml(fetch, parse, ResolveUrl(baseUrl, configPath));
    ClassifyCompanies(parsed)
  }

  function LoadExperiencesConfig(fetch: Fetch, parse: ParseYaml, configPath: string, baseUrl: string): (r: LoadOutcome<seq<Yaml>>)
    ensures |r.fetched| >= 1 && r.fetched[0] == ResolveUrl(baseUrl, configPath)
    ensures r.result.Ok? ==> AllCompanies(r.result.value)
    ensures LoadIndex(fetch, parse, configPath, baseUrl).Err? ==>
              r == LoadOutcome(Err(LoadIndex(fetch, parse, configPath, baseUrl).error), [ResolveUrl(baseUrl, configPath)])
    ensures LoadIndex(fetch, parse, configPath, baseUrl).Ok? && LoadIndex(fetch, parse, configPath, baseUrl).value.Companies? ==>
              r == LoadOutcome(Ok(LoadIndex(fetch, parse, configPath, baseUrl).value.companies), [ResolveUrl(baseUrl, configPath)])
    ensures LoadIndex(fetch, parse, configPath, baseUrl).Ok? && LoadIndex(fetch, parse, configPath, baseUrl).value.CompanyFiles? ==>
              var files := LoadIndex(fetch, parse, configPath, baseUrl).value.files;
              r == LoadOutcome(LoadCompanies(fetch, parse, baseUrl, files), [ResolveUrl(baseUrl, configPath)] + RefUrls(baseUrl, files))
  {
    var rootUrl := ResolveUrl(baseUrl, configPath);
    match LoadIndex(fetch, parse, configPath, baseUrl)
    case Err(e) => LoadOutcome(Err(e), [rootUrl])
    case Ok(Companies(companies)) => LoadOutcome(Ok(companies), [rootUrl])
    case Ok(CompanyFiles(files)) => LoadOutcome(LoadCompanies(fetch, parse, baseUrl, files), [rootUrl] + RefUrls(baseUrl, files))
  }

  /** Unlike the projects loader, a reference is fetched whatever its path:
      a file outside the data directory is requested as written. */
  lemma RefPathsUnchecked()
    ensures var root := YMap(["companies"], map["companies" := YList([YMap(["file"], map["file" := YStr("../secret.yml")])])]);
            ClassifyCompanies(root) == Ok(CompanyFiles(["../secret.yml"]))
  {
    var root := YMap(["companies"], map["companies" := YList([YMap(["file"], map["file" := YStr("../secret.yml")])])]);
    var item := YMap(["file"], map["file" := YStr("../secret.yml")]);
    assert Get(root, "companies").items == [item];
    assert "id" !in item.fields;
    assert !IsExperienceCompany([item][0]);
    assert !AllCompanies([item]);
    assert RefFiles([item]) == ["../secret.yml"];
  }
}
