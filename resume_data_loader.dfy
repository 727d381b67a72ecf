/** `loadResumeData`: fetch the site's data files and the two HTML templates,
    keep each YAML file only if it passes a loose shape check, follow the
    experiences index to its company files and collect everything the two
    document builders read. */
module ResumeDataLoader {
  import opened Wrappers
  import opened Text
  import opened Seqs
  import opened Yaml
  import opened Fetching
  import CertificationSchema

  /** What the builders receive. Timeline entries, certifications, projects
      and companies stay raw records, as in the source. */
  datatype ResumeData = ResumeData(
    name: string,
    pronounce: string,
    birth: string,
    gender: string,
    email: string,
    timeline: seq<Yaml>,
    certifications: seq<Yaml>,
    selfPrMarkdown: string,
    coreStrengths: seq<string>,
    curiousFields: seq<string>,
    skillsWorkExperience: seq<string>,
    skillsPersonalProjects: seq<string>,
    skillsLearningInProgress: seq<string>,
    githubUrl: string,
    portfolioUrlFromData: string,
    projects: seq<Yaml>,
    experiences: seq<Yaml>,
    experienceAbstract: string)

  datatype Templates = Templates(resume: string, career: string)

  datatype LoadedResume = LoadedResume(data: ResumeData, templates: Templates)

  /** `{}`. */
  const EmptyRecord := YMap([], map[])

  // The shape checks. Each one refuses a file as a whole; a refused file is
  // read as `null`.

  predicate UndefinedOrString(v: Yaml) {
    v.YUndefined? || v.YStr?
  }

  predicate UndefinedOrStrings(v: Yaml) {
    v.YUndefined? || IsStringArray(v)
  }

  predicate BaseInfoItemOk(item: Yaml) {
    && IsRecord(item)
    && UndefinedOrString(Get(item, "name"))
    && UndefinedOrString(Get(item, "pronounce"))
    && (UndefinedOrString(Get(item, "birth")) || Get(item, "birth").YDate?)
    && UndefinedOrString(Get(item, "gender"))
  }

  /** `isIntroBaseInfoArray`. */
  predicate IsIntroBaseInfoArray(v: Yaml) {
    v.YList? && forall i :: 0 <= i < |v.items| ==> BaseInfoItemOk(v.items[i])
  }

  predicate SkillsShapeOk(skills: Yaml) {
    || skills.YUndefined?
    || (&& IsRecord(skills)
        && UndefinedOrStrings(Get(skills, "work_experience"))
        && UndefinedOrStrings(Get(skills, "personal_projects"))
        && UndefinedOrStrings(Get(skills, "learning_in_progress")))
  }

  /** `isIntroYaml`: an absent `intro` passes; a present one must be an
      object whose checked fields are absent or well typed. */
  predicate IsIntroYaml(v: Yaml) {
    && IsRecord(v)
    && var intro := Get(v, "intro");
       || intro.YUndefined?
       || (&& IsRecord(intro)
           && (Get(intro, "base_info").YUndefined? || IsIntroBaseInfoArray(Get(intro, "base_info")))
           && UndefinedOrString(Get(intro, "email"))
           && UndefinedOrStrings(Get(intro, "core_strengths"))
           && UndefinedOrStrings(Get(intro, "curious_fields"))
           && SkillsShapeOk(Get(intro, "skills")))
  }

  predicate AllRecords(items: seq<Yaml>) {
    forall i :: 0 <= i < |items| ==> IsRecord(items[i])
  }

  /** The shared form of `isHistoryYaml` and `isProjectsYaml`: `key` is
      absent or a list of objects. */
  predicate IsRecordListYaml(v: Yaml, key: string) {
    IsRecord(v) && (Get(v, key).YUndefined? || (Get(v, key).YList? && AllRecords(Get(v, key).items)))
  }

  predicate CertificationItemOk(item: Yaml) {
    IsRecord(item) && UndefinedOrString(Get(item, "name")) && UndefinedOrString(Get(item, "DateOfQualification"))
  }

  /** `isCertificationsYaml`. */
  predicate IsCertificationsYaml(v: Yaml) {
    && IsRecord(v)
    && var certs := Get(v, "certifications");
       || certs.YUndefined?
       || (certs.YList? && forall i :: 0 <= i < |certs.items| ==> CertificationItemOk(certs.items[i]))
  }

  /** The shared form of `isHeaderYaml` and `isExperiencesIndexYaml`: `key`
      is absent or a list. */
  predicate IsListYaml(v: Yaml, key: string) {
    IsRecord(v) && (Get(v, key).YUndefined? || Get(v, key).YList?)
  }

  /** `check(raw) ? raw : null`. */
  function Guarded(accepted: bool, raw: Yaml): (r: Yaml)
    ensures accepted ==> r == raw
    ensures !accepted ==> r == YNull
  {
    if accepted then raw else YNull
  }

  /** `toTimelineItems`, `toCertifications`, `toProjects`: the objects of a
      list, in order; nothing for a non-list. */
  function ToRecords(v: Yaml): (r: seq<Yaml>)
    ensures !v.YList? ==> r == []
    ensures AllRecords(r)
    ensures v.YList? ==> |r| <= |v.items| && forall i :: 0 <= i < |r| ==> r[i] in v.items
    ensures v.YList? ==> forall x :: x in r <==> x in v.items && IsRecord(x)
    ensures v.YList? && AllRecords(v.items) ==> r == v.items
  {
    if !v.YList? then []
    else
      FilterAll(IsRecord, v.items);
      FilterMembers(IsRecord, v.items);
      Filter(IsRecord, v.items)
  }

  /** The list is filtered element by element, so order is kept: the result
      for two joined lists is the two results joined. */
  lemma ToRecordsConcat(xs: seq<Yaml>, ys: seq<Yaml>)
    ensures ToRecords(YList(xs + ys)) == ToRecords(YList(xs)) + ToRecords(YList(ys))
  {
    FilterConcat(IsRecord, xs, ys);
  }

  /** One element is kept exactly when it is an object. */
  lemma ToRecordsSingle(x: Yaml)
    ensures ToRecords(YList([x])) == if IsRecord(x) then [x] else []
  {
    FilterSingle(IsRecord, x);
  }

  /** `toStringArray`: each element as `normalizeText` renders it, empty
      strings dropped; nothing for a non-list. */
  function ToStringArray(v: Yaml): (r: seq<string>)
    ensures !v.YList? ==> r == []
    ensures v.YList? ==> r == Filter(NonEmpty, Map(NormalizeText, v.items))
    ensures forall i :: 0 <= i < |r| ==> r[i] != ""
    ensures v.YList? ==> |r| <= |v.items|
    ensures v.YList? && (forall i :: 0 <= i < |v.items| ==> v.items[i].YStr? && v.items[i].s != "") ==>
              r == Strings(v.items)
  {
    if !v.YList? then []
    else
      var texts := Map(NormalizeText, v.items);
      FilterAll(NonEmpty, texts);
      NormalizeStrings(v.items);
      Filter(NonEmpty, texts)
  }

  /** The list is converted element by element: the result for a list is
      the results for its two halves, one after the other. */
  lemma ToStringArrayConcat(xs: seq<Yaml>, ys: seq<Yaml>)
    ensures ToStringArray(YList(xs + ys)) == ToStringArray(YList(xs)) + ToStringArray(YList(ys))
  {
    MapConcat(NormalizeText, xs, ys);
    FilterConcat(NonEmpty, Map(NormalizeText, xs), Map(NormalizeText, ys));
  }

  /** One element gives its `normalizeText` form, or nothing when that is empty. */
  lemma ToStringArraySingle(x: Yaml)
    ensures ToStringArray(YList([x])) == if NormalizeText(x) == "" then [] else [NormalizeText(x)]
  {
    MapSingle(NormalizeText, x);
    FilterSingle(NonEmpty, NormalizeText(x));
  }

  lemma NormalizeStrings(items: seq<Yaml>)
    ensures (forall i :: 0 <= i < |items| ==> items[i].YStr?) ==> Map(NormalizeText, items) == Strings(items)
  {
  }

  /** A list of strings loses exactly its empty strings. */
  lemma ToStringArrayOfStrings(xs: seq<string>)
    ensures ToStringArray(StringList(xs)) == Filter(NonEmpty, xs)
  {
    assert Map(NormalizeText, StringList(xs).items) == xs;
  }

  // `loadLinkByKey`.

  predicate HasLinkList(block: Yaml, key: string) {
    IsRecord(block) && Get(block, key).YList?
  }

  /** The link of the first item of a list, or '' when it has none. */
  function FirstLink(values: seq<Yaml>): string {
    if |values| == 0 then ""
    else
      var link := Get(values[0], "link");
      if link.YStr? then link.s else ""
  }

  /** The first link under `key` in the first block that has a list under
      `key`; '' when there is no such block, its list is empty or its first
      link is not a string. */
  function LoadLinkByKey(header: Yaml, key: string): (r: string)
    ensures !Get(header, "links").YList? ==> r == ""
    ensures Get(header, "links").YList? ==>
              var links := Get(header, "links").items;
              && ((forall j :: 0 <= j < |links| ==> !HasLinkList(links[j], key)) ==> r == "")
              && forall i :: 0 <= i < |links| && HasLinkList(links[i], key)
                             && (forall j :: 0 <= j < i ==> !HasLinkList(links[j], key)) ==>
                   r == FirstLink(Get(links[i], key).items)
  {
    var links := Get(header, "links");
    if !links.YList? then ""
    else
      match FindIndex((block: Yaml) => HasLinkList(block, key), links.items)
      case None => ""
      case Some(i) => FirstLink(Get(links.items[i], key).items)
  }

  /** A later block cannot override an earlier one that has the key, even
      with an empty list. */
  lemma FirstBlockWins(key: string, later: string)
    ensures var first := YMap([key], map[key := YList([])]);
            var second := YMap([key], map[key := YList([YMap(["link"], map["link" := YStr(later)])])]);
            LoadLinkByKey(YMap(["links"], map["links" := YList([first, second])]), key) == ""
  {
    var first := YMap([key], map[key := YList([])]);
    var second := YMap([key], map[key := YList([YMap(["link"], map["link" := YStr(later)])])]);
    var links := [first, second];
    assert Get(YMap(["links"], map["links" := YList(links)]), "links").items == links;
    assert HasLinkList(links[0], key);
  }

  // The experiences index and the company files.

  /** The string `file` values of the index entries, in order; entries
      without one are skipped. */
  function FileRefs(items: seq<Yaml>): (r: seq<string>)
    ensures |r| <= |items|
    ensures forall k :: 0 <= k < |r| ==> exists j :: 0 <= j < |items| && Get(items[j], "file") == YStr(r[k])
    ensures (forall j :: 0 <= j < |items| ==> Get(items[j], "file").YStr?) ==>
              |r| == |items| && forall j :: 0 <= j < |items| ==> Get(items[j], "file") == YStr(r[j])
    ensures (forall j :: 0 <= j < |items| ==> !Get(items[j], "file").YStr?) ==> r == []
  {
    if items == [] then []
    else
      var head := if Get(items[0], "file").YStr? then [Get(items[0], "file").s] else [];
      var tail := FileRefs(items[1..]);
      assert forall k :: 0 <= k < |tail| ==> exists j :: 0 <= j < |items| && Get(items[j], "file") == YStr(tail[k]) by {
        forall k | 0 <= k < |tail|
          ensures exists j :: 0 <= j < |items| && Get(items[j], "file") == YStr(tail[k])
        {
          var j :| 0 <= j < |items[1..]| && Get(items[1..][j], "file") == YStr(tail[k]);
          assert items[1..][j] == items[j + 1];
        }
      }
      head + tail
  }

  /** `item?.file`. */
  function FileOf(item: Yaml): Yaml {
    Get(item, "file")
  }

  /** `typeof item === 'string'`. */
  predicate IsStringValue(v: Yaml) {
    v.YStr?
  }

  /** The entry-by-entry definition agrees with the source's two passes:
      map every entry to its `file`, then keep the strings. */
  lemma {:induction false} FileRefsAsMapFilter(items: seq<Yaml>)
    ensures FileRefs(items) == Strings(Filter(IsStringValue, Map(FileOf, items)))
  {
    if items != [] {
      FileRefsAsMapFilter(items[1..]);
      var files := Map(FileOf, items);
      assert files[1..] == Map(FileOf, items[1..]);
      var head := if IsStringValue(files[0]) then [files[0]] else [];
      var kept := Filter(IsStringValue, files[1..]);
      assert Filter(IsStringValue, files) == head + kept;
      StringsConcat(head, kept);
      assert Strings(head) == if Get(items[0], "file").YStr? then [Get(items[0], "file").s] else [];
    }
  }

  lemma StringsConcat(xs: seq<Yaml>, ys: seq<Yaml>)
    requires forall i :: 0 <= i < |xs| ==> xs[i].YStr?
    requires forall i :: 0 <= i < |ys| ==> ys[i].YStr?
    ensures Strings(xs + ys) == Strings(xs) + Strings(ys)
  {
    assert forall i :: 0 <= i < |xs + ys| ==> (xs + ys)[i] == YStr((Strings(xs) + Strings(ys))[i]);
  }

  /** `experienceFiles`: the string `file` values of the index's list, in
      order. */
  function ExperienceFiles(index: Yaml): (r: seq<string>)
    ensures !Get(index, "companies").YList? ==> r == []
    ensures Get(index, "companies").YList? ==>
              r == Strings(Filter(IsStringValue, Map(FileOf, Get(index, "companies").items)))
  {
    var companies := Get(index, "companies");
    if companies.YList? then
      FileRefsAsMapFilter(companies.items);
      FileRefs(companies.items)
    else []
  }

  /** A company file: fetched at `baseUrl` followed by the file as written; a
      value that is not an object is replaced by `{}`. */
  function LoadCompanyFile(fetch: Fetch, parse: ParseYaml, baseUrl: string, file: string): (r: Result<Yaml>)
    ensures r.Ok? ==> IsRecord(r.value)
    ensures !fetch(baseUrl + file).ok ==> r == Err(FetchText(fetch, baseUrl + file).error)
    ensures fetch(baseUrl + file).ok ==>
              var parsed := parse(fetch(baseUrl + file).body);
              && (parsed.Err? ==> r == Err(parsed.error))
              && (parsed.Ok? && IsRecord(parsed.value) ==> r == Ok(parsed.value))
              && (parsed.Ok? && !IsRecord(parsed.value) ==> r == Ok(EmptyRecord))
  {
    var text :- FetchText(fetch, baseUrl + file);
    var parsed :- parse(text);
    Ok(if IsRecord(parsed) then parsed else EmptyRecord)
  }

  /** All company files, in index order; the first failing one decides the error. */
  function LoadCompanyFiles(fetch: Fetch, parse: ParseYaml, baseUrl: string, files: seq<string>): (r: Result<seq<Yaml>>)
    ensures r.Ok? <==> forall i :: 0 <= i < |files| ==> LoadCompanyFile(fetch, parse, baseUrl, files[i]).Ok?
    ensures r.Ok? ==> |r.value| == |files| && AllRecords(r.value)
                      && forall i :: 0 <= i < |files| ==> LoadCompanyFile(fetch, parse, baseUrl, files[i]) == Ok(r.value[i])
    ensures forall i :: FirstFailure(files, (file: string, k: nat) => LoadCompanyFile(fetch, parse, baseUrl, file), i) ==>
              r == Err(LoadCompanyFile(fetch, parse, baseUrl, files[i]).error)
  {
    Traverse(files, (file: string, k: nat) => LoadCompanyFile(fetch, parse, baseUrl, file))
  }

  predicate Named(company: Yaml) {
    Truthy(Get(company, "name"))
  }

  /** The `abstract_mdFilePath` of the first company with a truthy name. */
  function AbstractPath(companies: seq<Yaml>): (r: Yaml)
    ensures (forall j :: 0 <= j < |companies| ==> !Named(companies[j])) ==> r == YUndefined
    ensures forall i :: 0 <= i < |companies| && Named(companies[i]) && (forall j :: 0 <= j < i ==> !Named(companies[j])) ==>
              r == Get(companies[i], "abstract_mdFilePath")
  {
    forall i | 0 <= i < |companies| && Named(companies[i]) && (forall j :: 0 <= j < i ==> !Named(companies[j])) {
      FindIndexIsFirst(Named, companies, i);
    }
    match FindIndex(Named, companies)
    case None => YUndefined
    case Some(i) => Get(companies[i], "abstract_mdFilePath")
  }

  /** The company abstract: fetched only when the path is truthy. */
  function LoadAbstract(fetch: Fetch, baseUrl: string, companies: seq<Yaml>): (r: Result<string>)
    ensures !Truthy(AbstractPath(companies)) ==> r == Ok("")
    ensures Truthy(AbstractPath(companies)) ==> r == FetchText(fetch, baseUrl + JsString(AbstractPath(companies)))
  {
    var path := AbstractPath(companies);
    if Truthy(path) then FetchText(fetch, baseUrl + JsString(path)) else Ok("")
  }

  // Assembling the data.

  /** `introParsed?.intro?.base_info?.[0] ?? {}`. */
  function BaseInfo(intro: Yaml): Yaml {
    var first := First(Get(Get(intro, "intro"), "base_info"));
    if IsNullish(first) then EmptyRecord else first
  }

  /** The skills node when it is an object, `null` otherwise. */
  function SkillsRecord(intro: Yaml): Yaml {
    var node := Get(Get(intro, "intro"), "skills");
    if IsRecord(node) then node else YNull
  }

  /** The data record built from the kept (or nulled) files. */
  function Assemble(intro: Yaml, history: Yaml, certifications: Yaml, projects: Yaml, header: Yaml,
                    selfPr: string, experiences: seq<Yaml>, abstractMd: string, portfolioUrl: string): (r: ResumeData)
    ensures AllRecords(r.timeline) && AllRecords(r.certifications) && AllRecords(r.projects)
    ensures r.timeline == ToRecords(Get(history, "timeline"))
    ensures r.certifications == ToRecords(Get(certifications, "certifications"))
    ensures r.projects == ToRecords(Get(projects, "projects"))
    ensures r.githubUrl == LoadLinkByKey(header, "github")
    ensures r.email == NormalizeText(Get(Get(intro, "intro"), "email"))
    ensures r.coreStrengths == ToStringArray(Get(Get(intro, "intro"), "core_strengths"))
    ensures r.curiousFields == ToStringArray(Get(Get(intro, "intro"), "curious_fields"))
    ensures var skills := Get(Get(intro, "intro"), "skills");
            && r.skillsWorkExperience == ToStringArray(Get(skills, "work_experience"))
            && r.skillsPersonalProjects == ToStringArray(Get(skills, "personal_projects"))
            && r.skillsLearningInProgress == ToStringArray(Get(skills, "learning_in_progress"))
    ensures r.experiences == experiences && r.selfPrMarkdown == selfPr && r.experienceAbstract == abstractMd
    ensures r.portfolioUrlFromData == portfolioUrl
    ensures forall i :: 0 <= i < |r.coreStrengths| ==> r.coreStrengths[i] != ""
    ensures forall i :: 0 <= i < |r.skillsWorkExperience| ==> r.skillsWorkExperience[i] != ""
    ensures IsNullish(intro) ==>
              && r.name == "" && r.pronounce == "" && r.birth == "" && r.gender == "" && r.email == ""
              && r.coreStrengths == [] && r.curiousFields == []
              && r.skillsWorkExperience == [] && r.skillsPersonalProjects == [] && r.skillsLearningInProgress == []
  {
    var baseInfo := BaseInfo(intro);
    var skills := SkillsRecord(intro);
    var introNode := Get(intro, "intro");
    ResumeData(
      NormalizeText(Get(baseInfo, "name")),
      NormalizeText(Get(baseInfo, "pronounce")),
      NormalizeText(Get(baseInfo, "birth")),
      NormalizeText(Get(baseInfo, "gender")),
      NormalizeText(Get(introNode, "email")),
      ToRecords(Get(history, "timeline")),
      ToRecords(Get(certifications, "certifications")),
      selfPr,
      ToStringArray(Get(introNode, "core_strengths")),
      ToStringArray(Get(introNode, "curious_fields")),
      ToStringArray(Get(skills, "work_experience")),
      ToStringArray(Get(skills, "personal_projects")),
      ToStringArray(Get(skills, "learning_in_progress")),
      LoadLinkByKey(header, "github"),
      portfolioUrl,
      ToRecords(Get(projects, "projects")),
      experiences,
      abstractMd)
  }

  // The whole load.

  /** The eight files fetched first, relative to the base URL, in the order
      their texts are destructured. */
  const DataPaths: seq<string> := [
    "/data/intro.yml", "/data/history.yml", "/data/certifications.yml", "/data/projects.yml",
    "/data/header.yml", "/data/selfPR.md", "/templates/resume.html", "/templates/career-history.html"]

  const IndexPath := "/data/experiences/index.yml"

  function DataUrls(baseUrl: string): (r: seq<string>)
    ensures |r| == 8 && forall i :: 0 <= i < 8 ==> r[i] == baseUrl + DataPaths[i]
  {
    seq(8, i requires 0 <= i < 8 => baseUrl + DataPaths[i])
  }

  /** `Promise.all` over the eight fetches: every body, or the error of the
      first failing fetch. */
  function FetchAll(fetch: Fetch, urls: seq<string>): (r: Result<seq<string>>)
    ensures r.Ok? <==> forall i :: 0 <= i < |urls| ==> fetch(urls[i]).ok
    ensures r.Ok? ==> |r.value| == |urls| && forall i :: 0 <= i < |urls| ==> r.value[i] == fetch(urls[i]).body
    ensures forall i :: 0 <= i < |urls| && !fetch(urls[i]).ok && (forall j :: 0 <= j < i ==> fetch(urls[j]).ok) ==>
              r == Err(FetchText(fetch, urls[i]).error)
  {
    var f := (url: string, k: nat) => FetchText(fetch, url);
    forall i | 0 <= i < |urls| && !fetch(urls[i]).ok && (forall j :: 0 <= j < i ==> fetch(urls[j]).ok)
      ensures FirstFailure(urls, f, i)
    {
    }
    Traverse(urls, f)
  }

  /** The five YAML texts parsed in order; the first that does not parse decides the error. */
  function ParseAll(parse: ParseYaml, texts: seq<string>): (r: Result<seq<Yaml>>)
    ensures r.Ok? <==> forall i :: 0 <= i < |texts| ==> parse(texts[i]).Ok?
    ensures r.Ok? ==> |r.value| == |texts| && forall i :: 0 <= i < |texts| ==> parse(texts[i]) == Ok(r.value[i])
    ensures forall i :: 0 <= i < |texts| && parse(texts[i]).Err? && (forall j :: 0 <= j < i ==> parse(texts[j]).Ok?) ==>
              r == Err(parse(texts[i]).error)
  {
    var f := (text: string, k: nat) => parse(text);
    forall i | 0 <= i < |texts| && parse(texts[i]).Err? && (forall j :: 0 <= j < i ==> parse(texts[j]).Ok?)
      ensures FirstFailure(texts, f, i)
    {
    }
    Traverse(texts, f)
  }

  /** The experiences index, nulled when its shape is refused. */
  function LoadIndex(fetch: Fetch, parse: ParseYaml, baseUrl: string): (r: Result<Yaml>)
    ensures !fetch(baseUrl + IndexPath).ok ==> r == Err(FetchText(fetch, baseUrl + IndexPath).error)
    ensures fetch(baseUrl + IndexPath).ok && parse(fetch(baseUrl + IndexPath).body).Ok? ==>
              var raw := parse(fetch(baseUrl + IndexPath).body).value;
              r == Ok(Guarded(IsListYaml(raw, "companies"), raw))
    ensures fetch(baseUrl + IndexPath).ok && parse(fetch(baseUrl + IndexPath).body).Err? ==>
              r == Err(parse(fetch(baseUrl + IndexPath).body).error)
  {
    var text :- FetchText(fetch, baseUrl + IndexPath);
    var raw :- parse(text);
    Ok(Guarded(IsListYaml(raw, "companies"), raw))
  }

  /** The steps after the eight fetches and the five parses. */
  function LoadRest(fetch: Fetch, parse: ParseYaml, baseUrl: string, portfolioUrl: string,
                    texts: seq<string>, parsed: seq<Yaml>): (r: Result<LoadedResume>)
    requires |texts| == 8 && |parsed| == 5
    ensures r.Ok? ==> r.value.templates == Templates(texts[6], texts[7]) && r.value.data.selfPrMarkdown == texts[5]
    ensures r.Ok? ==> AllRecords(r.value.data.experiences)
    ensures r.Ok? ==> LoadIndex(fetch, parse, baseUrl).Ok?
                      && LoadCompanyFiles(fetch, parse, baseUrl, ExperienceFiles(LoadIndex(fetch, parse, baseUrl).value))
                         == Ok(r.value.data.experiences)
    ensures r.Ok? ==> LoadAbstract(fetch, baseUrl, r.value.data.experiences) == Ok(r.value.data.experienceAbstract)
    ensures r.Ok? ==> r.value.data == Assemble(
              Guarded(IsIntroYaml(parsed[0]), parsed[0]),
              Guarded(IsRecordListYaml(parsed[1], "timeline"), parsed[1]),
              Guarded(IsCertificationsYaml(parsed[2]), parsed[2]),
              Guarded(IsRecordListYaml(parsed[3], "projects"), parsed[3]),
              Guarded(IsListYaml(parsed[4], "links"), parsed[4]),
              texts[5], r.value.data.experiences, r.value.data.experienceAbstract, portfolioUrl)
    ensures LoadIndex(fetch, parse, baseUrl).Err? ==> r == Err(LoadIndex(fetch, parse, baseUrl).error)
    ensures LoadIndex(fetch, parse, baseUrl).Ok? ==>
              var files := LoadCompanyFiles(fetch, parse, baseUrl, ExperienceFiles(LoadIndex(fetch, parse, baseUrl).value));
              && (files.Err? ==> r == Err(files.error))
              && (files.Ok? && LoadAbstract(fetch, baseUrl, files.value).Err? ==>
                    r == Err(LoadAbstract(fetch, baseUrl, files.value).error))
    ensures !IsIntroYaml(parsed[0]) ==> r.Ok? ==> r.value.data.name == "" && r.value.data.email == ""
  {
    var index :- LoadIndex(fetch, parse, baseUrl);
    var experiences :- LoadCompanyFiles(fetch, parse, baseUrl, ExperienceFiles(index));
    var abstractMd :- LoadAbstract(fetch, baseUrl, experiences);
    var data := Assemble(
      Guarded(IsIntroYaml(parsed[0]), parsed[0]),
      Guarded(IsRecordListYaml(parsed[1], "timeline"), parsed[1]),
      Guarded(IsCertificationsYaml(parsed[2]), parsed[2]),
      Guarded(IsRecordListYaml(parsed[3], "projects"), parsed[3]),
      Guarded(IsListYaml(parsed[4], "links"), parsed[4]),
      texts[5], experiences, abstractMd, portfolioUrl);
    Ok(LoadedResume(data, Templates(texts[6], texts[7])))
  }

  /** `loadResumeData`. The portfolio URL, which the source derives from the
      browser's location, is a parameter. */
  function LoadResumeData(fetch: Fetch, parse: ParseYaml, baseUrl: string, portfolioUrl: string): (r: Result<LoadedResume>)
    ensures FetchAll(fetch, DataUrls(baseUrl)).Err? ==> r == Err(FetchAll(fetch, DataUrls(baseUrl)).error)
    ensures r.Ok? ==>
              && FetchAll(fetch, DataUrls(baseUrl)).Ok?
              && var texts := FetchAll(fetch, DataUrls(baseUrl)).value;
                 && ParseAll(parse, texts[..5]).Ok?
                 && r == LoadRest(fetch, parse, baseUrl, portfolioUrl, texts, ParseAll(parse, texts[..5]).value)
    ensures FetchAll(fetch, DataUrls(baseUrl)).Ok? && ParseAll(parse, FetchAll(fetch, DataUrls(baseUrl)).value[..5]).Err? ==>
              r == Err(ParseAll(parse, FetchAll(fetch, DataUrls(baseUrl)).value[..5]).error)
    ensures FetchAll(fetch, DataUrls(baseUrl)).Ok? && ParseAll(parse, FetchAll(fetch, DataUrls(baseUrl)).value[..5]).Ok? ==>
              r == LoadRest(fetch, parse, baseUrl, portfolioUrl, FetchAll(fetch, DataUrls(baseUrl)).value,
                            ParseAll(parse, FetchAll(fetch, DataUrls(baseUrl)).value[..5]).value)
  {
    var texts :- FetchAll(fetch, DataUrls(baseUrl));
    var parsed :- ParseAll(parse, texts[..5]);
    LoadRest(fetch, parse, baseUrl, portfolioUrl, texts, parsed)
  }

  /** A successful load hands over the two templates and the self-PR text
      exactly as fetched. */
  lemma TemplatesAsFetched(fetch: Fetch, parse: ParseYaml, baseUrl: string, portfolioUrl: string)
    requires LoadResumeData(fetch, parse, baseUrl, portfolioUrl).Ok?
    ensures var r := LoadResumeData(fetch, parse, baseUrl, portfolioUrl).value;
            && r.templates == Templates(fetch(baseUrl + "/templates/resume.html").body,
                                        fetch(baseUrl + "/templates/career-history.html").body)
            && r.data.selfPrMarkdown == fetch(baseUrl + "/data/selfPR.md").body
  {
    var urls := DataUrls(baseUrl);
    assert urls[5] == baseUrl + "/data/selfPR.md";
    assert urls[6] == baseUrl + "/templates/resume.html";
    assert urls[7] == baseUrl + "/templates/career-history.html";
  }

  /** If any of the eight files cannot be fetched, nothing is loaded; the
      intro file, listed first, decides the error when it is the one missing. */
  lemma MissingIntroFails(fetch: Fetch, parse: ParseYaml, baseUrl: string, portfolioUrl: string)
    requires !fetch(baseUrl + "/data/intro.yml").ok
    ensures LoadResumeData(fetch, parse, baseUrl, portfolioUrl) == Err(FetchText(fetch, baseUrl + "/data/intro.yml").error)
  {
    var urls := DataUrls(baseUrl);
    assert urls[0] == baseUrl + "/data/intro.yml";
  }

  // How the loose shape checks relate to the values.

  /** A null in a field the intro check covers refuses the whole intro file:
      every field taken from it comes out empty. */
  lemma NullEmailDropsIntro(v: Yaml, history: Yaml, certifications: Yaml, projects: Yaml, header: Yaml,
                            selfPr: string, experiences: seq<Yaml>, abstractMd: string, portfolioUrl: string)
    requires IsRecord(Get(v, "intro")) && Get(Get(v, "intro"), "email") == YNull
    ensures var d := Assemble(Guarded(IsIntroYaml(v), v), history, certifications, projects, header,
                              selfPr, experiences, abstractMd, portfolioUrl);
            d.name == "" && d.email == "" && d.coreStrengths == [] && d.skillsWorkExperience == []
  {
    assert !IsIntroYaml(v);
  }

  /** The index may list companies inline (the experiences loader accepts
      that form), but entries without a string `file` are skipped here, so
      an inline index yields no companies. */
  lemma InlineCompaniesIgnored(index: Yaml)
    requires Get(index, "companies").YList?
    requires forall j :: 0 <= j < |Get(index, "companies").items| ==> !Get(Get(index, "companies").items[j], "file").YStr?
    ensures ExperienceFiles(index) == []
  {
  }

  /** An index of `{file}` references is followed entry by entry. */
  lemma RefIndexFollowed(index: Yaml)
    requires Get(index, "companies").YList?
    requires forall j :: 0 <= j < |Get(index, "companies").items| ==> Get(Get(index, "companies").items[j], "file").YStr?
    ensures var items := Get(index, "companies").items;
            |ExperienceFiles(index)| == |items|
            && forall j :: 0 <= j < |items| ==> Get(items[j], "file") == YStr(ExperienceFiles(index)[j])
  {
  }

  /** Every shape check accepts a file that leaves its list out, and the
      list then reads as empty rather than failing the load. */
  lemma AbsentListsAccepted(v: Yaml)
    requires IsRecord(v)
    ensures Get(v, "timeline").YUndefined? ==>
              IsRecordListYaml(v, "timeline") && ToRecords(Get(Guarded(IsRecordListYaml(v, "timeline"), v), "timeline")) == []
    ensures Get(v, "projects").YUndefined? ==>
              IsRecordListYaml(v, "projects") && ToRecords(Get(Guarded(IsRecordListYaml(v, "projects"), v), "projects")) == []
    ensures Get(v, "certifications").YUndefined? ==>
              IsCertificationsYaml(v) && ToRecords(Get(Guarded(IsCertificationsYaml(v), v), "certifications")) == []
    ensures Get(v, "links").YUndefined? ==> IsListYaml(v, "links")
    ensures Get(v, "companies").YUndefined? ==> IsListYaml(v, "companies") && ExperienceFiles(v) == []
    ensures Get(v, "intro").YUndefined? ==> IsIntroYaml(v)
  {
  }

  /** The profile fields are read from the first `base_info` row: a string
      as written, a date in ISO form, and "" when the row or the field is
      missing. */
  lemma ProfileFromFirstBaseInfo(intro: Yaml, history: Yaml, certifications: Yaml, projects: Yaml, header: Yaml,
                                 selfPr: string, experiences: seq<Yaml>, abstractMd: string, portfolioUrl: string)
    ensures var d := Assemble(intro, history, certifications, projects, header,
                              selfPr, experiences, abstractMd, portfolioUrl);
            var row := First(Get(Get(intro, "intro"), "base_info"));
            && (Get(row, "name").YUndefined? ==> d.name == "")
            && (Get(row, "name").YStr? ==> d.name == Get(row, "name").s)
            && (Get(row, "pronounce").YUndefined? ==> d.pronounce == "")
            && (Get(row, "pronounce").YStr? ==> d.pronounce == Get(row, "pronounce").s)
            && (Get(row, "birth").YUndefined? ==> d.birth == "")
            && (Get(row, "birth").YStr? ==> d.birth == Get(row, "birth").s)
            && (Get(row, "birth").YDate? ==> d.birth == IsoDate(Get(row, "birth").date))
            && (Get(row, "gender").YUndefined? ==> d.gender == "")
            && (Get(row, "gender").YStr? ==> d.gender == Get(row, "gender").s)
  {
  }

  /** A certifications file the certification validator accepts is kept
      whole, in order, provided no certificate has a null name or date. */
  lemma ValidatedCertificationsKept(v: Yaml, source: string)
    requires CertificationSchema.ParseCertificationsYaml(v, source).Ok?
    requires var items := Get(v, "certifications").items;
             forall i :: 0 <= i < |items| ==> Get(items[i], "name") != YNull && Get(items[i], "DateOfQualification") != YNull
    ensures IsCertificationsYaml(v)
    ensures ToRecords(Get(Guarded(IsCertificationsYaml(v), v), "certifications")) == Get(v, "certifications").items
  {
    var items := Get(v, "certifications").items;
    forall i | 0 <= i < |items|
      ensures CertificationItemOk(items[i])
    {
      assert CertificationSchema.CertificationAccepts(items[i]);
    }
  }

  /** The validator reads a null name as "no name", but the shape check here
      refuses it, and with it every certificate of the file. */
  lemma NullNameDropsCertifications(source: string)
    ensures var cert := YMap(["name"], map["name" := YNull]);
            var v := YMap(["certifications"], map["certifications" := YList([cert])]);
            && CertificationSchema.ParseCertificationsYaml(v, source).Ok?
            && !IsCertificationsYaml(v)
            && ToRecords(Get(Guarded(IsCertificationsYaml(v), v), "certifications")) == []
  {
    var cert := YMap(["name"], map["name" := YNull]);
    var v := YMap(["certifications"], map["certifications" := YList([cert])]);
    assert Get(v, "certifications").items == [cert];
    assert CertificationSchema.CertificationAccepts([cert][0]);
    assert !CertificationItemOk([cert][0]);
  }
}
