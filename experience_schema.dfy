/** The experiences index and company validator: companies listed inline, or
    a list of company files in which every element must name its file. */
module ExperienceSchema {
  import opened Wrappers
  import opened Text
  import opened Seqs
  import opened Yaml
  import opened Fields

  datatype ExperienceTech = ExperienceTech(os: seq<string>, lang: seq<string>, infra: seq<string>)

  datatype ExperienceProject = ExperienceProject(
    id: string,
    title: string,
    member: Option<string>,
    slug: Option<string>,
    summary: Option<string>,
    result: Option<string>,
    role: seq<string>,
    tech: ExperienceTech,
    effort: seq<string>,
    issueSolving: seq<string>,
    detailMarkdownPath: Option<string>)

  datatype ExperienceCompany = ExperienceCompany(
    abstractMdFilePath: Option<string>,
    id: string,
    name: string,
    slug: string,
    period: Option<string>,
    projects: seq<ExperienceProject>)

  datatype CompanyIndex = Inline(companies: seq<ExperienceCompany>) | Refs(files: seq<string>)

  predicate TechAccepts(v: Yaml) {
    IsNullish(v) || (IsRecord(v) && ListFieldOk(v, "os") && ListFieldOk(v, "lang") && ListFieldOk(v, "infra"))
  }

  function ParseExperienceTech(v: Yaml, path: string): (r: Result<ExperienceTech>)
    ensures IsNullish(v) ==> r == Ok(ExperienceTech([], [], []))
    ensures !IsNullish(v) && !IsRecord(v) ==> r == Err(path + " must be an object")
    ensures r.Ok? <==> TechAccepts(v)
    ensures r.Ok? ==> ListFieldIs(v, "os", r.value.os) && ListFieldIs(v, "lang", r.value.lang)
                      && ListFieldIs(v, "infra", r.value.infra)
  {
    if IsNullish(v) then Ok(ExperienceTech([], [], []))
    else if !IsRecord(v) then Err(path + " must be an object")
    else
      var os :- OptionalStringArray(Get(v, "os"), path + ".os");
      var lang :- OptionalStringArray(Get(v, "lang"), path + ".lang");
      var infra :- OptionalStringArray(Get(v, "infra"), path + ".infra");
      OptionalStringArrayReads(v, "os", path + ".os");
      OptionalStringArrayReads(v, "lang", path + ".lang");
      OptionalStringArrayReads(v, "infra", path + ".infra");
      Ok(ExperienceTech(os, lang, infra))
  }

  /** The reference reading of what `ParseExperienceProject` accepts. */
  predicate ProjectAccepts(v: Yaml) {
    && IsRecord(v)
    && Get(v, "id").YStr? && !AllSpace(Get(v, "id").s)
    && Get(v, "title").YStr? && !AllSpace(Get(v, "title").s)
    && OptionalFieldOk(v, "member") && OptionalFieldOk(v, "slug")
    && OptionalFieldOk(v, "summary") && OptionalFieldOk(v, "result")
    && ListFieldOk(v, "role") && TechAccepts(Get(v, "tech"))
    && ListFieldOk(v, "effort") && ListFieldOk(v, "issue_solving")
    && OptionalFieldOk(v, "detail_markdown_path")
  }

  /** The project's fields other than `tech` are what the record `v` holds. */
  predicate ProjectFieldsAre(v: Yaml, p: ExperienceProject) {
    && RequiredFieldIs(v, "id", p.id)
    && RequiredFieldIs(v, "title", p.title)
    && OptionalFieldIs(v, "member", p.member)
    && OptionalFieldIs(v, "slug", p.slug)
    && OptionalFieldIs(v, "summary", p.summary)
    && OptionalFieldIs(v, "result", p.result)
    && ListFieldIs(v, "role", p.role)
    && ListFieldIs(v, "effort", p.effort)
    && ListFieldIs(v, "issue_solving", p.issueSolving)
    && OptionalFieldIs(v, "detail_markdown_path", p.detailMarkdownPath)
  }

  /** The fields validated before `tech`: id, title, member, slug, summary, result, role. */
  function ParseProjectHead(v: Yaml, path: string):
    (r: Result<(string, string, Option<string>, Option<string>, Option<string>, Option<string>, seq<string>)>)
    ensures r.Ok? <==>
              && Get(v, "id").YStr? && !AllSpace(Get(v, "id").s)
              && Get(v, "title").YStr? && !AllSpace(Get(v, "title").s)
              && OptionalFieldOk(v, "member") && OptionalFieldOk(v, "slug")
              && OptionalFieldOk(v, "summary") && OptionalFieldOk(v, "result")
              && ListFieldOk(v, "role")
    ensures r.Ok? ==>
              && RequiredFieldIs(v, "id", r.value.0)
              && RequiredFieldIs(v, "title", r.value.1)
              && OptionalFieldIs(v, "member", r.value.2)
              && OptionalFieldIs(v, "slug", r.value.3)
              && OptionalFieldIs(v, "summary", r.value.4)
              && OptionalFieldIs(v, "result", r.value.5)
              && ListFieldIs(v, "role", r.value.6)
  {
    var id :- RequiredString(Get(v, "id"), path + ".id");
    var title :- RequiredString(Get(v, "title"), path + ".title");
    var member :- OptionalString(Get(v, "member"), path + ".member");
    var slug :- OptionalString(Get(v, "slug"), path + ".slug");
    var summary :- OptionalString(Get(v, "summary"), path + ".summary");
    var result :- OptionalString(Get(v, "result"), path + ".result");
    var role :- OptionalStringArray(Get(v, "role"), path + ".role");
    OptionalStringReads(v, "member", path + ".member");
    OptionalStringReads(v, "slug", path + ".slug");
    OptionalStringReads(v, "summary", path + ".summary");
    OptionalStringReads(v, "result", path + ".result");
    OptionalStringArrayReads(v, "role", path + ".role");
    Ok((id, title, member, slug, summary, result, role))
  }

  /** The fields validated after `tech`: effort, issue_solving, detail_markdown_path. */
  function ParseProjectTail(v: Yaml, path: string): (r: Result<(seq<string>, seq<string>, Option<string>)>)
    ensures r.Ok? <==> ListFieldOk(v, "effort") && ListFieldOk(v, "issue_solving") && OptionalFieldOk(v, "detail_markdown_path")
    ensures r.Ok? ==>
              && ListFieldIs(v, "effort", r.value.0)
              && ListFieldIs(v, "issue_solving", r.value.1)
              && OptionalFieldIs(v, "detail_markdown_path", r.value.2)
  {
    var effort :- OptionalStringArray(Get(v, "effort"), path + ".effort");
    var issueSolving :- OptionalStringArray(Get(v, "issue_solving"), path + ".issue_solving");
    var detail :- OptionalString(Get(v, "detail_markdown_path"), path + ".detail_markdown_path");
    OptionalStringReads(v, "detail_markdown_path", path + ".detail_markdown_path");
    OptionalStringArrayReads(v, "effort", path + ".effort");
    OptionalStringArrayReads(v, "issue_solving", path + ".issue_solving");
    Ok((effort, issueSolving, detail))
  }

  /** One project of a company, fields validated in the source's order. */
  function ParseExperienceProject(v: Yaml, path: string): (r: Result<ExperienceProject>)
    ensures !IsRecord(v) ==> r == Err(path + " must be an object")
    ensures r.Ok? <==> ProjectAccepts(v)
    ensures r.Ok? ==> ProjectFieldsAre(v, r.value)
    ensures r.Ok? ==> ParseExperienceTech(Get(v, "tech"), path + ".tech") == Ok(r.value.tech)
  {
    if !IsRecord(v) then Err(path + " must be an object")
    else
      var head :- ParseProjectHead(v, path);
      var tech :- ParseExperienceTech(Get(v, "tech"), path + ".tech");
      var tail :- ParseProjectTail(v, path);
      Ok(ExperienceProject(head.0, head.1, head.2, head.3, head.4, head.5, head.6, tech, tail.0, tail.1, tail.2))
  }

  /** The elements of a company's `projects` list. */
  function CompanyProjects(v: Yaml): seq<Yaml>
    requires Get(v, "projects").YList?
  {
    Get(v, "projects").items
  }

  function ProjectPath(source: string, i: nat): string {
    "[" + source + "] projects" + Index(i)
  }

  /** The projects of a company, project i under path "[source] projects[i]". */
  function ParseProjectList(items: seq<Yaml>, source: string): (r: Result<seq<ExperienceProject>>)
    ensures r.Ok? <==> forall i :: 0 <= i < |items| ==> ProjectAccepts(items[i])
    ensures r.Ok? ==> |r.value| == |items| && forall i :: 0 <= i < |items| ==>
                        ParseExperienceProject(items[i], ProjectPath(source, i)) == Ok(r.value[i])
  {
    Traverse(items, (item, i: nat) => ParseExperienceProject(item, ProjectPath(source, i)))
  }

  /** The reference reading of what `ParseExperienceCompany` accepts. */
  predicate CompanyAccepts(v: Yaml) {
    && IsRecord(v)
    && Get(v, "projects").YList?
    && (forall i :: 0 <= i < |CompanyProjects(v)| ==> ProjectAccepts(CompanyProjects(v)[i]))
    && OptionalFieldOk(v, "abstract_mdFilePath")
    && Get(v, "id").YStr? && !AllSpace(Get(v, "id").s)
    && Get(v, "name").YStr? && !AllSpace(Get(v, "name").s)
    && Get(v, "slug").YStr? && !AllSpace(Get(v, "slug").s)
    && OptionalFieldOk(v, "period")
  }

  /** The company's own fields, validated after its projects. */
  function ParseCompanyFields(v: Yaml, source: string, projects: seq<ExperienceProject>): (r: Result<ExperienceCompany>)
    ensures r.Ok? <==>
              && OptionalFieldOk(v, "abstract_mdFilePath")
              && Get(v, "id").YStr? && !AllSpace(Get(v, "id").s)
              && Get(v, "name").YStr? && !AllSpace(Get(v, "name").s)
              && Get(v, "slug").YStr? && !AllSpace(Get(v, "slug").s)
              && OptionalFieldOk(v, "period")
    ensures r.Ok? ==> CompanyFieldsAre(v, r.value) && r.value.projects == projects
  {
    var abstractPath :- OptionalString(Get(v, "abstract_mdFilePath"), "[" + source + "] abstract_mdFilePath");
    var id :- RequiredString(Get(v, "id"), "[" + source + "] id");
    var name :- RequiredString(Get(v, "name"), "[" + source + "] name");
    var slug :- RequiredString(Get(v, "slug"), "[" + source + "] slug");
    var period :- OptionalString(Get(v, "period"), "[" + source + "] period");
    OptionalStringReads(v, "abstract_mdFilePath", "[" + source + "] abstract_mdFilePath");
    OptionalStringReads(v, "period", "[" + source + "] period");
    Ok(ExperienceCompany(abstractPath, id, name, slug, period, projects))
  }

  /** The company's fields other than `projects` are what the record `v` holds. */
  predicate CompanyFieldsAre(v: Yaml, c: ExperienceCompany) {
    && OptionalFieldIs(v, "abstract_mdFilePath", c.abstractMdFilePath)
    && RequiredFieldIs(v, "id", c.id)
    && RequiredFieldIs(v, "name", c.name)
    && RequiredFieldIs(v, "slug", c.slug)
    && OptionalFieldIs(v, "period", c.period)
  }

  /** One company; the project list is validated before the company's own fields. */
  function ParseExperienceCompany(v: Yaml, source: string): (r: Result<ExperienceCompany>)
    ensures !IsRecord(v) ==> r == Err("[" + source + "] company must be an object")
    ensures IsRecord(v) && !Get(v, "projects").YList? ==>
              r == Err("[" + source + "] projects is required and must be an array")
    ensures r.Ok? <==> CompanyAccepts(v)
    ensures r.Ok? ==> CompanyFieldsAre(v, r.value)
    ensures r.Ok? ==> |r.value.projects| == |CompanyProjects(v)|
                      && forall i :: 0 <= i < |CompanyProjects(v)| ==>
                           ParseExperienceProject(CompanyProjects(v)[i], ProjectPath(source, i)) == Ok(r.value.projects[i])
  {
    if !IsRecord(v) then Err("[" + source + "] company must be an object")
    else if !Get(v, "projects").YList? then Err("[" + source + "] projects is required and must be an array")
    else
      var projects :- ParseProjectList(CompanyProjects(v), source);
      ParseCompanyFields(v, source, projects)
  }

  /** `isRecord(item) && isString(item.file)`. */
  predicate HasFileRef(v: Yaml) {
    IsRecord(v) && Get(v, "file").YStr?
  }

  /** An element an all-ref index accepts: a record whose `file` is a non-blank string. */
  predicate GoodRef(v: Yaml) {
    HasFileRef(v) && !AllSpace(Get(v, "file").s)
  }

  /** Element i is the first one that is not a good ref. */
  predicate FirstBadRef(items: seq<Yaml>, i: nat)
    requires i < |items|
  {
    !GoodRef(items[i]) && forall j :: 0 <= j < i ==> GoodRef(items[j])
  }

  function CompanyItems(v: Yaml): seq<Yaml>
    requires Get(v, "companies").YList?
  {
    Get(v, "companies").items
  }

  function RefError(source: string, i: nat): string {
    "[" + source + "] companies" + Index(i) + ".file must be a non-empty string"
  }

  function CompanySource(source: string, i: nat): string {
    source + " companies" + Index(i)
  }

  function ParseCompanyRef(item: Yaml, source: string, i: nat): (r: Result<string>)
    ensures r.Ok? <==> GoodRef(item)
    ensures r.Ok? ==> r.value == Get(item, "file").s
    ensures r.Err? ==> r.error == RefError(source, i)
  {
    if !IsRecord(item) || !Get(item, "file").YStr? || Trim(Get(item, "file").s) == "" then Err(RefError(source, i))
    else Ok(Get(item, "file").s)
  }

  /** The files of an all-ref index, untrimmed; the first bad element decides the error. */
  function ParseCompanyRefList(items: seq<Yaml>, source: string): (r: Result<seq<string>>)
    ensures r.Ok? <==> forall i :: 0 <= i < |items| ==> GoodRef(items[i])
    ensures r.Ok? ==> |r.value| == |items| && forall i :: 0 <= i < |items| ==> r.value[i] == Get(items[i], "file").s
    ensures forall i :: 0 <= i < |items| && FirstBadRef(items, i) ==> r == Err(RefError(source, i))
  {
    var f := (item, i: nat) => ParseCompanyRef(item, source, i);
    var r := Traverse(items, f);
    forall i | 0 <= i < |items| && FirstBadRef(items, i) ensures r == Err(RefError(source, i)) {
      forall j | 0 <= j < i ensures f(items[j], j).Ok? {
        assert GoodRef(items[j]);
      }
      assert FirstFailure(items, f, i);
    }
    r
  }

  /** The companies of an inline index, company i under source "<source> companies[i]". */
  function ParseCompanyList(items: seq<Yaml>, source: string): (r: Result<seq<ExperienceCompany>>)
    ensures r.Ok? <==> forall i :: 0 <= i < |items| ==> CompanyAccepts(items[i])
    ensures r.Ok? ==> |r.value| == |items| && forall i :: 0 <= i < |items| ==>
                        ParseExperienceCompany(items[i], CompanySource(source, i)) == Ok(r.value[i])
  {
    Traverse(items, (item, i: nat) => ParseExperienceCompany(item, CompanySource(source, i)))
  }

  /** An experiences index: once any element names a file, every element must. */
  function ParseExperienceCompaniesRoot(v: Yaml, source: string): (r: Result<CompanyIndex>)
    ensures !IsRecord(v) ==> r == Err("[" + source + "] root must be an object")
    ensures IsRecord(v) && !Get(v, "companies").YList? ==>
              r == Err("[" + source + "] companies is required and must be an array")
    ensures IsRecord(v) && Get(v, "companies") == YList([]) ==> r == Ok(Inline([]))
    ensures IsRecord(v) && Get(v, "companies").YList?
            && (exists i :: 0 <= i < |CompanyItems(v)| && HasFileRef(CompanyItems(v)[i])) ==>
              && (r.Ok? <==> forall i :: 0 <= i < |CompanyItems(v)| ==> GoodRef(CompanyItems(v)[i]))
              && (r.Ok? ==> r.value.Refs?
                            && |r.value.files| == |CompanyItems(v)|
                            && forall i :: 0 <= i < |CompanyItems(v)| ==> r.value.files[i] == Get(CompanyItems(v)[i], "file").s)
              && (forall i :: 0 <= i < |CompanyItems(v)| && FirstBadRef(CompanyItems(v), i) ==>
                    r == Err(RefError(source, i)))
    ensures IsRecord(v) && Get(v, "companies").YList?
            && (forall i :: 0 <= i < |CompanyItems(v)| ==> !HasFileRef(CompanyItems(v)[i])) ==>
              && (r.Ok? <==> forall i :: 0 <= i < |CompanyItems(v)| ==> CompanyAccepts(CompanyItems(v)[i]))
              && (r.Ok? ==> r.value.Inline?
                            && |r.value.companies| == |CompanyItems(v)|
                            && forall i :: 0 <= i < |CompanyItems(v)| ==>
                                 ParseExperienceCompany(CompanyItems(v)[i], CompanySource(source, i)) == Ok(r.value.companies[i]))
  {
    if !IsRecord(v) then Err("[" + source + "] root must be an object")
    else if !Get(v, "companies").YList? then Err("[" + source + "] companies is required and must be an array")
    else
      var items := CompanyItems(v);
      if items == [] then Ok(Inline([]))
      else if exists i :: 0 <= i < |items| && HasFileRef(items[i]) then
        var files :- ParseCompanyRefList(items, source);
        Ok(Refs(files))
      else
        var companies :- ParseCompanyList(items, source);
        Ok(Inline(companies))
  }
}
