/** The projects index and project entry validator: a parsed YAML value
    becomes typed project entries, or a reference list of per-project files,
    or an error naming the offending path. */
module ProjectSchema {
  import opened Wrappers
  import opened Text
  import opened Seqs
  import opened Yaml
  import opened Fields

  datatype ProjectTech = ProjectTech(os: seq<string>, lang: seq<string>, framework: seq<string>, infra: seq<string>)

  datatype ProjectEntry = ProjectEntry(
    id: string,
    name: string,
    reposUrl: Option<string>,
    summary: Option<string>,
    tech: seq<ProjectTech>,
    techStack: seq<string>,
    status: Option<string>,
    effort: seq<string>,
    mainFunction: seq<string>,
    thumbnailImgPath: Option<string>)

  /** The two shapes of a projects index: the entries themselves, or the
      files that hold one entry each. */
  datatype ProjectIndex = Inline(projects: seq<ProjectEntry>) | Refs(refs: seq<string>)

  /** A reference path that is safe to fetch below the static root. */
  predicate SafeRefPath(file: string) {
    && StartsWith(file, "/")
    && (EndsWith(file, ".yml") || EndsWith(file, ".yaml"))
    && !Contains(file, "..")
    && !Contains(file, "//")
    && !Contains(file, "\\")
  }

  /** The trimmed reference path, checked in the source's order: blank,
      leading "/", extension, "..", "//", backslash. */
  function ValidateProjectRefFile(value: string, path: string): (r: Result<string>)
    ensures r.Ok? <==> SafeRefPath(Trim(value))
    ensures r.Ok? ==> r.value == Trim(value) && IsTrimmed(r.value)
    ensures AllSpace(value) ==> r == Err(path + " must be a non-empty string")
    ensures !AllSpace(value) && !StartsWith(Trim(value), "/") ==>
              r == Err(path + " must start with \"/\" (static root-relative path)")
  {
    var file := Trim(value);
    if file == "" then Err(path + " must be a non-empty string")
    else if !StartsWith(file, "/") then Err(path + " must start with \"/\" (static root-relative path)")
    else if !EndsWith(file, ".yml") && !EndsWith(file, ".yaml") then Err(path + " must end with .yml or .yaml")
    else if Contains(file, "..") then Err(path + " must not contain \"..\"")
    else if Contains(file, "//") then Err(path + " must not contain \"//\"")
    else if Contains(file, "\\") then Err(path + " must not contain \"\\\"")
    else Ok(file)
  }

  /** An accepted reference path contains none of the forbidden substrings
      at any position. */
  lemma SafeRefPathNowhere(file: string, i: int)
    requires SafeRefPath(file)
    ensures !OccursAt(file, "..", i) && !OccursAt(file, "//", i) && !OccursAt(file, "\\", i)
  {
    ContainsAt(file, "..");
    ContainsAt(file, "//");
    ContainsAt(file, "\\");
  }

  /** The four tech lists of a tech record each hold a list of strings or nothing. */
  predicate TechAccepts(v: Yaml) {
    IsNullish(v) || (IsRecord(v) && ListFieldOk(v, "os") && ListFieldOk(v, "lang")
                     && ListFieldOk(v, "framework") && ListFieldOk(v, "infra"))
  }

  function ParseProjectTech(v: Yaml, path: string): (r: Result<ProjectTech>)
    ensures IsNullish(v) ==> r == Ok(ProjectTech([], [], [], []))
    ensures !IsNullish(v) && !IsRecord(v) ==> r == Err(path + " must be an object")
    ensures r.Ok? <==> TechAccepts(v)
    ensures r.Ok? ==> ListFieldIs(v, "os", r.value.os) && ListFieldIs(v, "lang", r.value.lang)
                      && ListFieldIs(v, "framework", r.value.framework) && ListFieldIs(v, "infra", r.value.infra)
  {
    if IsNullish(v) then Ok(ProjectTech([], [], [], []))
    else if !IsRecord(v) then Err(path + " must be an object")
    else
      var os :- OptionalStringArray(Get(v, "os"), path + ".os");
      var lang :- OptionalStringArray(Get(v, "lang"), path + ".lang");
      var framework :- OptionalStringArray(Get(v, "framework"), path + ".framework");
      var infra :- OptionalStringArray(Get(v, "infra"), path + ".infra");
      OptionalStringArrayReads(v, "os", path + ".os");
      OptionalStringArrayReads(v, "lang", path + ".lang");
      OptionalStringArrayReads(v, "framework", path + ".framework");
      OptionalStringArrayReads(v, "infra", path + ".infra");
      Ok(ProjectTech(os, lang, framework, infra))
  }

  /** The elements of an entry's `tech` list (none when it is absent). */
  function TechItems(v: Yaml): seq<Yaml> {
    var t := Get(v, "tech");
    if t.YList? then t.items else []
  }

  function TechPath(source: string, i: nat): string {
    "[" + source + "] tech" + Index(i)
  }

  /** The reference reading of what `ParseProjectEntry` accepts. */
  predicate EntryAccepts(v: Yaml) {
    && IsRecord(v)
    && (IsNullish(Get(v, "tech")) || Get(v, "tech").YList?)
    && (forall i :: 0 <= i < |TechItems(v)| ==> TechAccepts(TechItems(v)[i]))
    && Get(v, "id").YStr? && !AllSpace(Get(v, "id").s)
    && Get(v, "name").YStr? && !AllSpace(Get(v, "name").s)
    && OptionalFieldOk(v, "repos_url") && OptionalFieldOk(v, "abstract")
    && ListFieldOk(v, "tech_stack") && OptionalFieldOk(v, "status")
    && ListFieldOk(v, "effort") && ListFieldOk(v, "main_function")
    && OptionalFieldOk(v, "thumbnail_img_path")
  }

  /** The scalar and list fields of a project entry, in the order the
      source's object literal evaluates them. */
  function ParseEntryFields(v: Yaml, source: string, tech: seq<ProjectTech>): (r: Result<ProjectEntry>)
    ensures r.Ok? <==>
              && Get(v, "id").YStr? && !AllSpace(Get(v, "id").s)
              && Get(v, "name").YStr? && !AllSpace(Get(v, "name").s)
              && OptionalFieldOk(v, "repos_url") && OptionalFieldOk(v, "abstract")
              && ListFieldOk(v, "tech_stack") && OptionalFieldOk(v, "status")
              && ListFieldOk(v, "effort") && ListFieldOk(v, "main_function")
              && OptionalFieldOk(v, "thumbnail_img_path")
    ensures r.Ok? ==> EntryFieldsAre(v, r.value) && r.value.tech == tech
  {
    var id :- RequiredString(Get(v, "id"), "[" + source + "] id");
    var name :- RequiredString(Get(v, "name"), "[" + source + "] name");
    var reposUrl :- OptionalString(Get(v, "repos_url"), "[" + source + "] repos_url");
    var summary :- OptionalString(Get(v, "abstract"), "[" + source + "] abstract");
    var techStack :- OptionalStringArray(Get(v, "tech_stack"), "[" + source + "] tech_stack");
    var status :- OptionalString(Get(v, "status"), "[" + source + "] status");
    var effort :- OptionalStringArray(Get(v, "effort"), "[" + source + "] effort");
    var mainFunction :- OptionalStringArray(Get(v, "main_function"), "[" + source + "] main_function");
    var thumbnail :- OptionalString(Get(v, "thumbnail_img_path"), "[" + source + "] thumbnail_img_path");
    OptionalStringReads(v, "repos_url", "[" + source + "] repos_url");
    OptionalStringReads(v, "abstract", "[" + source + "] abstract");
    OptionalStringReads(v, "status", "[" + source + "] status");
    OptionalStringReads(v, "thumbnail_img_path", "[" + source + "] thumbnail_img_path");
    OptionalStringArrayReads(v, "tech_stack", "[" + source + "] tech_stack");
    OptionalStringArrayReads(v, "effort", "[" + source + "] effort");
    OptionalStringArrayReads(v, "main_function", "[" + source + "] main_function");
    Ok(ProjectEntry(id, name, reposUrl, summary, tech, techStack, status, effort, mainFunction, thumbnail))
  }

  /** The entry's fields other than `tech` are what the record `v` holds. */
  predicate EntryFieldsAre(v: Yaml, e: ProjectEntry) {
    && RequiredFieldIs(v, "id", e.id)
    && RequiredFieldIs(v, "name", e.name)
    && OptionalFieldIs(v, "repos_url", e.reposUrl)
    && OptionalFieldIs(v, "abstract", e.summary)
    && ListFieldIs(v, "tech_stack", e.techStack)
    && OptionalFieldIs(v, "status", e.status)
    && ListFieldIs(v, "effort", e.effort)
    && ListFieldIs(v, "main_function", e.mainFunction)
    && OptionalFieldIs(v, "thumbnail_img_path", e.thumbnailImgPath)
  }

  /** One project entry; `source` names the file or index position it came
      from. The `tech` list is validated before the other fields. */
  function ParseProjectEntry(v: Yaml, source: string): (r: Result<ProjectEntry>)
    ensures !IsRecord(v) ==> r == Err("[" + source + "] project must be an object")
    ensures IsRecord(v) && !IsNullish(Get(v, "tech")) && !Get(v, "tech").YList? ==>
              r == Err("[" + source + "] tech must be ProjectTech[]")
    ensures r.Ok? <==> EntryAccepts(v)
    ensures r.Ok? ==> EntryFieldsAre(v, r.value)
    ensures r.Ok? ==> |r.value.tech| == |TechItems(v)|
                      && forall i :: 0 <= i < |TechItems(v)| ==>
                           r.value.tech[i] == ParseProjectTech(TechItems(v)[i], TechPath(source, i)).value
  {
    if !IsRecord(v) then Err("[" + source + "] project must be an object")
    else
      var techRaw := Get(v, "tech");
      if !IsNullish(techRaw) && !techRaw.YList? then Err("[" + source + "] tech must be ProjectTech[]")
      else
        var tech :- Traverse(TechItems(v), (item, i: nat) => ParseProjectTech(item, TechPath(source, i)));
        ParseEntryFields(v, source, tech)
  }

  /** The YAML a tech record is written as. */
  function TechToYaml(t: ProjectTech): Yaml {
    YMap(["os", "lang", "framework", "infra"],
         map["os" := StringList(t.os), "lang" := StringList(t.lang),
             "framework" := StringList(t.framework), "infra" := StringList(t.infra)])
  }

  lemma TechRoundTrip(t: ProjectTech, path: string)
    ensures ParseProjectTech(TechToYaml(t), path) == Ok(t)
  {
  }

  /** The YAML a project entry is written as. */
  function EntryToYaml(e: ProjectEntry): Yaml {
    YMap(["id", "name", "repos_url", "abstract", "tech", "tech_stack", "status", "effort",
          "main_function", "thumbnail_img_path"],
         map["id" := YStr(e.id), "name" := YStr(e.name),
             "repos_url" := OptionalToYaml(e.reposUrl), "abstract" := OptionalToYaml(e.summary),
             "tech" := YList(Map(TechToYaml, e.tech)), "tech_stack" := StringList(e.techStack),
             "status" := OptionalToYaml(e.status), "effort" := StringList(e.effort),
             "main_function" := StringList(e.mainFunction),
             "thumbnail_img_path" := OptionalToYaml(e.thumbnailImgPath)])
  }

  /** The record determines every field it is read from. */
  lemma {:induction false} EntryFieldsDetermine(v: Yaml, e1: ProjectEntry, e2: ProjectEntry)
    requires EntryFieldsAre(v, e1) && EntryFieldsAre(v, e2) && e1.tech == e2.tech
    ensures e1 == e2
  {
    ListFieldDetermines(v, "tech_stack", e1.techStack, e2.techStack);
    ListFieldDetermines(v, "effort", e1.effort, e2.effort);
    ListFieldDetermines(v, "main_function", e1.mainFunction, e2.mainFunction);
  }

  lemma EntryFieldsRoundTrip(e: ProjectEntry, source: string)
    requires !AllSpace(e.id) && !AllSpace(e.name)
    ensures ParseEntryFields(EntryToYaml(e), source, e.tech) == Ok(e)
  {
    var v := EntryToYaml(e);
    assert Get(v, "id") == YStr(e.id) && Get(v, "name") == YStr(e.name);
    assert Get(v, "repos_url") == OptionalToYaml(e.reposUrl);
    assert Get(v, "abstract") == OptionalToYaml(e.summary);
    assert Get(v, "status") == OptionalToYaml(e.status);
    assert Get(v, "thumbnail_img_path") == OptionalToYaml(e.thumbnailImgPath);
    assert Get(v, "tech_stack") == StringList(e.techStack);
    assert Get(v, "effort") == StringList(e.effort);
    assert Get(v, "main_function") == StringList(e.mainFunction);
    assert EntryFieldsAre(v, e);
    var r := ParseEntryFields(v, source, e.tech);
    assert r.Ok?;
    EntryFieldsDetermine(v, r.value, e);
  }

  /** Every entry with a non-blank id and name survives being written out
      and validated again. */
  lemma EntryRoundTrip(e: ProjectEntry, source: string)
    requires !AllSpace(e.id) && !AllSpace(e.name)
    ensures ParseProjectEntry(EntryToYaml(e), source) == Ok(e)
  {
    var v := EntryToYaml(e);
    var items := TechItems(v);
    assert items == Map(TechToYaml, e.tech);
    var f := (item, i: nat) => ParseProjectTech(item, TechPath(source, i));
    forall i | 0 <= i < |items| ensures f(items[i], i) == Ok(e.tech[i]) {
      TechRoundTrip(e.tech[i], TechPath(source, i));
    }
    var tech := Traverse(items, f);
    assert tech.value == e.tech;
    EntryFieldsRoundTrip(e, source);
  }

  /** `isRecord(item) && isString(item.file)`. */
  predicate IsFileRef(v: Yaml) {
    IsRecord(v) && Get(v, "file").YStr?
  }

  function ProjectItems(v: Yaml): seq<Yaml>
    requires Get(v, "projects").YList?
  {
    Get(v, "projects").items
  }

  function RefPath(source: string, i: nat): string {
    "[" + source + "] projects" + Index(i) + ".file"
  }

  function InlineSource(source: string, i: nat): string {
    source + " projects" + Index(i)
  }

  function ParseRef(item: Yaml, source: string, i: nat): (r: Result<string>)
    ensures r.Ok? <==> IsFileRef(item) && SafeRefPath(Trim(Get(item, "file").s))
    ensures r.Ok? ==> r.value == Trim(Get(item, "file").s)
  {
    if !IsFileRef(item) then Err("[" + source + "] projects" + Index(i) + ".file must be a string")
    else ValidateProjectRefFile(Get(item, "file").s, RefPath(source, i))
  }

  /** The refs of an all-ref index, each validated under its own path. */
  function ParseRefList(items: seq<Yaml>, source: string): (r: Result<seq<string>>)
    ensures r.Ok? <==> forall i :: 0 <= i < |items| ==> IsFileRef(items[i]) && SafeRefPath(Trim(Get(items[i], "file").s))
    ensures r.Ok? ==> |r.value| == |items| && forall i :: 0 <= i < |items| ==>
                        r.value[i] == Trim(Get(items[i], "file").s) && SafeRefPath(r.value[i])
  {
    Traverse(items, (item, i: nat) => ParseRef(item, source, i))
  }

  /** The entries of an inline index, entry i under source "<source> projects[i]". */
  function ParseInlineList(items: seq<Yaml>, source: string): (r: Result<seq<ProjectEntry>>)
    ensures r.Ok? <==> forall i :: 0 <= i < |items| ==> EntryAccepts(items[i])
    ensures r.Ok? ==> |r.value| == |items| && forall i :: 0 <= i < |items| ==>
                        ParseProjectEntry(items[i], InlineSource(source, i)) == Ok(r.value[i])
  {
    Traverse(items, (item, i: nat) => ParseProjectEntry(item, InlineSource(source, i)))
  }

  const MixedMessage := " projects must be either all file refs or all inline entries; mixed format is not allowed"

  /** A projects index: either every element is a `{file}` ref, or none is. */
  function ParseProjectEntriesRoot(v: Yaml, source: string): (r: Result<ProjectIndex>)
    ensures !IsRecord(v) ==> r == Err("[" + source + "] root must be an object")
    ensures IsRecord(v) && !Get(v, "projects").YList? ==>
              r == Err("[" + source + "] projects is required and must be an array")
    ensures IsRecord(v) && Get(v, "projects") == YList([]) ==> r == Ok(Inline([]))
    ensures IsRecord(v) && Get(v, "projects").YList?
            && (exists i :: 0 <= i < |ProjectItems(v)| && IsFileRef(ProjectItems(v)[i]))
            && (exists i :: 0 <= i < |ProjectItems(v)| && !IsFileRef(ProjectItems(v)[i]))
            ==> r == Err("[" + source + "]" + MixedMessage)
    ensures r.Ok? && r.value.Refs? ==>
              && |r.value.refs| == |ProjectItems(v)|
              && forall i :: 0 <= i < |ProjectItems(v)| ==>
                   && IsFileRef(ProjectItems(v)[i])
                   && r.value.refs[i] == Trim(Get(ProjectItems(v)[i], "file").s)
                   && SafeRefPath(r.value.refs[i])
    ensures r.Ok? && r.value.Inline? ==>
              && |r.value.projects| == |ProjectItems(v)|
              && forall i :: 0 <= i < |ProjectItems(v)| ==>
                   ParseProjectEntry(ProjectItems(v)[i], InlineSource(source, i)) == Ok(r.value.projects[i])
  {
    if !IsRecord(v) then Err("[" + source + "] root must be an object")
    else if !Get(v, "projects").YList? then Err("[" + source + "] projects is required and must be an array")
    else
      var items := ProjectItems(v);
      if items == [] then Ok(Inline([]))
      else
        var hasFileRef := exists i :: 0 <= i < |items| && IsFileRef(items[i]);
        var hasInline := exists i :: 0 <= i < |items| && !IsFileRef(items[i]);
        if hasFileRef && hasInline then Err("[" + source + "]" + MixedMessage)
        else if hasFileRef then
          var refs :- ParseRefList(items, source);
          Ok(Refs(refs))
        else
          var projects :- ParseInlineList(items, source);
          Ok(Inline(projects))
  }

  /** An index of refs only is accepted exactly when every path is safe,
      and then it classifies as refs. */
  lemma RootAllRefs(v: Yaml, source: string)
    requires IsRecord(v) && Get(v, "projects").YList? && |ProjectItems(v)| > 0
    requires forall i :: 0 <= i < |ProjectItems(v)| ==> IsFileRef(ProjectItems(v)[i])
    ensures var r := ParseProjectEntriesRoot(v, source);
            && (r.Ok? <==> forall i :: 0 <= i < |ProjectItems(v)| ==>
                             SafeRefPath(Trim(Get(ProjectItems(v)[i], "file").s)))
            && (r.Ok? ==> r.value.Refs?)
  {
    var items := ProjectItems(v);
    assert IsFileRef(items[0]);
  }

  /** An index without refs is accepted exactly when every entry is, and
      then it classifies as inline. */
  lemma RootAllInline(v: Yaml, source: string)
    requires IsRecord(v) && Get(v, "projects").YList?
    requires forall i :: 0 <= i < |ProjectItems(v)| ==> !IsFileRef(ProjectItems(v)[i])
    ensures var r := ParseProjectEntriesRoot(v, source);
            && (r.Ok? <==> forall i :: 0 <= i < |ProjectItems(v)| ==> EntryAccepts(ProjectItems(v)[i]))
            && (r.Ok? ==> r.value.Inline?)
  {
    if ProjectItems(v) != [] {
      assert !IsFileRef(ProjectItems(v)[0]);
    }
  }

  /** The validator of a self-contained projects file: refs are refused. */
  function ParseProjectsYaml(v: Yaml, source: string): (r: Result<seq<ProjectEntry>>)
    ensures ParseProjectEntriesRoot(v, source).Err? ==> r == Err(ParseProjectEntriesRoot(v, source).error)
    ensures ParseProjectEntriesRoot(v, source).Ok? && ParseProjectEntriesRoot(v, source).value.Refs? ==>
              r == Err("[" + source + "] projects file refs are not supported in parseProjectsYaml")
    ensures r.Ok? ==> ParseProjectEntriesRoot(v, source) == Ok(Inline(r.value))
  {
    var root :- ParseProjectEntriesRoot(v, source);
    if root.Refs? then Err("[" + source + "] projects file refs are not supported in parseProjectsYaml")
    else Ok(root.projects)
  }

  /** A projects file holding even one `{file}` ref is never accepted as a
      self-contained projects file. */
  lemma ProjectsYamlRejectsRefs(v: Yaml, source: string, k: nat)
    requires Get(v, "projects").YList? && k < |ProjectItems(v)| && IsFileRef(ProjectItems(v)[k])
    ensures ParseProjectsYaml(v, source).Err?
  {
    var root := ParseProjectEntriesRoot(v, source);
    if IsRecord(v) && root.Ok? {
      assert IsFileRef(ProjectItems(v)[k]);
      assert root.value.Refs?;
    }
  }
}
