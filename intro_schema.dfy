/** The self-introduction validator: profile rows, contact scalars and the
    skill and interest lists, each defaulting to empty. */
module IntroSchema {
  import opened Wrappers
  import opened Text
  import opened Seqs
  import opened Yaml
  import opened Fields

  datatype IntroBaseInfo = IntroBaseInfo(
    profileImgPath: Option<string>,
    name: Option<string>,
    pronounce: Option<string>,
    birth: Option<string>,
    from: Option<string>,
    gender: Option<string>)

  datatype IntroSkills = IntroSkills(
    workExperience: seq<string>,
    personalProjects: seq<string>,
    learningInProgress: seq<string>)

  datatype Intro = Intro(
    baseInfo: seq<IntroBaseInfo>,
    email: Option<string>,
    motto: Option<string>,
    hobby: seq<string>,
    skills: IntroSkills,
    coreStrengths: seq<string>,
    curiousFields: seq<string>,
    selfPrMdFilePath: Option<string>)

  datatype IntroYamlConfig = IntroYamlConfig(intro: Intro, lastUpdate: Option<string>)

  /** A string, or a date read as "YYYY-MM-DD"; absent and null read as no value. */
  function OptionalStringOrDate(v: Yaml, path: string): (r: Result<Option<string>>)
    ensures r.Ok? <==> IsNullish(v) || v.YStr? || v.YDate?
    ensures r == Ok(None) <==> IsNullish(v)
    ensures v.YStr? ==> r == Ok(Some(v.s))
    ensures v.YDate? ==> r == Ok(Some(IsoDate(v.date)))
    ensures r.Err? ==> r.error == path + " must be a string"
  {
    if IsNullish(v) then Ok(None)
    else if v.YDate? then Ok(Some(IsoDate(v.date)))
    else if !v.YStr? then Err(path + " must be a string")
    else Ok(Some(v.s))
  }

  /** A birth date written as a YAML date reads back as that date. */
  lemma BirthDateRoundTrip(d: Date, path: string)
    requires ValidDate(d)
    ensures OptionalStringOrDate(YDate(d), path).Ok?
    ensures ParseIsoDate(OptionalStringOrDate(YDate(d), path).value.value) == Some(d)
  {
    IsoDateRoundTrip(d);
  }

  predicate BaseInfoAccepts(v: Yaml) {
    && IsRecord(v)
    && OptionalFieldOk(v, "profile_img_path") && OptionalFieldOk(v, "name")
    && OptionalFieldOk(v, "pronounce")
    && (IsNullish(Get(v, "birth")) || Get(v, "birth").YStr? || Get(v, "birth").YDate?)
    && OptionalFieldOk(v, "from") && OptionalFieldOk(v, "gender")
  }

  function ParseIntroBaseInfo(v: Yaml, path: string): (r: Result<IntroBaseInfo>)
    ensures !IsRecord(v) ==> r == Err(path + " must be an object")
    ensures r.Ok? <==> BaseInfoAccepts(v)
    ensures r.Ok? ==>
              && OptionalFieldIs(v, "profile_img_path", r.value.profileImgPath)
              && OptionalFieldIs(v, "name", r.value.name)
              && OptionalFieldIs(v, "pronounce", r.value.pronounce)
              && OptionalStringOrDate(Get(v, "birth"), path + ".birth") == Ok(r.value.birth)
              && OptionalFieldIs(v, "from", r.value.from)
              && OptionalFieldIs(v, "gender", r.value.gender)
  {
    if !IsRecord(v) then Err(path + " must be an object")
    else
      var profileImgPath :- OptionalString(Get(v, "profile_img_path"), path + ".profile_img_path");
      var name :- OptionalString(Get(v, "name"), path + ".name");
      var pronounce :- OptionalString(Get(v, "pronounce"), path + ".pronounce");
      var birth :- OptionalStringOrDate(Get(v, "birth"), path + ".birth");
      var from :- OptionalString(Get(v, "from"), path + ".from");
      var gender :- OptionalString(Get(v, "gender"), path + ".gender");
      OptionalStringReads(v, "profile_img_path", path + ".profile_img_path");
      OptionalStringReads(v, "name", path + ".name");
      OptionalStringReads(v, "pronounce", path + ".pronounce");
      OptionalStringReads(v, "from", path + ".from");
      OptionalStringReads(v, "gender", path + ".gender");
      Ok(IntroBaseInfo(profileImgPath, name, pronounce, birth, from, gender))
  }

  predicate SkillsAccepts(v: Yaml) {
    IsNullish(v)
    || (IsRecord(v) && ListFieldOk(v, "work_experience") && ListFieldOk(v, "personal_projects")
        && ListFieldOk(v, "learning_in_progress"))
  }

  function ParseIntroSkills(v: Yaml, path: string): (r: Result<IntroSkills>)
    ensures IsNullish(v) ==> r == Ok(IntroSkills([], [], []))
    ensures !IsNullish(v) && !IsRecord(v) ==> r == Err(path + " must be an object")
    ensures r.Ok? <==> SkillsAccepts(v)
    ensures r.Ok? ==>
              && ListFieldIs(v, "work_experience", r.value.workExperience)
              && ListFieldIs(v, "personal_projects", r.value.personalProjects)
              && ListFieldIs(v, "learning_in_progress", r.value.learningInProgress)
  {
    if IsNullish(v) then Ok(IntroSkills([], [], []))
    else if !IsRecord(v) then Err(path + " must be an object")
    else
      var work :- OptionalStringArray(Get(v, "work_experience"), path + ".work_experience");
      var personal :- OptionalStringArray(Get(v, "personal_projects"), path + ".personal_projects");
      var learning :- OptionalStringArray(Get(v, "learning_in_progress"), path + ".learning_in_progress");
      OptionalStringArrayReads(v, "work_experience", path + ".work_experience");
      OptionalStringArrayReads(v, "personal_projects", path + ".personal_projects");
      OptionalStringArrayReads(v, "learning_in_progress", path + ".learning_in_progress");
      Ok(IntroSkills(work, personal, learning))
  }

  function BaseInfoPath(source: string, i: nat): string {
    "[" + source + "] intro.base_info" + Index(i)
  }

  /** The `base_info` rows: absent and null read as none, a non-list is an error. */
  function ParseBaseInfoList(raw: Yaml, source: string): (r: Result<seq<IntroBaseInfo>>)
    ensures IsNullish(raw) ==> r == Ok([])
    ensures !IsNullish(raw) && !raw.YList? ==> r == Err("[" + source + "] intro.base_info must be an array")
    ensures raw.YList? ==> (r.Ok? <==> forall i :: 0 <= i < |raw.items| ==> BaseInfoAccepts(raw.items[i]))
    ensures raw.YList? && r.Ok? ==>
              |r.value| == |raw.items|
              && forall i :: 0 <= i < |raw.items| ==> ParseIntroBaseInfo(raw.items[i], BaseInfoPath(source, i)) == Ok(r.value[i])
  {
    if IsNullish(raw) then Ok([])
    else if raw.YList? then Traverse(raw.items, (item, i: nat) => ParseIntroBaseInfo(item, BaseInfoPath(source, i)))
    else Err("[" + source + "] intro.base_info must be an array")
  }

  /** The fields of `intro` after `base_info`, in the source's order. */
  function ParseIntroFields(intro: Yaml, source: string, baseInfo: seq<IntroBaseInfo>): (r: Result<Intro>)
    ensures r.Ok? <==>
              && OptionalFieldOk(intro, "email") && OptionalFieldOk(intro, "motto")
              && ListFieldOk(intro, "hobby") && SkillsAccepts(Get(intro, "skills"))
              && ListFieldOk(intro, "core_strengths") && ListFieldOk(intro, "curious_fields")
              && OptionalFieldOk(intro, "self-PR_mdFile_path")
    ensures r.Ok? ==>
              && r.value.baseInfo == baseInfo
              && OptionalFieldIs(intro, "email", r.value.email)
              && OptionalFieldIs(intro, "motto", r.value.motto)
              && ListFieldIs(intro, "hobby", r.value.hobby)
              && ParseIntroSkills(Get(intro, "skills"), "[" + source + "] intro.skills") == Ok(r.value.skills)
              && ListFieldIs(intro, "core_strengths", r.value.coreStrengths)
              && ListFieldIs(intro, "curious_fields", r.value.curiousFields)
              && OptionalFieldIs(intro, "self-PR_mdFile_path", r.value.selfPrMdFilePath)
  {
    var p := "[" + source + "] intro.";
    var email :- OptionalString(Get(intro, "email"), p + "email");
    var motto :- OptionalString(Get(intro, "motto"), p + "motto");
    var hobby :- OptionalStringArray(Get(intro, "hobby"), p + "hobby");
    var skills :- ParseIntroSkills(Get(intro, "skills"), p + "skills");
    var core :- OptionalStringArray(Get(intro, "core_strengths"), p + "core_strengths");
    var curious :- OptionalStringArray(Get(intro, "curious_fields"), p + "curious_fields");
    var selfPr :- OptionalString(Get(intro, "self-PR_mdFile_path"), p + "self-PR_mdFile_path");
    OptionalStringReads(intro, "email", p + "email");
    OptionalStringReads(intro, "motto", p + "motto");
    OptionalStringReads(intro, "self-PR_mdFile_path", p + "self-PR_mdFile_path");
    OptionalStringArrayReads(intro, "hobby", p + "hobby");
    OptionalStringArrayReads(intro, "core_strengths", p + "core_strengths");
    OptionalStringArrayReads(intro, "curious_fields", p + "curious_fields");
    Ok(Intro(baseInfo, email, motto, hobby, skills, core, curious, selfPr))
  }

  /** An intro file: `intro` must be an object; `last_update` is read last. */
  function ParseIntroYaml(v: Yaml, source: string): (r: Result<IntroYamlConfig>)
    ensures !IsRecord(v) ==> r == Err("[" + source + "] root must be an object")
    ensures IsRecord(v) && !IsRecord(Get(v, "intro")) ==>
              r == Err("[" + source + "] intro is required and must be an object")
    ensures r.Ok? ==>
              && ParseBaseInfoList(Get(Get(v, "intro"), "base_info"), source) == Ok(r.value.intro.baseInfo)
              && ParseIntroFields(Get(v, "intro"), source, r.value.intro.baseInfo) == Ok(r.value.intro)
              && OptionalFieldIs(v, "last_update", r.value.lastUpdate)
    ensures IsRecord(v) && IsRecord(Get(v, "intro")) ==>
              (r.Ok? <==>
                 && ParseBaseInfoList(Get(Get(v, "intro"), "base_info"), source).Ok?
                 && ParseIntroFields(Get(v, "intro"), source, []).Ok?
                 && OptionalFieldOk(v, "last_update"))
  {
    if !IsRecord(v) then Err("[" + source + "] root must be an object")
    else
      var intro := Get(v, "intro");
      if !IsRecord(intro) then Err("[" + source + "] intro is required and must be an object")
      else
        var baseInfo :- ParseBaseInfoList(Get(intro, "base_info"), source);
        var fields :- ParseIntroFields(intro, source, baseInfo);
        var lastUpdate :- OptionalString(Get(v, "last_update"), "[" + source + "] last_update");
        OptionalStringReads(v, "last_update", "[" + source + "] last_update");
        Ok(IntroYamlConfig(fields, lastUpdate))
  }

  /** An intro that gives no lists at all yields empty lists everywhere,
      including the three skill buckets. */
  lemma IntroListsDefault(v: Yaml, source: string)
    requires IsRecord(v) && IsRecord(Get(v, "intro"))
    requires var intro := Get(v, "intro");
             && IsNullish(Get(intro, "base_info")) && IsNullish(Get(intro, "hobby"))
             && IsNullish(Get(intro, "skills")) && IsNullish(Get(intro, "core_strengths"))
             && IsNullish(Get(intro, "curious_fields"))
    requires ParseIntroYaml(v, source).Ok?
    ensures var c := ParseIntroYaml(v, source).value.intro;
            && c.baseInfo == [] && c.hobby == [] && c.coreStrengths == [] && c.curiousFields == []
            && c.skills == IntroSkills([], [], [])
  {
  }
}
