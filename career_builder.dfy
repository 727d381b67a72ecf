/** `buildCareerHtml`: fill the career-history template with the loaded
    data. The template is a `CareerDocument`: the child list of each
    element the builder fills, `None` where the template lacks it. */
module CareerBuilder {
  import opened Wrappers
  import opened Text
  import opened Seqs
  import opened Yaml
  import opened Dom
  import opened Markdown
  import opened ResumeDataLoader

  // ---------------------------------------------------------------------
  // Reading the data

  /** `value ?? fallback`, written as text. */
  function TextOr(v: Yaml, fallback: string): (r: string)
    ensures IsNullish(v) ==> r == fallback
    ensures v.YStr? ==> r == v.s
  {
    if IsNullish(v) then fallback else JsString(v)
  }

  /** `text || '-'`. */
  function OrDash(s: string): (r: string)
    ensures r != ""
    ensures s != "" ==> r == s
  {
    if s == "" then "-" else s
  }

  /** The elements of `value ?? []` as a list. */
  function ListItems(v: Yaml): seq<Yaml> {
    if v.YList? then v.items else []
  }

  /** The texts of a list, each as `textContent` shows it. */
  function ListTexts(v: Yaml): (r: seq<string>)
    ensures |r| == |ListItems(v)|
  {
    Map(NormalizeText, ListItems(v))
  }

  /** `(value ?? []).join(sep)`: absent elements join as empty text. */
  function JoinList(v: Yaml, sep: string): string {
    Join(ListTexts(v), sep)
  }

  // ---------------------------------------------------------------------
  // flattenTech

  function CharString(c: char): string {
    [c]
  }

  /** `...(value ?? [])`: a list gives its elements, a string its characters. */
  function Spread(v: Yaml): seq<string> {
    if v.YList? then Map(NormalizeText, v.items)
    else if v.YStr? then Map(CharString, v.s)
    else []
  }

  /** The tags of one technology group: os, lang, framework, infra. */
  function GroupTags(group: Yaml): seq<string> {
    Spread(Get(group, "os")) + Spread(Get(group, "lang")) + Spread(Get(group, "framework")) + Spread(Get(group, "infra"))
  }

  /** Every tag of every group, in order, duplicates included. */
  function AllTags(tech: Yaml): seq<string> {
    if tech.YList? then FlatMap(GroupTags, tech.items) else []
  }

  /** `flattenTech`: every tag once, in order of first appearance over the
      groups and over os, lang, framework and infra; nothing for a missing
      or empty list. */
  function FlattenTech(tech: Yaml): (r: seq<string>)
    ensures !tech.YList? || tech.items == [] ==> r == []
    ensures NoDuplicates(r)
    ensures forall t :: t in r <==> t in AllTags(tech)
  {
    if !tech.YList? || |tech.items| == 0 then []
    else Dedup(AllTags(tech))
  }

  /** The order of the flattened tags is the order of their first appearance. */
  lemma FlattenTechOrder(tech: Yaml, i: nat, j: nat)
    requires tech.YList? && i < j < |FlattenTech(tech)|
    ensures FirstIndex(AllTags(tech), FlattenTech(tech)[i]) < FirstIndex(AllTags(tech), FlattenTech(tech)[j])
  {
    if |tech.items| > 0 {
      DedupFirstSeenOrder(AllTags(tech), i, j);
    }
  }

  /** Tags that are already distinct are kept as they are. */
  lemma FlattenDistinct(tech: Yaml)
    requires tech.YList? && NoDuplicates(AllTags(tech))
    ensures FlattenTech(tech) == AllTags(tech)
  {
    if |tech.items| == 0 {
      assert AllTags(tech) == [];
    } else {
      DedupOfDistinct(AllTags(tech));
    }
  }

  // ---------------------------------------------------------------------
  // Building blocks

  function TagSpan(tag: string): Node {
    TextElem("span", "tag", tag)
  }

  /** The tags of `appendTagList`: one "-" tag for an empty list, otherwise
      one tag per entry, in order. */
  function TagNodes(tags: seq<string>): (r: seq<Node>)
    ensures tags == [] ==> r == [TagSpan("-")]
    ensures tags != [] ==> |r| == |tags| && forall i :: 0 <= i < |tags| ==> r[i] == TagSpan(tags[i])
  {
    if tags == [] then [TagSpan("-")] else Map(TagSpan, tags)
  }

  /** `appendTagList`: replace the children of the target with the tags;
      a missing target is left alone. */
  method AppendTagList(target: Container?, tags: seq<string>)
    modifies target
    ensures target != null ==> target.children == TagNodes(tags)
  {
    if target == null {
      return;
    }
    if |tags| == 0 {
      target.children := [TagSpan("-")];
      return;
    }
    target.children := Map(TagSpan, tags);
  }

  function KeyDiv(key: string): Node {
    TextElem("div", "k", key)
  }

  function ValueDiv(value: string): Node {
    TextElem("div", "v", value)
  }

  /** The key and value cells of `appendKeyValueRows`, pair by pair. */
  function KeyValueNodes(pairs: seq<(string, string)>): (r: seq<Node>)
    ensures |r| == 2 * |pairs|
    ensures forall i :: 0 <= i < |pairs| ==> r[2 * i] == KeyDiv(pairs[i].0) && r[2 * i + 1] == ValueDiv(pairs[i].1)
  {
    if pairs == [] then []
    else
      var front := KeyValueNodes(pairs[..|pairs| - 1]);
      var last := pairs[|pairs| - 1];
      assert forall i :: 0 <= i < |pairs| - 1 ==> pairs[..|pairs| - 1][i] == pairs[i];
      front + [KeyDiv(last.0), ValueDiv(last.1)]
  }

  /** `appendKeyValueRows`: append a key cell and a value cell per pair. */
  method AppendKeyValueRows(target: Container, pairs: seq<(string, string)>)
    modifies target
    ensures target.children == old(target.children) + KeyValueNodes(pairs)
  {
    var i := 0;
    while i < |pairs|
      invariant 0 <= i <= |pairs|
      invariant target.children == old(target.children) + KeyValueNodes(pairs[..i])
    {
      assert pairs[..i + 1][..i] == pairs[..i];
      target.children := target.children + [KeyDiv(pairs[i].0), ValueDiv(pairs[i].1)];
      i := i + 1;
    }
    assert pairs[..i] == pairs;
  }

  function ListItem(text: string): Node {
    TextElem("li", "", text)
  }

  /** What `appendListSection` adds: a heading and a list with one item per
      entry, or nothing at all for an empty list. */
  function ListSectionNodes(title: string, items: seq<string>): (r: seq<Node>)
    ensures items == [] <==> r == []
    ensures items != [] ==> |r| == 2 && r[0] == TextElem("h3", "", title)
                            && r[1].Elem? && r[1].tag == "ul" && r[1].cls == "list"
                            && r[1].children == Map(ListItem, items)
  {
    if items == [] then [] else [TextElem("h3", "", title), Elem("ul", "list", Map(ListItem, items))]
  }

  /** `appendListSection`: build the list item by item, then append the
      heading and the list. */
  method AppendListSection(target: Container, title: string, items: seq<string>)
    modifies target
    ensures target.children == old(target.children) + ListSectionNodes(title, items)
  {
    if |items| == 0 {
      return;
    }
    target.children := target.children + [TextElem("h3", "", title)];
    var list: seq<Node> := [];
    var i := 0;
    while i < |items|
      invariant 0 <= i <= |items|
      invariant target.children == old(target.children) + [TextElem("h3", "", title)]
      invariant list == Map(ListItem, items[..i])
    {
      assert items[..i + 1] == items[..i] + [items[i]];
      MapConcat(ListItem, items[..i], [items[i]]);
      list := list + [ListItem(items[i])];
      i := i + 1;
    }
    assert items[..i] == items;
    target.children := target.children + [Elem("ul", "list", list)];
    assert target.children == old(target.children) + [TextElem("h3", "", title), Elem("ul", "list", list)];
  }

  // ---------------------------------------------------------------------
  // Header

  const ProfileNote := "※住所/電話番号/証明写真は履歴書に反映"

  /** The value of a profile row: a link when it starts with "http", the
      text or "-" otherwise. */
  function ProfileValue(value: string): Node {
    if StartsWith(value, "http") then Link(value) else Text(OrDash(value))
  }

  function ProfileRow(caption: string, value: string): Node {
    Elem("div", "row", [TextElem("strong", "", caption + ":"), Text(" "), ProfileValue(value)])
  }

  /** A profile row reads "label: value", with "-" for an empty value, and
      shows a link exactly when the value starts with "http". */
  lemma ProfileRowText(caption: string, value: string)
    ensures TextContent(ProfileRow(caption, value)) == caption + ": " + OrDash(value)
    ensures ProfileRow(caption, value).children[2].Link? <==> StartsWith(value, "http")
  {
    var cs := ProfileRow(caption, value).children;
    assert cs[1..][1..][1..] == [];
    assert TextContents(cs[1..][1..]) == TextContent(ProfileValue(value));
    assert TextContents(cs[1..]) == " " + TextContent(ProfileValue(value));
    if StartsWith(value, "http") {
      assert value != "";
    }
  }

  function ProfilePairs(data: ResumeData): seq<(string, string)> {
    [("氏名", data.name), ("Email", data.email), ("GitHub", data.githubUrl), ("Portfolio", OrDash(data.portfolioUrlFromData))]
  }

  function ProfileRowOf(pair: (string, string)): Node {
    ProfileRow(pair.0, pair.1)
  }

  /** The new children of `.profile`: the four rows, then the note. */
  function ProfileNodes(data: ResumeData): (r: seq<Node>)
    ensures |r| == 5 && r[4] == TextElem("div", "row small", ProfileNote)
  {
    Map(ProfileRowOf, ProfilePairs(data)) + [TextElem("div", "row small", ProfileNote)]
  }

  /** A `<time>` element: its `datetime` attribute and its children. */
  datatype TimeStamp = TimeStamp(datetime: string, children: seq<Node>)

  // ---------------------------------------------------------------------
  // Summary

  const DefaultAreas: seq<string> := ["バックエンド", "インフラ", "運用改善"]

  /** The summary paragraph: the first paragraph of the experience abstract,
      or the whole self-PR as text when the abstract has none. */
  function SummaryText(data: ResumeData): string {
    var paragraphs := SplitParagraphs(data.experienceAbstract);
    if |paragraphs| > 0 then paragraphs[0] else MarkdownToText(data.selfPrMarkdown)
  }

  /** The summary is trimmed text without backticks; it is a non-empty
      paragraph of the abstract whenever the abstract has one. */
  lemma SummaryTextShape(data: ResumeData)
    ensures IsTrimmed(SummaryText(data))
    ensures SplitParagraphs(data.experienceAbstract) != [] ==>
              SummaryText(data) != "" && SummaryText(data) in SplitParagraphs(data.experienceAbstract)
    ensures SplitParagraphs(data.experienceAbstract) == [] ==>
              NoBacktick(SummaryText(data)) && NoTripleNewline(SummaryText(data))
  {
  }

  /** The summary is the earliest block of the abstract's text, between
      blank lines, that is not blank once trimmed; it is the self-PR as text
      when every block is blank. */
  lemma SummaryFromBlocks(data: ResumeData)
    ensures var blocks := SplitBlankLines(MarkdownToText(data.experienceAbstract), "");
            && (forall k :: 0 <= k < |blocks| && Trim(blocks[k]) != "" && (forall j :: 0 <= j < k ==> Trim(blocks[j]) == "") ==>
                  SummaryText(data) == Trim(blocks[k]))
            && ((forall k :: 0 <= k < |blocks| ==> Trim(blocks[k]) == "") ==>
                  SummaryText(data) == MarkdownToText(data.selfPrMarkdown))
  {
    var blocks := SplitBlankLines(MarkdownToText(data.experienceAbstract), "");
    var pieces := Map(Trim, blocks);
    forall k | 0 <= k < |blocks| && Trim(blocks[k]) != "" && (forall j :: 0 <= j < k ==> Trim(blocks[j]) == "")
      ensures SummaryText(data) == Trim(blocks[k])
    {
      FilterFirst(NonEmpty, pieces, k);
    }
    if forall k :: 0 <= k < |blocks| ==> Trim(blocks[k]) == "" {
      NoneFiltered(NonEmpty, pieces);
    }
  }

  /** The list the areas of expertise come from. */
  function AreaSource(data: ResumeData): seq<string> {
    if |data.coreStrengths| > 0 then data.coreStrengths
    else if |data.curiousFields| > 0 then data.curiousFields
    else DefaultAreas
  }

  /** The areas of expertise: the core strengths, else the fields of
      interest, else three defaults; at most six. */
  function Areas(data: ResumeData): seq<string> {
    Take(AreaSource(data), 6)
  }

  /** There are between one and six areas, the leading entries of the first
      non-empty list among the core strengths and the fields of interest,
      and the defaults when both are empty. */
  lemma AreasShape(data: ResumeData)
    ensures 1 <= |Areas(data)| <= 6
    ensures Areas(data) == AreaSource(data)[..|Areas(data)|]
    ensures |Areas(data)| == if |AreaSource(data)| < 6 then |AreaSource(data)| else 6
    ensures data.coreStrengths != [] ==> AreaSource(data) == data.coreStrengths
    ensures data.coreStrengths == [] && data.curiousFields != [] ==> AreaSource(data) == data.curiousFields
    ensures data.coreStrengths == [] && data.curiousFields == [] ==> Areas(data) == DefaultAreas
  {
  }

  function ProjectTechTags(project: Yaml): seq<string> {
    FlattenTech(Get(project, "tech"))
  }

  /** The learning tags: the explicit list when there is one, otherwise the
      first eight distinct technologies of the personal projects. */
  function Learnings(data: ResumeData): (r: seq<string>)
    ensures data.skillsLearningInProgress != [] ==> r == data.skillsLearningInProgress
  {
    if |data.skillsLearningInProgress| > 0 then data.skillsLearningInProgress
    else Take(Dedup(FlatMap(ProjectTechTags, data.projects)), 8)
  }

  /** Without an explicit list, the learning tags are at most eight distinct
      technologies of the personal projects, and all of them when there are
      no more than eight. */
  lemma LearningsFromProjects(data: ResumeData)
    requires data.skillsLearningInProgress == []
    ensures var r := Learnings(data);
            var tags := FlatMap(ProjectTechTags, data.projects);
            && |r| <= 8 && NoDuplicates(r)
            && (forall i :: 0 <= i < |r| ==> r[i] in tags)
            && (|Dedup(tags)| <= 8 ==> forall t :: t in tags ==> t in r)
  {
    var all := Dedup(FlatMap(ProjectTechTags, data.projects));
    var r := Take(all, 8);
    assert forall i :: 0 <= i < |r| ==> r[i] == all[i];
  }

  function TextNodes(s: string): seq<Node> {
    if s == "" then [] else [Text(s)]
  }

  // ---------------------------------------------------------------------
  // Experience

  function TechRow(caption: string, tags: seq<string>): Node {
    Elem("div", "tech-row", [TextElem("div", "tech-label", caption), Elem("div", "tags", TagNodes(tags))])
  }

  /** `createTechGroups`: one row per group, an empty group showing "-". */
  function TechGroups(os: seq<string>, lang: seq<string>, infra: seq<string>): Node {
    Elem("div", "tech-groups", [TechRow("OS", os), TechRow("Lang", lang), TechRow("Infra", infra)])
  }

  /** The roles joined by " / ", or "-". */
  function RoleText(project: Yaml): (r: string)
    ensures r != ""
  {
    OrDash(JoinList(Get(project, "role"), " / "))
  }

  /** `first || second || '-'` for trimmed texts. */
  function FirstNonEmpty(first: string, second: string): (r: string)
    requires IsTrimmed(first) && IsTrimmed(second)
    ensures r != "" && IsTrimmed(r)
    ensures first != "" ==> r == first
    ensures first == "" && second != "" ==> r == second
    ensures first == "" && second == "" ==> r == "-"
  {
    if first != "" then first else OrDash(second)
  }

  /** The outcome: the result, else the summary, else "-". */
  function OutcomeText(project: Yaml): (r: string)
    ensures r != "" && IsTrimmed(r)
    ensures TrimmedText(Get(project, "result")) != "" ==> r == TrimmedText(Get(project, "result"))
    ensures TrimmedText(Get(project, "result")) == "" && TrimmedText(Get(project, "summary")) != "" ==>
              r == TrimmedText(Get(project, "summary"))
    ensures TrimmedText(Get(project, "result")) == "" && TrimmedText(Get(project, "summary")) == "" ==> r == "-"
  {
    FirstNonEmpty(TrimmedText(Get(project, "result")), TrimmedText(Get(project, "summary")))
  }

  /** `createExperienceProjectItem`. */
  function ExperienceProjectItem(project: Yaml): (r: Node)
    ensures r.Elem? && r.tag == "article" && r.cls == "project-item"
  {
    var tech := Get(project, "tech");
    var kv := Elem("div", "kv",
      KeyValueNodes([("役割", RoleText(project)), ("成果（定量/定性）", OutcomeText(project))])
      + [KeyDiv("技術"),
         Elem("div", "v", [TechGroups(ListTexts(Get(tech, "os")), ListTexts(Get(tech, "lang")), ListTexts(Get(tech, "infra")))])]);
    Elem("article", "project-item",
      [TextElem("h3", "project-title", TextOr(Get(project, "title"), "-")), kv]
      + ListSectionNodes("工夫", ListTexts(Get(project, "effort")))
      + ListSectionNodes("課題解決", ListTexts(Get(project, "issue_solving"))))
  }

  /** A project item shows its title, or "-", then the role and outcome
      rows; the effort and issue-solving sections appear only when listed. */
  lemma ExperienceProjectItemShape(project: Yaml)
    ensures var r := ExperienceProjectItem(project);
            && |r.children| >= 2
            && TextContent(r.children[0]) == TextOr(Get(project, "title"), "-")
            && r.children[1].Elem? && r.children[1].cls == "kv" && |r.children[1].children| == 6
            && TextContent(r.children[1].children[1]) == RoleText(project)
            && TextContent(r.children[1].children[3]) == OutcomeText(project)
            && (|r.children| == 2 <==> ListItems(Get(project, "effort")) == [] && ListItems(Get(project, "issue_solving")) == [])
  {
    var tech := Get(project, "tech");
    ProjectItemParts(TextOr(Get(project, "title"), "-"), RoleText(project), OutcomeText(project),
                     Elem("div", "v", [TechGroups(ListTexts(Get(tech, "os")), ListTexts(Get(tech, "lang")), ListTexts(Get(tech, "infra")))]),
                     ListSectionNodes("工夫", ListTexts(Get(project, "effort"))),
                     ListSectionNodes("課題解決", ListTexts(Get(project, "issue_solving"))));
  }

  /** The layout of a project item, whatever its texts and sections. */
  lemma ProjectItemParts(title: string, role: string, outcome: string, techValue: Node, effort: seq<Node>, issues: seq<Node>)
    ensures var r := Elem("article", "project-item",
                          [TextElem("h3", "project-title", title),
                           Elem("div", "kv", KeyValueNodes([("役割", role), ("成果（定量/定性）", outcome)]) + [KeyDiv("技術"), techValue])]
                          + effort + issues);
            && |r.children| >= 2
            && TextContent(r.children[0]) == title
            && r.children[1].Elem? && r.children[1].cls == "kv" && |r.children[1].children| == 6
            && TextContent(r.children[1].children[1]) == role
            && TextContent(r.children[1].children[3]) == outcome
            && (|r.children| == 2 <==> effort == [] && issues == [])
  {
    var ps := [("役割", role), ("成果（定量/定性）", outcome)];
    var pairs := KeyValueNodes(ps);
    assert pairs[2 * 0 + 1] == ValueDiv(ps[0].1) && pairs[2 * 1 + 1] == ValueDiv(ps[1].1);
    var kv := Elem("div", "kv", pairs + [KeyDiv("技術"), techValue]);
    assert kv.children[1] == pairs[1] && kv.children[3] == pairs[3];
  }

  /** `createCompanyGroup`: the company head, then one item per project. */
  function CompanyGroup(company: Yaml): (r: Node)
    ensures r.Elem? && r.tag == "article" && r.cls == "company-group"
    ensures |r.children| == 2 && r.children[1].Elem?
            && r.children[1].children == Map(ExperienceProjectItem, ListItems(Get(company, "projects")))
  {
    var head := Elem("div", "company-head", [
      Elem("div", "left", [TextElem("div", "company", TextOr(Get(company, "name"), "-")),
                           TextElem("div", "meta", "職種: ソフトウェアエンジニア")]),
      Elem("div", "right", [TextElem("div", "", TextOr(Get(company, "period"), "-"))])]);
    Elem("article", "company-group",
      [head, Elem("div", "company-projects", Map(ExperienceProjectItem, ListItems(Get(company, "projects"))))])
  }

  // ---------------------------------------------------------------------
  // Personal projects

  /** The repository line: "GitHub: " then a link, or "-". */
  function RepoLine(project: Yaml): (r: Node)
    ensures TextContent(r) == "GitHub: " + (if Truthy(Get(project, "repos_url")) then JsString(Get(project, "repos_url")) else "-")
  {
    var url := Get(project, "repos_url");
    var value := if Truthy(url) then Link(JsString(url)) else Text("-");
    var r := Elem("div", "", [Text("GitHub: "), value]);
    assert TextContent(value) == if Truthy(url) then JsString(url) else "-";
    assert [value][1..] == [];
    assert TextContents([value]) == TextContent(value);
    assert r.children[1..] == [value];
    assert TextContents(r.children) == "GitHub: " + TextContents([value]);
    r
  }

  /** `createPersonalProjectArticle`. */
  function ProjectArticle(project: Yaml): (r: Node)
    ensures r.Elem? && r.tag == "article" && r.cls == "job"
  {
    var head := Elem("div", "job-head", [
      Elem("div", "left", [TextElem("div", "company", TextOr(Get(project, "name"), "-")),
                           TextElem("div", "meta", "個人開発 / OSS")]),
      Elem("div", "right", [RepoLine(project)])]);
    var kv := Elem("div", "kv",
      KeyValueNodes([("概要", OrDash(TrimmedText(Get(project, "abstract")))),
                     ("工夫", OrDash(JoinList(Get(project, "effort"), " / ")))])
      + [KeyDiv("技術"), Elem("div", "v", [Elem("div", "tags", TagNodes(ProjectTechTags(project)))])]);
    Elem("article", "job", [head, kv] + ListSectionNodes("主要機能", ListTexts(Get(project, "main_function"))))
  }

  /** A project article shows the repository line in its head, then the
      abstract and effort rows, or "-", and the project's flattened tech
      tags; the main-function section appears only when listed. */
  lemma ProjectArticleShape(project: Yaml)
    ensures var r := ProjectArticle(project);
            && |r.children| >= 2
            && r.children[0].Elem? && |r.children[0].children| == 2
            && TextContent(r.children[0].children[1]) == TextContent(RepoLine(project))
            && r.children[1].Elem? && r.children[1].cls == "kv" && |r.children[1].children| == 6
            && TextContent(r.children[1].children[1]) == OrDash(TrimmedText(Get(project, "abstract")))
            && TextContent(r.children[1].children[3]) == OrDash(JoinList(Get(project, "effort"), " / "))
            && r.children[1].children[5] == Elem("div", "v", [Elem("div", "tags", TagNodes(FlattenTech(Get(project, "tech"))))])
            && (|r.children| == 2 <==> ListItems(Get(project, "main_function")) == [])
  {
    var r := ProjectArticle(project);
    var ps := [("概要", OrDash(TrimmedText(Get(project, "abstract")))),
               ("工夫", OrDash(JoinList(Get(project, "effort"), " / ")))];
    var pairs := KeyValueNodes(ps);
    assert pairs[2 * 0 + 1] == ValueDiv(ps[0].1) && pairs[2 * 1 + 1] == ValueDiv(ps[1].1);
    var section := ListSectionNodes("主要機能", ListTexts(Get(project, "main_function")));
    assert r.children == [r.children[0], r.children[1]] + section;
    assert r.children[1].children[..4] == pairs;
    assert pairs[1] == ValueDiv(OrDash(TrimmedText(Get(project, "abstract"))));
    assert pairs[3] == ValueDiv(OrDash(JoinList(Get(project, "effort"), " / ")));
    assert [RepoLine(project)][1..] == [];
  }

  // ---------------------------------------------------------------------
  // Rebuilding a section

  predicate HasClass(n: Node, cls: string) {
    n.Elem? && n.cls == cls
  }

  predicate NotCompanyGroup(n: Node) {
    !HasClass(n, "company-group")
  }

  predicate NotJob(n: Node) {
    !HasClass(n, "job")
  }

  /** A section after its old entries are removed and the new ones appended. */
  function RebuiltSection(children: seq<Node>, keep: Node -> bool, added: seq<Node>): seq<Node> {
    Filter(keep, children) + added
  }

  /** Rebuilding a section twice with the same entries is rebuilding it once,
      as long as the entries are themselves removed by the rebuild. */
  lemma {:induction false} RebuiltSectionIdempotent(children: seq<Node>, keep: Node -> bool, added: seq<Node>)
    requires forall i :: 0 <= i < |added| ==> !keep(added[i])
    ensures RebuiltSection(RebuiltSection(children, keep, added), keep, added) == RebuiltSection(children, keep, added)
  {
    var kept := Filter(keep, children);
    FilterConcat(keep, kept, added);
    FilterAll(keep, kept);
    NoneFiltered(keep, added);
  }

  /** Every company group and every project article is removed by a rebuild. */
  lemma AddedAreRemoved(data: ResumeData)
    ensures forall i :: 0 <= i < |data.experiences| ==> !NotCompanyGroup(Map(CompanyGroup, data.experiences)[i])
    ensures forall i :: 0 <= i < |data.projects| ==> !NotJob(Map(ProjectArticle, data.projects)[i])
  {
  }

  // ---------------------------------------------------------------------
  // PR

  /** The lines of a block, each trimmed. */
  function TrimmedLines(block: string): (r: seq<string>)
    ensures forall i :: 0 <= i < |r| ==> IsTrimmed(r[i])
  {
    Map(Trim, Split(block, '\n'))
  }

  /** The non-blank lines of a block, trimmed. */
  function PrLines(block: string): (r: seq<string>)
    ensures forall i :: 0 <= i < |r| ==> r[i] != "" && IsTrimmed(r[i])
  {
    var lines := TrimmedLines(block);
    FilterPreserves(NonEmpty, IsTrimmed, lines);
    Filter(NonEmpty, lines)
  }

  predicate IsBulletLine(line: string) {
    StartsWith(line, "・")
  }

  /** Every line of the block starts with "・". */
  predicate IsBulletBlock(lines: seq<string>) {
    |lines| > 0 && forall i :: 0 <= i < |lines| ==> IsBulletLine(lines[i])
  }

  /** `line.replace(/^・\s*\/, '').trim()`. */
  function StripGlyph(line: string): (r: string)
    ensures IsTrimmed(r)
    ensures IsBulletLine(line) ==> r == Trim(line[1..])
  {
    if IsBulletLine(line) then
      TrimStartTrim(line[1..]);
      Trim(TrimStart(line[1..]))
    else Trim(line)
  }

  function BulletItem(line: string): Node {
    ListItem(StripGlyph(line))
  }

  /** One block of the PR: a list when every line is a bullet, a paragraph
      holding the whole block otherwise. */
  function PrNode(block: string): (r: Node)
    ensures r.Elem? && (r.tag == "ul" <==> IsBulletBlock(PrLines(block)))
    ensures r.tag == "ul" ==> r.cls == "list" && r.children == Map(BulletItem, PrLines(block))
    ensures r.tag != "ul" ==> r.tag == "p" && TextContent(r) == block
  {
    var lines := PrLines(block);
    if IsBulletBlock(lines) then Elem("ul", "list", Map(BulletItem, lines))
    else TextElem("p", "", block)
  }

  /** A bullet item shows its line without the "・" and the surrounding whitespace. */
  lemma BulletItemText(line: string)
    requires IsBulletLine(line)
    ensures TextContent(BulletItem(line)) == Trim(line[1..])
  {
  }

  // ---------------------------------------------------------------------
  // The document

  const CareerTitle := "職務経歴書.html"

  /** The children of a filled element, or `None` when the template lacks it. */
  function Replaced(current: Option<seq<Node>>, children: seq<Node>): Option<seq<Node>> {
    if current.Some? then Some(children) else None
  }

  /** The elements the builder fills, by their children; `None` for an
      element the template lacks. */
  datatype Sections = Sections(
    profile: Option<seq<Node>>,
    subTime: Option<TimeStamp>,
    summary: Option<seq<Node>>,
    areas: Option<seq<Node>>,
    experience: Option<seq<Node>>,
    projects: Option<seq<Node>>,
    prCard: Option<seq<Node>>)

  /** The `<time>` of the title, stamped with the UTC date of the build. */
  function Stamp(todayUtc: Date): TimeStamp {
    TimeStamp(IsoDate(todayUtc), [Text(IsoDate(todayUtc))])
  }

  /** A section rebuilt, when the template has it. */
  function Rebuilt(section: Option<seq<Node>>, keep: Node -> bool, added: seq<Node>): Option<seq<Node>> {
    if section.Some? then Some(RebuiltSection(section.value, keep, added)) else None
  }

  function HeaderFilled(s: Sections, profile: seq<Node>, stamp: TimeStamp): Sections {
    s.(profile := Replaced(s.profile, profile), subTime := if s.subTime.Some? then Some(stamp) else None)
  }

  function SummaryFilled(s: Sections, summary: seq<Node>, areas: seq<Node>): Sections {
    s.(summary := Replaced(s.summary, summary), areas := Replaced(s.areas, areas))
  }

  function ExperienceFilled(s: Sections, groups: seq<Node>): Sections {
    s.(experience := Rebuilt(s.experience, NotCompanyGroup, groups))
  }

  function ProjectsFilled(s: Sections, articles: seq<Node>): Sections {
    s.(projects := Rebuilt(s.projects, NotJob, articles))
  }

  function PrFilled(s: Sections, pr: seq<Node>): Sections {
    s.(prCard := Replaced(s.prCard, pr))
  }

  /** What the builder writes into each element. */
  datatype Filling = Filling(
    profile: seq<Node>,
    stamp: TimeStamp,
    summary: seq<Node>,
    areas: seq<Node>,
    groups: seq<Node>,
    articles: seq<Node>,
    pr: seq<Node>)

  function Contents(data: ResumeData, todayUtc: Date): Filling {
    Filling(
      ProfileNodes(data),
      Stamp(todayUtc),
      TextNodes(SummaryText(data)),
      Map(ListItem, Areas(data)),
      Map(CompanyGroup, data.experiences),
      Map(ProjectArticle, data.projects),
      Map(PrNode, SplitParagraphs(data.selfPrMarkdown)))
  }

  /** The sections after writing `f`, in the order `buildCareerHtml` fills them. */
  function Filled(s: Sections, f: Filling): Sections {
    PrFilled(ProjectsFilled(ExperienceFilled(SummaryFilled(HeaderFilled(s, f.profile, f.stamp), f.summary, f.areas), f.groups), f.articles), f.pr)
  }

  function Built(s: Sections, data: ResumeData, todayUtc: Date): Sections {
    Filled(s, Contents(data, todayUtc))
  }

  /** The career template: its title, the elements the builder fills and the
      tag lists of the first three skill groups, `null` when the template
      lacks them. */
  class CareerDocument {
    var title: string
    var profile: Option<seq<Node>>
    var subTime: Option<TimeStamp>
    var summary: Option<seq<Node>>
    var areas: Option<seq<Node>>
    const workTags: Container?
    const personalTags: Container?
    const learningTags: Container?
    var experience: Option<seq<Node>>
    var projects: Option<seq<Node>>
    var prCard: Option<seq<Node>>

    constructor(s: Sections, workTags: Container?, personalTags: Container?, learningTags: Container?)
      ensures title == CareerTitle && State() == s
      ensures this.workTags == workTags && this.personalTags == personalTags && this.learningTags == learningTags
    {
      title := CareerTitle;
      profile := s.profile;
      subTime := s.subTime;
      summary := s.summary;
      areas := s.areas;
      this.workTags := workTags;
      this.personalTags := personalTags;
      this.learningTags := learningTags;
      experience := s.experience;
      projects := s.projects;
      prCard := s.prCard;
    }

    function State(): Sections
      reads this
    {
      Sections(profile, subTime, summary, areas, experience, projects, prCard)
    }

    /** The three tag lists are different elements. */
    predicate TagListsDistinct()
    {
      && (workTags != null && personalTags != null ==> workTags != personalTags)
      && (workTags != null && learningTags != null ==> workTags != learningTags)
      && (personalTags != null && learningTags != null ==> personalTags != learningTags)
    }

    /** `fillHeaderSection`, with `todayUtc` the UTC date of the build. */
    method FillHeader(data: ResumeData, todayUtc: Date)
      modifies this
      ensures State() == HeaderFilled(old(State()), ProfileNodes(data), Stamp(todayUtc)) && title == old(title)
    {
      if profile.Some? {
        profile := Some(ProfileNodes(data));
      }
      if subTime.Some? {
        var iso := IsoDate(todayUtc);
        subTime := Some(TimeStamp(iso, [Text(iso)]));
      }
    }

    /** `fillSummarySection`. */
    method FillSummary(data: ResumeData)
      requires TagListsDistinct()
      modifies this, workTags, personalTags, learningTags
      ensures State() == SummaryFilled(old(State()), TextNodes(SummaryText(data)), Map(ListItem, Areas(data))) && title == old(title)
      ensures workTags != null ==> workTags.children == TagNodes(data.skillsWorkExperience)
      ensures personalTags != null ==> personalTags.children == TagNodes(data.skillsPersonalProjects)
      ensures learningTags != null ==> learningTags.children == TagNodes(Learnings(data))
    {
      if summary.Some? {
        var paragraph := SummaryText(data);
        summary := Some(TextNodes(paragraph));
      }
      if areas.Some? {
        var items := Areas(data);
        areas := Some(Map(ListItem, items));
      }
      AppendTagList(workTags, data.skillsWorkExperience);
      AppendTagList(personalTags, data.skillsPersonalProjects);
      var learnings := Learnings(data);
      AppendTagList(learningTags, learnings);
    }

    /** `fillExperienceSection`: remove the old company groups one by one,
        then append one group per company. */
    method FillExperience(data: ResumeData)
      modifies this
      ensures State() == ExperienceFilled(old(State()), Map(CompanyGroup, data.experiences)) && title == old(title)
    {
      if experience.Some? {
        var added := Map(CompanyGroup, data.experiences);
        var kept := RemoveMatching(experience.value, NotCompanyGroup);
        experience := Some(kept + added);
      }
    }

    /** `fillProjectsSection`: remove the old project articles one by one,
        then append one article per project. */
    method FillProjects(data: ResumeData)
      modifies this
      ensures State() == ProjectsFilled(old(State()), Map(ProjectArticle, data.projects)) && title == old(title)
    {
      if projects.Some? {
        var added := Map(ProjectArticle, data.projects);
        var kept := RemoveMatching(projects.value, NotJob);
        projects := Some(kept + added);
      }
    }

    /** `fillPrSection`: one node per paragraph of the self-PR. */
    method FillPr(data: ResumeData)
      modifies this
      ensures State() == PrFilled(old(State()), Map(PrNode, SplitParagraphs(data.selfPrMarkdown))) && title == old(title)
    {
      if prCard.Some? {
        var blocks := SplitParagraphs(data.selfPrMarkdown);
        prCard := Some(Map(PrNode, blocks));
      }
    }

    /** `buildCareerHtml` on this template; the form is not used. */
    method Build(data: ResumeData, todayUtc: Date)
      requires TagListsDistinct()
      modifies this, workTags, personalTags, learningTags
      ensures title == CareerTitle
      ensures State() == Built(old(State()), data, todayUtc)
      ensures workTags != null ==> workTags.children == TagNodes(data.skillsWorkExperience)
      ensures personalTags != null ==> personalTags.children == TagNodes(data.skillsPersonalProjects)
      ensures learningTags != null ==> learningTags.children == TagNodes(Learnings(data))
    {
      title := CareerTitle;
      FillHeader(data, todayUtc);
      FillSummary(data);
      FillExperience(data);
      FillProjects(data);
      FillPr(data);
    }
  }

  /** Writing the same contents twice gives what writing them once gives,
      when the entries a rebuild appends are among those it removes: every
      element is replaced outright, and each rebuilt section loses the
      entries the first write added before the same entries are appended
      again. */
  lemma FilledStable(s: Sections, f: Filling)
    requires forall i :: 0 <= i < |f.groups| ==> !NotCompanyGroup(f.groups[i])
    requires forall i :: 0 <= i < |f.articles| ==> !NotJob(f.articles[i])
    ensures Filled(Filled(s, f), f) == Filled(s, f)
  {
    if s.experience.Some? {
      RebuiltSectionIdempotent(s.experience.value, NotCompanyGroup, f.groups);
    }
    if s.projects.Some? {
      RebuiltSectionIdempotent(s.projects.value, NotJob, f.articles);
    }
  }

  /** Building an already built document with the same data and date
      changes nothing. */
  lemma BuildStable(s: Sections, data: ResumeData, todayUtc: Date)
    ensures Built(Built(s, data, todayUtc), data, todayUtc) == Built(s, data, todayUtc)
  {
    AddedAreRemoved(data);
    FilledStable(s, Contents(data, todayUtc));
  }
}
