# Résumé and career-history document generation, modelled in Dafny

The modelled system is the document generator of a personal portfolio site. The site keeps the owner's profile as YAML and Markdown files: introduction, history timeline, certifications, personal projects, work-experience companies, header links and a self-PR text. From those files and two HTML templates it produces two documents: a Japanese résumé (履歴書) and a career history (職務経歴書).

Its core has three layers, and the model follows them module by module:

- **Schema validators.** Pure functions that take a parsed YAML value and a source label. Each either returns a typed record or fails with the source's error message, word for word. Modules: `IntroSchema`, `HistorySchema`, `CertificationSchema`, `ProjectSchema`, `ExperienceSchema`, `HeaderSchema`, with the shared field readers in `Fields`.
- **Loaders.** They fetch text files relative to a base URL, parse them, and follow `{file}` references:
  - `LoadProjects` models the projects loader;
  - `LoadExperiences` models the experiences loader;
  - `ResumeDataLoader` models the loader that gathers everything the two documents need;
  - `Fetching` holds the URL resolution and the `fetchText` helpers.

  The functions return the source's result (`Result`/`Option`). Where the order of requests matters, they also return the URLs requested.
- **Builders.** They fill a parsed HTML template in place:
  - `ResumeBuilder.ResumeDocument` fills the résumé's cells and its three history tables;
  - `CareerBuilder.CareerDocument` fills the profile, summary, experience, projects and PR sections of the career history.

  These are classes whose methods change their fields, and each method is proved against a function on the old state. `Dom` holds the element values and the in-place child removal; `Markdown` holds the Markdown-to-text conversion.

Shared pieces:

- `Yaml`: the parsed YAML value and the JavaScript operations on it: `typeof`, property access, `Object.entries`, truthiness and `String(...)`.
- `Text`: JavaScript string operations: `trim`, `includes`, `split`, `join`, number rendering.
- `Seqs`: the array operations: `map`, `filter`, `flatMap`, `find`, `slice`, `Array.from(new Set(...))`, and a throwing `map` under `Promise.all`.
- `Sorting`: a stable sort of a copy by a string key.
- `Wrappers`: `Option` and `Result`.

Fetching and YAML parsing are parameters. The fetch function maps a URL to a response with `ok`, `status` and a body. The YAML parser maps a text to a value or an error. Each loader is a function of these parameters, so its contract says which URLs it reads and how each failure is reported.

What is proved, beyond each member's own contract:

- validators accept exactly the inputs their rules describe, and their results read back what the input holds;
- round trips: typed records written out as YAML validate back to themselves;
- loaders request the URLs in order, and the first failure decides the error;
- reference paths stay under the base, for projects;
- the certification sort is sorted, a permutation and stable;
- counted table rows, areas of expertise and learning tags have the stated length and contents;
- Markdown conversion leaves no backtick, no triple newline and no surrounding whitespace;
- rebuilding an already built document with the same data changes nothing.

Where the code and the design description of the system disagree, the model follows the code:

- `loadResumeData` reads the personal projects from `/data/projects.yml`, checked only by a loose shape guard. It does not read the projects index with `{file}` references. A refused file yields no projects.
- `loadResumeData` reads the experiences index itself. It fetches only the entries with a string `file`, and joins the base URL and the file with no `/` handling and no path check. An inline company list therefore yields no companies (`ResumeDataLoader.InlineCompaniesIgnored`). A company file that is not an object becomes `{}`.
- The design calls an absent list-shaped key an empty collection. In the code, the certification, project and company validators require the list and fail when it is absent. Only the timeline, header links and intro lists default to empty.
- The certification validator reads a null `name` as "no name". The data loader's shape check refuses it, and with it the whole certifications file (`ResumeDataLoader.NullNameDropsCertifications`).
- Experience `{file}` references are not path-checked, unlike project references (`LoadExperiences.RefPathsUnchecked`).
- Certifications are sorted by the raw date text, as the design says. The model proves only what that sort guarantees: sorted by that text and stable. It does not prove chronological order.

## Model

| member | source | states |
|---|---|---|
| CertificationSchema.ParseCertification | src/util/certificationSchema.ts:25-35 | a non-record fails with "<path> must be an object"; a certificate is accepted exactly when each of `id`, `name`, `svg_path`, `DateOfQualification` is absent, null or a string, and each field then holds that string or nothing |
| CertificationSchema.CertificationIgnoresOtherKeys | src/util/certificationSchema.ts:29-34 | a key other than the four added to a certificate record does not change its validation |
| CertificationSchema.ParseCertificationsYaml | src/util/certificationSchema.ts:37-50 | the root-not-an-object and the missing-list errors verbatim; otherwise accepted exactly when every element is, one certificate per element in order, element i validated under "[source] certifications[i]" |
| HeaderSchema.ParseLinkItem | src/util/headerSchema.ts:15-25 | a non-record fails with "<path> must be an object"; accepted exactly when `link` is absent or a string (null and other values fail with "<path>.link must be a string"); the item holds the string, or nothing exactly when `link` is absent |
| HeaderSchema.ParseKeyItems | src/util/headerSchema.ts:38-42 | a non-list fails with "<path>.<key> must be an array"; on success one item per element, element i validated under "<path>.<key>[i]" |
| HeaderSchema.LinkEntriesErrorPersists | src/util/headerSchema.ts:37-43 | once an entry fails, the later entries leave the block's error unchanged (the first failing entry decides the error) |
| HeaderSchema.ParseLinkBlock | src/util/headerSchema.ts:27-44 | the loop over `Object.entries(value)` returns exactly the block specification: the non-object and the no-key errors, then the entries folded in order with the first failure as the error |
| HeaderSchema.LinkEntriesKeys | src/util/headerSchema.ts:36-43 | an accepted block has exactly the keys of the entries |
| HeaderSchema.LinkEntriesItems | src/util/headerSchema.ts:41 | each key holds the items of its last entry, one item per element, as that entry's list validates |
| HeaderSchema.LinkEntriesAllLists | src/util/headerSchema.ts:37-41 | every entry of an accepted block was a list whose items all validated |
| HeaderSchema.LinkBlockKeys | src/util/headerSchema.ts:31-34 | an accepted block is never empty and keeps every key of the record |
| HeaderSchema.ParseHeaderYaml | src/util/headerSchema.ts:46-61 | root-not-an-object error; absent or null `links` gives no blocks; a non-list gives "[source] links must be an array"; otherwise accepted exactly when every block is, one block per element in order under "[source] links[i]" |
| HeaderSchema.DateIsEmptyBlock | src/util/headerSchema.ts:27-34 | a date is an object without own keys, so it is refused with "must contain at least one key" |
| Fields.RequiredString | src/util/projectSchema.ts:19-24 | accepted exactly when the value is a string that is not blank; the string comes back untrimmed; otherwise "<path> is required and must be a non-empty string" |
| Fields.OptionalString | src/util/introSchema.ts:19-27 | absent and null read as no value, a string as itself, anything else fails with "<path> must be a string" |
| Fields.OptionalStringArray | src/util/introSchema.ts:42-50 | absent and null read as the empty list; a list of strings is returned element for element; anything else fails with "<path> must be string[]" |
| Fields.OptionalStringRoundTrip | src/util/introSchema.ts:19-27 | an optional string written out as YAML (null when absent) reads back as itself |
| Fields.OptionalStringArrayRoundTrip | src/util/introSchema.ts:42-50 | a string list written out as YAML reads back as itself |
| Fields.OptionalStringReads | src/util/introSchema.ts:19-27 | an accepted optional field is what the record holds under the key |
| Fields.OptionalStringArrayReads | src/util/introSchema.ts:42-50 | an accepted list field is what the record holds under the key (or empty for absent/null) |
| Fields.ListFieldDetermines | src/util/introSchema.ts:42-50 | the list a record holds under a key is unique, so the accepted value is determined by the record |
| IntroSchema.OptionalStringOrDate | src/util/introSchema.ts:29-40 | absent and null read as no value, a YAML date as its "YYYY-MM-DD" form, a string as itself; anything else fails with "<path> must be a string" |
| IntroSchema.BirthDateRoundTrip | src/util/introSchema.ts:33-35 | a valid date read through the birth field parses back to the same date |
| IntroSchema.ParseIntroBaseInfo | src/util/introSchema.ts:52-64 | a non-record fails with "<path> must be an object"; accepted exactly when the six fields are each acceptable, and each field then holds what the record holds |
| IntroSchema.ParseIntroSkills | src/util/introSchema.ts:66-78 | absent/null gives three empty lists; a non-record fails with "<path> must be an object"; otherwise each of the three lists is the record's list under its key |
| IntroSchema.ParseBaseInfoList | src/util/introSchema.ts:88-96 | absent/null gives no rows; a non-list fails with "[source] intro.base_info must be an array"; a list is accepted exactly when every row is, row i validated under "[source] intro.base_info[i]" |
| IntroSchema.ParseIntroFields | src/util/introSchema.ts:98-108 | accepted exactly when the seven remaining intro fields are acceptable, and each field of the result is what the record holds under its key |
| IntroSchema.ParseIntroYaml | src/util/introSchema.ts:80-111 | the root and the intro errors verbatim; otherwise accepted exactly when `base_info`, the intro fields and `last_update` are, with the result built from exactly those |
| IntroSchema.IntroListsDefault | src/util/introSchema.ts:88-106 | an intro that gives no lists yields empty lists everywhere, including the three skill buckets |
| HistorySchema.OptionalScalarString | src/util/historySchema.ts:29-40 | absent and null read as no value; a string, a number or a date is accepted and read as its text (decimal digits, "YYYY-MM-DD"); anything else fails with "<path> must be a string/number/date" |
| HistorySchema.ScalarDateRoundTrip | src/util/historySchema.ts:33-35 | a valid date normalised to text parses back to the same date |
| HistorySchema.ScalarNumberDigits | src/util/historySchema.ts:36-37 | a non-negative number is normalised to its decimal digits, whose value is the number |
| HistorySchema.ParseTimelineFields | src/util/historySchema.ts:62-71 | accepted exactly when the seven fields are acceptable; each field of the entry is what the record holds, and the dot style is the one checked before |
| HistorySchema.ParseTimelineItem | src/util/historySchema.ts:52-72 | a non-record and a bad `dotVariant` fail with their messages; accepted exactly when the record meets the timeline rules, and the entry's fields are then what the record holds |
| HistorySchema.NullDotVariantRefused | src/util/historySchema.ts:56-59 | a `dotVariant` given as null is refused, unlike the other optional fields |
| HistorySchema.ParseHistoryYaml | src/util/historySchema.ts:74-90 | root error; absent or null `timeline` gives no entries; a non-list gives "[source] timeline must be an array"; otherwise accepted exactly when every entry is, one entry per element in order under "[source] timeline[i]" |
| ExperienceSchema.ParseExperienceTech | src/util/experienceSchema.ts:50-62 | absent/null gives three empty lists; a non-record fails with "<path> must be an object"; otherwise accepted exactly when `os`, `lang`, `infra` are string lists (or absent), which the result then holds |
| ExperienceSchema.ParseProjectHead | src/util/experienceSchema.ts:70-76 | `id` and `title` must be non-blank strings and `member`, `slug`, `summary`, `result`, `role` acceptable; the values are then what the record holds |
| ExperienceSchema.ParseProjectTail | src/util/experienceSchema.ts:78-80 | `effort`, `issue_solving`, `detail_markdown_path` acceptable exactly when the result exists, holding the record's values |
| ExperienceSchema.ParseExperienceProject | src/util/experienceSchema.ts:64-82 | a non-record fails with "<path> must be an object"; accepted exactly when every field is acceptable; every field of the project is what the record holds, and `tech` as its own validator reads it |
| ExperienceSchema.ParseProjectList | src/util/experienceSchema.ts:94-96 | accepted exactly when every project is, project i validated under "[source] projects[i]" |
| ExperienceSchema.ParseCompanyFields | src/util/experienceSchema.ts:98-105 | accepted exactly when `abstract_mdFilePath` and `period` are optional strings and `id`, `name`, `slug` non-blank strings, which the company then holds, with the projects already validated |
| ExperienceSchema.ParseExperienceCompany | src/util/experienceSchema.ts:84-106 | the company-not-an-object and projects-not-a-list errors verbatim; accepted exactly when the projects and the company's fields are; the projects are checked before the company's own fields |
| ExperienceSchema.ParseCompanyRef | src/util/experienceSchema.ts:126-131 | a ref is accepted exactly when it is a record whose `file` is a non-blank string, which is returned untrimmed; otherwise "[source] companies[i].file must be a non-empty string" |
| ExperienceSchema.ParseCompanyRefList | src/util/experienceSchema.ts:126-131 | accepted exactly when every element is a good ref; the files in order; the first bad element's index is the one in the error |
| ExperienceSchema.ParseCompanyList | src/util/experienceSchema.ts:135-137 | accepted exactly when every company is, company i validated under source "<source> companies[i]" |
| ExperienceSchema.ParseExperienceCompaniesRoot | src/util/experienceSchema.ts:108-139 | root and missing-list errors verbatim; an empty list is inline and empty; once any element names a file every element must be a good ref (the result is then the files, the first bad one's error otherwise); with no file refs the companies are validated inline |
| ProjectSchema.ValidateProjectRefFile | src/util/projectSchema.ts:46-68 | accepted exactly when the trimmed path starts with "/", ends in ".yml" or ".yaml" and contains none of "..", "//", "\\"; the trimmed path is returned; a blank path and a missing leading "/" fail with their messages, checked first |
| ProjectSchema.SafeRefPathNowhere | src/util/projectSchema.ts:58-66 | an accepted ref path holds none of the forbidden substrings at any position |
| ProjectSchema.ParseProjectTech | src/util/projectSchema.ts:70-84 | absent/null gives four empty lists; a non-record fails with "<path> must be an object"; otherwise accepted exactly when the four lists are string lists or absent, which the result holds |
| ProjectSchema.ParseEntryFields | src/util/projectSchema.ts:101-112 | accepted exactly when `id` and `name` are non-blank strings and the other scalar and list fields acceptable; the entry then holds the record's values and the tech list already validated |
| ProjectSchema.ParseProjectEntry | src/util/projectSchema.ts:86-113 | the not-an-object and the tech-not-a-list errors verbatim; accepted exactly when the entry rules hold; one tech record per element, element i validated under "[source] tech[i]", the other fields as the record holds them |
| ProjectSchema.TechRoundTrip | src/util/projectSchema.ts:70-84 | a tech record written out as YAML validates back to itself |
| ProjectSchema.EntryFieldsDetermine | src/util/projectSchema.ts:101-112 | the record determines every field read from it |
| ProjectSchema.EntryFieldsRoundTrip | src/util/projectSchema.ts:101-112 | an entry with non-blank id and name, written out, has its scalar and list fields read back unchanged |
| ProjectSchema.EntryRoundTrip | src/util/projectSchema.ts:86-113 | every entry with a non-blank id and name survives being written out as YAML and validated again |
| ProjectSchema.ParseRef | src/util/projectSchema.ts:142-147 | a ref is accepted exactly when it is a record with a string `file` whose trimmed form is a safe path, which is returned; a non-string fails with "[source] projects[i].file must be a string" |
| ProjectSchema.ParseRefList | src/util/projectSchema.ts:142-148 | accepted exactly when every element is a file ref with a safe path; the trimmed paths in order |
| ProjectSchema.ParseInlineList | src/util/projectSchema.ts:151-154 | accepted exactly when every entry is, entry i validated under source "<source> projects[i]" |
| ProjectSchema.ParseProjectEntriesRoot | src/util/projectSchema.ts:115-155 | root and missing-list errors verbatim; an empty list is inline and empty; a mix of refs and inline elements fails with the mixed-format message; accepted refs are one safe trimmed path per element; accepted inline entries one entry per element |
| ProjectSchema.RootAllRefs | src/util/projectSchema.ts:131-149 | a non-empty index of refs only is accepted exactly when every path is safe, and it then classifies as refs |
| ProjectSchema.RootAllInline | src/util/projectSchema.ts:127-154 | an index without refs is accepted exactly when every entry is, and it then classifies as inline |
| ProjectSchema.ParseProjectsYaml | src/util/projectSchema.ts:157-163 | an index error is passed through; a refs index fails with "[source] projects file refs are not supported in parseProjectsYaml"; success is exactly an inline index, whose entries are returned |
| ProjectSchema.ProjectsYamlRejectsRefs | src/util/projectSchema.ts:131-163 | a projects file holding even one `{file}` ref is never accepted |
| Fetching.DropTrailingSlash | src/components/projects/loadProjectsConfig.ts:6 | one trailing "/" of the base is removed, and nothing else |
| Fetching.ResolveUrl | src/components/projects/loadProjectsConfig.ts:5-9 | the URL is the base without its trailing "/", one "/", then the path without its leading "/"; the URL ends with the path |
| Fetching.ResolveUrlTrailingSlash | src/components/projects/loadProjectsConfig.ts:6 | a trailing "/" on the base makes no difference |
| Fetching.ResolveUrlLeadingSlash | src/components/projects/loadProjectsConfig.ts:7 | a leading "/" on the path makes no difference |
| Fetching.ResolveUrlKeepsInnerSlash | src/components/projects/loadProjectsConfig.ts:5-9 | only one trailing "/" is dropped: any base ending in "//" keeps one "/" before a path that does not start with "/" |
| Fetching.FetchYamlText | src/components/projects/loadProjectsConfig.ts:11-17 | the body exactly when the response is ok; otherwise "Failed to fetch yaml: <status> (<url>)" |
| Fetching.FetchYaml | src/components/projects/loadProjectsConfig.ts:20-21 | a failed fetch passes its error on; otherwise the result is the YAML parse of the body |
| Fetching.RefUrls | src/components/projects/loadProjectsConfig.ts:29-30 | one URL per referenced file, in order, each resolved against the base |
| LoadProjects.LoadRef | src/components/projects/loadProjectsConfig.ts:29-33 | a referenced file is fetched from its resolved URL and validated as one entry under its own path; a failed fetch or a body that does not parse is the error |
| LoadProjects.LoadIndex | src/components/projects/loadProjectsConfig.ts:20-22 | the index is fetched from the resolved config path; a failed fetch or a failed parse is the error; a parsed index gives exactly `ParseProjectEntriesRoot` of it under the config path; every ref of an accepted index is a safe path |
| LoadProjects.LoadRefs | src/components/projects/loadProjectsConfig.ts:28-34 | accepted exactly when every referenced file loads; the entries in index order; the first failing file decides the error |
| LoadProjects.LoadProjectsConfig | src/components/projects/loadProjectsConfig.ts:19-37 | the index is requested first; an error stops the load after it; an inline index is returned as validated; a refs index loads every file in order, and exactly those URLs are requested |
| LoadProjects.InvalidIndexFetchesNothingElse | src/components/projects/loadProjectsConfig.ts:22 | a mixed or otherwise invalid index fails the load and no project file is requested |
| LoadProjects.RefUrlBelowBase | src/components/projects/loadProjectsConfig.ts:5-9 | a path starting with "/" is appended to the base as it stands |
| LoadProjects.RefUrlsBelowBase | src/components/projects/loadProjectsConfig.ts:29-30 | every URL requested for a validated index is the base without its trailing "/" followed by the ref path |
| LoadExperiences.RefFiles | src/components/experiences/loadExperiencesConfig.ts:59-60 | the `file` string of each ref, in order |
| LoadExperiences.IsCompanyRef | src/components/experiences/loadExperiencesConfig.ts:18-20 | an object whose `file` is a string |
| LoadExperiences.IsExperienceCompany | src/components/experiences/loadExperiencesConfig.ts:22-31 | an object with string `id`, `name` and `slug` and a list of `projects` |
| LoadExperiences.ClassifyCompanies | src/components/experiences/loadExperiencesConfig.ts:45-56 | a falsy root or a non-list `companies` gives "Invalid config format: companies is required"; a list whose every element has the shape of a company is returned as given (so an empty list too); else a list of refs gives its files; anything else gives the mixed-format message |
| LoadExperiences.LoadCompany | src/components/experiences/loadExperiencesConfig.ts:59-65 | a referenced file is fetched and must have the shape of a company, else "Invalid company file format: <file>"; a failed fetch or a body that does not parse is the error |
| LoadExperiences.LoadCompanies | src/components/experiences/loadExperiencesConfig.ts:58-67 | accepted exactly when every company file loads; the companies in index order; the first failing one decides the error |
| LoadExperiences.LoadIndex | src/components/experiences/loadExperiencesConfig.ts:42-43 | a failed index fetch or an index that does not parse is the error; otherwise the classification of the parsed index |
| LoadExperiences.LoadExperiencesConfig | src/components/experiences/loadExperiencesConfig.ts:41-70 | the index is requested first; every returned company has the shape of one; inline companies are returned as given; references are loaded in order, and exactly their resolved URLs are requested |
| LoadExperiences.RefPathsUnchecked | src/components/experiences/loadExperiencesConfig.ts:54-60 | a reference outside the data directory ("../secret.yml") is accepted and fetched as written |
| Fetching.FetchText | src/components/documents/resumeDataLoader.ts:21-28 | the body exactly when the response is ok; otherwise "Failed to fetch: <url> (<status>)" |
| ResumeDataLoader.IsIntroBaseInfoArray | src/components/documents/resumeDataLoader.ts:38-51 | a list whose every row is an object with `name`, `pronounce` and `gender` absent or strings and `birth` absent, a string or a date |
| ResumeDataLoader.IsIntroYaml | src/components/documents/resumeDataLoader.ts:53-77 | an object whose `intro` is absent, or an object whose `base_info`, `email`, `core_strengths`, `curious_fields` and `skills` lists are absent or well typed |
| ResumeDataLoader.IsRecordListYaml | src/components/documents/resumeDataLoader.ts:79-87 | an object whose list (`history`, `projects`) is absent or a list of objects |
| ResumeDataLoader.IsCertificationsYaml | src/components/documents/resumeDataLoader.ts:89-106 | an object whose `certifications` is absent or a list of objects with `name` and `DateOfQualification` absent or strings |
| ResumeDataLoader.IsListYaml | src/components/documents/resumeDataLoader.ts:118-130 | an object whose list (`links`, `companies`) is absent or a list |
| ResumeDataLoader.Guarded | src/components/documents/resumeDataLoader.ts:199-203 | a parsed file the shape check accepts is kept as parsed; a refused one becomes null |
| ResumeDataLoader.BaseInfo | src/components/documents/resumeDataLoader.ts:225 | the first `base_info` row, or an empty record when it is missing or null |
| ResumeDataLoader.SkillsRecord | src/components/documents/resumeDataLoader.ts:226-227 | the `skills` node when it is an object, null otherwise |
| ResumeDataLoader.ToRecords | src/components/documents/resumeDataLoader.ts:132-151 | a non-list gives no items; an element is in the result exactly when it is an object of the list; a list of objects is kept whole |
| ResumeDataLoader.ToRecordsConcat | src/components/documents/resumeDataLoader.ts:132-137 | the filter works element by element, so order is kept: the result for two joined lists is the two results joined |
| ResumeDataLoader.ToRecordsSingle | src/components/documents/resumeDataLoader.ts:30-32 | one element is kept exactly when it is an object |
| ResumeDataLoader.ToStringArray | src/components/documents/resumeDataLoader.ts:172-178 | a non-list gives no strings; a list gives its elements' `normalizeText` forms in order with the empty ones dropped; no result is empty; a list of non-empty strings is kept whole |
| ResumeDataLoader.ToStringArrayConcat | src/components/documents/resumeDataLoader.ts:177 | the conversion works element by element: the result for two joined lists is the two results joined |
| ResumeDataLoader.ToStringArraySingle | src/components/documents/resumeDataLoader.ts:177 | one element gives its `normalizeText` form, or nothing when that is empty |
| ResumeDataLoader.NormalizeStrings | src/components/documents/resumeDataLoader.ts:177 | normalising a list of strings gives back the strings themselves |
| ResumeDataLoader.ToStringArrayOfStrings | src/components/documents/resumeDataLoader.ts:177 | on a list of strings, the result is exactly its non-empty strings in order |
| ResumeDataLoader.LoadLinkByKey | src/components/documents/resumeDataLoader.ts:157-170 | no `links` list or no block with a list under the key gives ""; otherwise the first such block decides, through the `link` string of its first item |
| ResumeDataLoader.FirstBlockWins | src/components/documents/resumeDataLoader.ts:163-167 | an earlier block with an empty list under the key gives "", even when a later block has a link |
| ResumeDataLoader.FileRefs | src/components/documents/resumeDataLoader.ts:210-211 | every result is the string `file` of some entry; when every entry has one they are all kept in order; when none has one the result is empty |
| ResumeDataLoader.FileRefsAsMapFilter | src/components/documents/resumeDataLoader.ts:210-211 | the entry-by-entry list of files equals the source's two passes: every entry's `file`, then only the strings, order kept |
| ResumeDataLoader.ExperienceFiles | src/components/documents/resumeDataLoader.ts:208-212 | an index without a `companies` list gives no files; a list gives the string `file` values of its entries, in order, as the map-then-filter computes them |
| ResumeDataLoader.LoadCompanyFile | src/components/documents/resumeDataLoader.ts:215-219 | the file is fetched at the base followed by the file as written; a failed fetch or parse is the error; an object is kept and anything else becomes `{}` |
| ResumeDataLoader.LoadCompanyFiles | src/components/documents/resumeDataLoader.ts:214-220 | accepted exactly when every company file loads; the companies in index order, each an object; the first failing file decides the error |
| ResumeDataLoader.AbstractPath | src/components/documents/resumeDataLoader.ts:222 | the `abstract_mdFilePath` of the first company with a truthy name; undefined when no company has one |
| ResumeDataLoader.LoadAbstract | src/components/documents/resumeDataLoader.ts:222-223 | a falsy path gives "" and fetches nothing; a truthy one is fetched at the base followed by the path |
| ResumeDataLoader.Assemble | src/components/documents/resumeDataLoader.ts:225-255 | the timeline, certifications and projects are the objects of the kept files' lists; the GitHub URL is the header's first `github` link; the email is the intro's normalised email; the five string lists are `toStringArray` of the intro's and its skills' lists; the list fields hold only objects and the string lists no empty string; the experiences, abstract, self-PR text and portfolio URL are passed through; a null intro leaves every intro field empty |
| ResumeDataLoader.DataUrls | src/components/documents/resumeDataLoader.ts:183-190 | the eight URLs are the base followed by each of the eight data and template paths, in order |
| ResumeDataLoader.FetchAll | src/components/documents/resumeDataLoader.ts:181-191 | accepted exactly when every fetch is ok; the bodies in order; the first failing URL decides the error |
| ResumeDataLoader.ParseAll | src/components/documents/resumeDataLoader.ts:193-197 | accepted exactly when every text parses; the values in order; the first failing parse decides the error |
| ResumeDataLoader.LoadIndex | src/components/documents/resumeDataLoader.ts:205-207 | a failed index fetch or an index that does not parse is the error; otherwise the parsed index, kept only when its `companies` is a list |
| ResumeDataLoader.LoadRest | src/components/documents/resumeDataLoader.ts:205-260 | a success hands over the templates and self-PR text as fetched, exactly the companies the index's files load to, the abstract those companies lead to, and data assembled from the five files each kept or nulled by its shape check; an index error, a company-file error or an abstract-fetch error is the error, in that order; a refused intro leaves name and email empty |
| ResumeDataLoader.LoadResumeData | src/components/documents/resumeDataLoader.ts:180-261 | a failed fetch of any of the eight files is the error; then a failed parse of the five YAML files; when all eight fetch and all five parse, the result is exactly the rest of the load on those texts and values |
| ResumeDataLoader.TemplatesAsFetched | src/components/documents/resumeDataLoader.ts:188-190 | a successful load returns both templates and the self-PR markdown exactly as fetched from their paths |
| ResumeDataLoader.MissingIntroFails | src/components/documents/resumeDataLoader.ts:183 | when intro.yml cannot be fetched the load fails with that fetch's error |
| ResumeDataLoader.NullEmailDropsIntro | src/components/documents/resumeDataLoader.ts:53-77 | a null `email` makes the intro check refuse the whole file, so name, email and the skill lists come out empty |
| ResumeDataLoader.InlineCompaniesIgnored | src/components/documents/resumeDataLoader.ts:208-212 | an index whose entries have no string `file` (companies written inline) yields no company files |
| ResumeDataLoader.RefIndexFollowed | src/components/documents/resumeDataLoader.ts:208-212 | an index of `{file}` entries yields one file per entry, in order |
| ResumeDataLoader.ValidatedCertificationsKept | src/components/documents/resumeDataLoader.ts:89-106 | a certifications file the certification validator accepts, with no null name or date, passes the shape check and is kept whole |
| ResumeDataLoader.NullNameDropsCertifications | src/components/documents/resumeDataLoader.ts:89-106 | a certificate with a null name is accepted by the validator but refused by the shape check, which drops every certificate |
| ResumeDataLoader.AbsentListsAccepted | src/components/documents/resumeDataLoader.ts:79-130 | each shape check accepts a file that leaves its list out (and an intro file without `intro`); the list then reads as empty |
| ResumeDataLoader.ProfileFromFirstBaseInfo | src/components/documents/resumeDataLoader.ts:225-240 | name, pronunciation, birth and gender come from the first `base_info` row: a string as written, a birth date in ISO form, "" when the row or the field is missing |
| CareerBuilder.TextOr | src/components/documents/careerHtmlBuilder.ts:232 | null or undefined gives the fallback; a string is shown as it is |
| CareerBuilder.OrDash | src/components/documents/careerHtmlBuilder.ts:238-239 | never empty; a non-empty text is kept, an empty one becomes "-" |
| CareerBuilder.ListTexts | src/components/documents/careerHtmlBuilder.ts:256-257 | one text per element of `value ?? []` |
| CareerBuilder.FlattenTech | src/components/documents/careerHtmlBuilder.ts:35-48 | no tech or an empty list gives no tags; no tag appears twice; a tag is in the result exactly when some group lists it under os, lang, framework or infra |
| CareerBuilder.FlattenTechOrder | src/components/documents/careerHtmlBuilder.ts:47 | the tags come in the order of their first appearance |
| CareerBuilder.FlattenDistinct | src/components/documents/careerHtmlBuilder.ts:40-47 | tags that are already distinct are returned as listed |
| CareerBuilder.TagNodes | src/components/documents/careerHtmlBuilder.ts:55-70 | an empty list gives one "-" tag; otherwise one `span.tag` per tag, in order |
| CareerBuilder.AppendTagList | src/components/documents/careerHtmlBuilder.ts:50-71 | a missing target is left alone; otherwise its children are replaced by the tag spans |
| CareerBuilder.KeyValueNodes | src/components/documents/careerHtmlBuilder.ts:74-85 | two cells per pair, the key cell then the value cell, pair by pair |
| CareerBuilder.AppendKeyValueRows | src/components/documents/careerHtmlBuilder.ts:73-86 | the target keeps its children and gains the key and value cells of every pair, in order |
| CareerBuilder.ListSectionNodes | src/components/documents/careerHtmlBuilder.ts:89-104 | nothing exactly when there are no items; otherwise an `h3` with the title and a `ul.list` |
| CareerBuilder.AppendListSection | src/components/documents/careerHtmlBuilder.ts:88-105 | the target keeps its children and gains the heading and the list, built item by item |
| CareerBuilder.ProfileRowText | src/components/documents/careerHtmlBuilder.ts:124-143 | a row reads "label: value" with "-" for an empty value; the value is a link exactly when it starts with "http" |
| CareerBuilder.ProfileNodes | src/components/documents/careerHtmlBuilder.ts:117-150 | four rows then the note row `div.row.small` |
| CareerBuilder.SummaryTextShape | src/components/documents/careerHtmlBuilder.ts:164 | the summary is trimmed; when the abstract has a non-blank paragraph it is a non-empty one of them; otherwise it is the converted self-PR, without backticks or triple newlines |
| CareerBuilder.SummaryFromBlocks | src/components/documents/careerHtmlBuilder.ts:164 | the summary is the earliest block of the converted abstract, between blank lines, that is not blank once trimmed, trimmed; when every block is blank it is the converted self-PR |
| CareerBuilder.SummaryText | src/components/documents/careerHtmlBuilder.ts:164 | the first paragraph of the abstract, or the converted self-PR when the abstract has none |
| CareerBuilder.AreaSource | src/components/documents/careerHtmlBuilder.ts:170-175 | the core strengths when there are any, else the fields of interest, else the three defaults |
| CareerBuilder.Areas | src/components/documents/careerHtmlBuilder.ts:177 | the first six entries of that list |
| CareerBuilder.AreasShape | src/components/documents/careerHtmlBuilder.ts:168-183 | between one and six areas, the leading entries of the core strengths, else of the fields of interest, else the three defaults |
| CareerBuilder.Learnings | src/components/documents/careerHtmlBuilder.ts:189-192 | an explicit learning list is used as it is |
| CareerBuilder.LearningsFromProjects | src/components/documents/careerHtmlBuilder.ts:189-192 | without an explicit list: at most eight distinct tags, all from the projects' tech, and every one of them when there are no more than eight |
| CareerBuilder.RoleText | src/components/documents/careerHtmlBuilder.ts:238 | the role line is never empty |
| CareerBuilder.FirstNonEmpty | src/components/documents/careerHtmlBuilder.ts:239 | the first non-empty of two trimmed texts, else "-"; never empty |
| CareerBuilder.OutcomeText | src/components/documents/careerHtmlBuilder.ts:239 | the trimmed result, else the trimmed summary, else "-" |
| CareerBuilder.ExperienceProjectItem | src/components/documents/careerHtmlBuilder.ts:226-228 | an `article.project-item` |
| CareerBuilder.ExperienceProjectItemShape | src/components/documents/careerHtmlBuilder.ts:226-260 | the item shows the title or "-", then a key/value block of six cells whose values are the role line and the outcome; the effort and issue-solving sections appear exactly when either list is non-empty |
| CareerBuilder.CompanyGroup | src/components/documents/careerHtmlBuilder.ts:262-298 | an `article.company-group` of a head and a `company-projects` block holding one item per project, in order |
| CareerBuilder.RepoLine | src/components/documents/careerHtmlBuilder.ts:331-342 | reads "GitHub: " then the repository URL when it is truthy, else "-" |
| CareerBuilder.ProjectArticle | src/components/documents/careerHtmlBuilder.ts:311-313 | an `article.job` |
| CareerBuilder.ProjectArticleShape | src/components/documents/careerHtmlBuilder.ts:311-372 | the head shows the repository line; the key/value block shows the trimmed abstract and the efforts joined by " / ", each or "-", then the flattened tech tags; the main-function section appears exactly when listed |
| CareerBuilder.RebuiltSectionIdempotent | src/components/documents/careerHtmlBuilder.ts:306-308 | removing the old entries and appending new ones, twice, is the same as once, when the new ones would be removed |
| CareerBuilder.AddedAreRemoved | src/components/documents/careerHtmlBuilder.ts:306-308 | every new company group carries `company-group` and every new article `job`, so a later rebuild removes them |
| CareerBuilder.TrimmedLines | src/components/documents/careerHtmlBuilder.ts:393-395 | every line is trimmed |
| CareerBuilder.PrLines | src/components/documents/careerHtmlBuilder.ts:393-396 | every line is trimmed and non-empty |
| CareerBuilder.StripGlyph | src/components/documents/careerHtmlBuilder.ts:404 | the result is trimmed; a bullet line loses its "・" and the whitespace around the rest |
| CareerBuilder.PrNode | src/components/documents/careerHtmlBuilder.ts:392-414 | a `ul` exactly when every line of the block is a bullet, with one item per line; otherwise a `p` whose text is the block |
| CareerBuilder.BulletItemText | src/components/documents/careerHtmlBuilder.ts:403-404 | a bullet item shows its line without the "・" and the whitespace around the rest |
| CareerBuilder.CareerDocument.constructor | src/components/documents/careerHtmlBuilder.ts:107-112 | the document is titled "職務経歴書.html" and holds the template's elements |
| CareerBuilder.CareerDocument.FillHeader | src/components/documents/careerHtmlBuilder.ts:114-159 | `.profile`, when present, holds the profile rows and note; the title's `time`, when present, carries today's UTC date; nothing else changes |
| CareerBuilder.CareerDocument.FillSummary | src/components/documents/careerHtmlBuilder.ts:161-194 | the summary paragraph and the area list are written when present; the three tag lists hold the work, personal and learning tags; nothing else changes |
| CareerBuilder.CareerDocument.FillExperience | src/components/documents/careerHtmlBuilder.ts:300-309 | `#experience`, when present, loses its company-group children (class exactly `company-group`) one by one and gains one group per company, in order |
| CareerBuilder.CareerDocument.FillProjects | src/components/documents/careerHtmlBuilder.ts:374-383 | `#projects`, when present, loses its `.job` children (class exactly `job`) and gains one article per project, in order |
| CareerBuilder.CareerDocument.FillPr | src/components/documents/careerHtmlBuilder.ts:385-417 | `#pr .card`, when present, holds one node per paragraph of the self-PR |
| CareerBuilder.CareerDocument.Build | src/components/documents/careerHtmlBuilder.ts:419-428 | the five sections are filled in order; the title is set; the tag lists hold their tags |
| CareerBuilder.FilledStable | src/components/documents/careerHtmlBuilder.ts:300-417 | writing the same contents a second time changes nothing |
| CareerBuilder.BuildStable | src/components/documents/careerHtmlBuilder.ts:419-428 | building an already built document again with the same data and date gives the same document |
| ResumeBuilder.MonthDigits | src/components/documents/resumeHtmlBuilder.ts:23 | the month group is one or two digits, and two exactly when a second digit follows |
| ResumeBuilder.ParseYearMonthText | src/components/documents/resumeHtmlBuilder.ts:23-31 | a match exactly when the text starts with four digits, one of ".", "/", "-" and a digit |
| ResumeBuilder.ParseYearMonth | src/components/documents/resumeHtmlBuilder.ts:17-32 | a year and month exactly when the trimmed text has that shape; blank text gives none |
| ResumeBuilder.YearMonthTextRoundTrip | src/components/documents/resumeHtmlBuilder.ts:23-31 | a padded year, a separator and a month, followed by anything that does not continue the month, read back as that year and month |
| ResumeBuilder.TrimmedTextOfString | src/components/documents/resumeHtmlBuilder.ts:18 | a string starting with a digit and not ending in whitespace is unchanged by trimming |
| ResumeBuilder.YearMonthTextEnds | src/components/documents/resumeHtmlBuilder.ts:18 | such a year-month text starts with a digit and does not end in whitespace |
| ResumeBuilder.YearMonthRoundTrip | src/components/documents/resumeHtmlBuilder.ts:17-32 | the same round trip, for a string value |
| ResumeBuilder.DateYearMonth | src/components/documents/resumeHtmlBuilder.ts:10-11 | a YAML date reads back as its own year and month |
| ResumeBuilder.IsoDateParts | src/components/documents/resumeHtmlBuilder.ts:11 | the ISO rendering is the padded year, "-", the padded month, then a trimmed "-DD" |
| ResumeBuilder.DateText | src/components/documents/resumeHtmlBuilder.ts:5-15 | a date and the string of its ISO form read the same |
| ResumeBuilder.FormatYearMonth | src/components/documents/resumeHtmlBuilder.ts:34-41 | "<year>年<month>月" when a year and month are read; the trimmed text otherwise |
| ResumeBuilder.FormatDate | src/components/documents/resumeHtmlBuilder.ts:34-41 | a YAML date shows as its year and month without leading zeros |
| ResumeBuilder.ToInputDate | src/components/documents/resumeHtmlBuilder.ts:48-59 | a blank or invalid birth date gives ""; a valid one "<y>年<m>月<d>日" |
| ResumeBuilder.FullYears | src/components/documents/resumeHtmlBuilder.ts:72-79 | the age is the count of birthdays reached by today, and the next one is not |
| ResumeBuilder.FullYearsUnique | src/components/documents/resumeHtmlBuilder.ts:72-79 | no other count has that property |
| ResumeBuilder.AgeText | src/components/documents/resumeHtmlBuilder.ts:61-82 | a blank or invalid birth date gives ""; a valid one the decimal text of the full years up to today |
| ResumeBuilder.CalcAge | src/components/documents/resumeHtmlBuilder.ts:61-82 | blank or invalid birth gives ""; otherwise the decimal text of the full years up to today |
| ResumeBuilder.HasTag | src/components/documents/resumeHtmlBuilder.ts:186 | a list of tags holds the tag; a string of tags contains it |
| ResumeBuilder.IsEducation | src/components/documents/resumeHtmlBuilder.ts:186 | the entry is tagged `education` |
| ResumeBuilder.IsWork | src/components/documents/resumeHtmlBuilder.ts:193 | the entry is tagged `work` or `now` |
| ResumeBuilder.TimelineRows | src/components/documents/resumeHtmlBuilder.ts:185-195 | every row has a non-empty trimmed title |
| ResumeBuilder.TimelineRowsConcat | src/components/documents/resumeHtmlBuilder.ts:185-195 | the rows of a joined history are the rows of each part, in order |
| ResumeBuilder.TimelineRowsSingle | src/components/documents/resumeHtmlBuilder.ts:185-195 | one entry gives its row exactly when it carries the tag and its title is not blank |
| ResumeBuilder.PartsOfPair | src/components/documents/resumeHtmlBuilder.ts:142 | joining the non-blank of two texts with a space leaves out the blank one |
| ResumeBuilder.CertificationContent | src/components/documents/resumeHtmlBuilder.ts:138-149 | blank when name and result label are both blank; otherwise the non-blank of them joined by a space, then "（org）" when the organisation is known |
| ResumeBuilder.CertRows | src/components/documents/resumeHtmlBuilder.ts:199-202 | every certification row has content |
| ResumeBuilder.CertificationOrder | src/components/documents/resumeHtmlBuilder.ts:199-200 | the certifications are sorted by date text, each kept once, and ones with the same date text stay in data order |
| ResumeBuilder.RebuiltRows | src/components/documents/resumeHtmlBuilder.ts:98-128 | a table without rows is left alone; otherwise the header row, one row per entry, and the closing row when asked for |
| ResumeBuilder.RebuiltRowsIdempotent | src/components/documents/resumeHtmlBuilder.ts:104-127 | replacing the rows twice with the same entries is replacing them once |
| ResumeBuilder.ReplaceTableRows | src/components/documents/resumeHtmlBuilder.ts:98-128 | a missing table is left alone; otherwise its rows become the rebuilt rows, the old rows removed one by one |
| ResumeBuilder.CellTexts | src/components/documents/resumeHtmlBuilder.ts:156-223 | the photo cell is written exactly when the form has a photo |
| ResumeBuilder.Updated | src/components/documents/resumeHtmlBuilder.ts:130-136 | the same cells; a cell with a new text gets it, the others keep theirs |
| ResumeBuilder.UpdatedIdempotent | src/components/documents/resumeHtmlBuilder.ts:130-136 | setting the same texts twice is setting them once |
| ResumeBuilder.ResumeDocument.constructor | src/components/documents/resumeHtmlBuilder.ts:152-153 | the document holds the template's title, cells and tables |
| ResumeBuilder.ResumeDocument.Build | src/components/documents/resumeHtmlBuilder.ts:151-226 | the title is "履歴書.html"; every present cell gets its text; the education, work and certification tables get their rows, the work table with the closing row; the whole new state is the built state of the old one (`BuiltState`) |
| ResumeBuilder.RebuildStable | src/components/documents/resumeHtmlBuilder.ts:151-226 | a second build with the same data leaves exactly the state the first build left: the same title, cells and table rows |
| ResumeBuilder.BuiltWithIdempotent | src/components/documents/resumeHtmlBuilder.ts:98-136 | writing the same cell texts and table rows twice leaves what writing them once leaves |
| ResumeBuilder.ResumeDocument.Write | src/components/documents/resumeHtmlBuilder.ts:155-197 | the title is set, the cells updated and each present table's rows rebuilt, the work table with the closing row; the whole new state is that written state |
| ResumeBuilder.FormatTodayJa | src/components/documents/resumeHtmlBuilder.ts:43-46 | "<y>年<m>月<d>日現在" for today |
| ResumeBuilder.TodayAsInputDate | src/components/documents/resumeHtmlBuilder.ts:43-46 | the date line shows today as the birth cell shows a birth date, followed by "現在" |
| Yaml.Get | src/components/documents/resumeDataLoader.ts:225-231 | reading a property of anything but a mapping yields undefined |
| Yaml.MapEntries | src/util/headerSchema.ts:27-44 | every entry is a key of the mapping with its value |
| Yaml.StringList | src/components/documents/resumeDataLoader.ts:34-36 | a list built from strings is a string array holding those strings |
| Yaml.StringListOfStrings | src/components/documents/resumeDataLoader.ts:34-36 | a string array rebuilt from its strings is the same list |
| Yaml.IsoDateRoundTrip | src/components/documents/resumeDataLoader.ts:14-15 | the ISO date text of a valid date is ten characters and reads back as the same date |
| Yaml.NormalizeText | src/components/documents/resumeDataLoader.ts:9-19 | null and undefined give ""; a string is itself; a number its decimal text; a date its ISO "YYYY-MM-DD" |
| Yaml.TrimmedText | src/components/documents/careerHtmlBuilder.ts:239 | `normalizeText(value).trim()` has no whitespace at either end |
| Text.Trim | src/components/documents/careerHtmlBuilder.ts:25 | `.trim()`: the result is no longer than the text, has no whitespace at either end, and is empty exactly when the text is all whitespace |
| Text.TrimInfix | src/components/documents/careerHtmlBuilder.ts:25 | the trimmed text is a contiguous piece of the text |
| Text.TrimIdempotent | src/components/documents/careerHtmlBuilder.ts:31 | trimming twice is trimming once |
| Text.TrimOfTrimmed | src/components/documents/careerHtmlBuilder.ts:31 | a text without whitespace at its ends is its own trim |
| Text.ContainsAt | src/components/documents/resumeHtmlBuilder.ts:186 | `includes` on a string holds exactly when the part occurs at some index |
| Text.NatToString | src/components/documents/resumeHtmlBuilder.ts:40 | `String(n)`: non-empty digits, no leading zero, and reads back as n |
| Text.IntToString | src/components/documents/resumeHtmlBuilder.ts:81 | `String(i)`: the digits of the magnitude, after "-" when negative |
| Text.PadNat | src/components/documents/resumeDataLoader.ts:15 | the zero-padded number reads back as itself and is as wide as asked or as its digits |
| Text.PadNatShort | src/components/documents/resumeDataLoader.ts:15 | a number below 10 to the width is padded to exactly the width |
| Text.Split | src/components/documents/careerHtmlBuilder.ts:394 | `split('\n')`: at least one piece, none holding the separator, and joining them with it gives the text back |
| Seqs.Map | src/components/documents/careerHtmlBuilder.ts:306 | `map`: one result per element, each the function of that element |
| Seqs.Filter | src/components/documents/resumeHtmlBuilder.ts:186-188 | `filter`: no longer than the list, and every kept element passes |
| Seqs.FilterMembers | src/components/documents/resumeHtmlBuilder.ts:186-188 | an element is kept exactly when it is in the list and passes |
| Seqs.FilterConcat | src/components/documents/resumeHtmlBuilder.ts:186-188 | filtering a joined list is filtering each part, so the order is kept |
| Seqs.FilterAll | src/components/documents/resumeHtmlBuilder.ts:186-188 | filtering keeps the whole list exactly when every element passes |
| Seqs.Take | src/components/documents/careerHtmlBuilder.ts:177 | `slice(0, n)`: the first n elements, or all of them when there are fewer |
| Seqs.FlatMap | src/components/documents/careerHtmlBuilder.ts:40-45 | `flatMap`: every element of every part is in the result |
| Seqs.FlatMapConcat | src/components/documents/careerHtmlBuilder.ts:40-45 | flat-mapping a joined list is flat-mapping each part |
| Seqs.FindIndex | src/components/documents/resumeDataLoader.ts:163 | `find`: the first element that passes, and none exactly when no element passes |
| Seqs.FindIndexIsFirst | src/components/documents/resumeDataLoader.ts:222 | the first passing index is the one found |
| Seqs.Dedup | src/components/documents/careerHtmlBuilder.ts:47 | `Array.from(new Set(xs))`: no duplicates, nothing new and nothing lost |
| Seqs.DedupFirstSeenOrder | src/components/documents/careerHtmlBuilder.ts:47 | the elements come in the order of their first appearance |
| Seqs.DedupOfDistinct | src/components/documents/careerHtmlBuilder.ts:47 | a list without duplicates is kept as it is |
| Seqs.Traverse | src/components/experiences/loadExperiencesConfig.ts:58-67 | `Promise.all` over a map: accepted exactly when every element succeeds, the results in order, and the first failure in index order decides the error |
| Seqs.TraverseFailsAtFirst | src/components/experiences/loadExperiencesConfig.ts:58-67 | a failed traversal fails with the error of its first failing element |
| Sorting.StrLeqTotal | src/components/documents/resumeHtmlBuilder.ts:200 | any two date texts are ordered one way or the other |
| Sorting.StrLeqTrans | src/components/documents/resumeHtmlBuilder.ts:200 | the order is transitive |
| Sorting.StrLeqAntisym | src/components/documents/resumeHtmlBuilder.ts:200 | texts ordered both ways are equal |
| Sorting.SortBy | src/components/documents/resumeHtmlBuilder.ts:199-200 | sorting a copy keeps its length and its elements (a permutation) |
| Sorting.SortBySorted | src/components/documents/resumeHtmlBuilder.ts:199-200 | the copy is sorted by the key |
| Sorting.SortByStable | src/components/documents/resumeHtmlBuilder.ts:199-200 | elements with equal keys keep their input order |
| Sorting.InsertSorted | src/components/documents/resumeHtmlBuilder.ts:200 | inserting into a sorted list keeps it sorted |
| Sorting.InsertStable | src/components/documents/resumeHtmlBuilder.ts:200 | the inserted element follows every element with the same key |
| Dom.TextElem | src/components/documents/careerHtmlBuilder.ts:93-94 | the created element has its tag and class, and its text is the given text |
| Dom.RemoveMatching | src/components/documents/careerHtmlBuilder.ts:307 | removing the matching children one at a time leaves exactly the others, in order |
| Markdown.SpaceRun | src/components/documents/careerHtmlBuilder.ts:20 | the leading whitespace run: every character in it is whitespace and the next is not |
| Markdown.FindFence | src/components/documents/careerHtmlBuilder.ts:19 | the first "```" at or after the start, or none when there is no later fence |
| Markdown.StripFences | src/components/documents/careerHtmlBuilder.ts:19 | the fenced blocks are removed, so the text does not grow; a text without a fence is unchanged |
| Markdown.HashRun | src/components/documents/careerHtmlBuilder.ts:20 | one to six leading "#" characters are taken when the line starts with "#" |
| Markdown.StripHeadings | src/components/documents/careerHtmlBuilder.ts:20 | heading markers are removed, so the text does not grow; a text without "#" is unchanged |
| Markdown.BulletEnd | src/components/documents/careerHtmlBuilder.ts:21 | a bullet marker takes at least the marker character and one whitespace |
| Markdown.LinkAt | src/components/documents/careerHtmlBuilder.ts:22 | a link `[text](target)` found at the start has a closing bracket and parenthesis in order |
| Markdown.RemoveBackticks | src/components/documents/careerHtmlBuilder.ts:23 | no backtick is left |
| Markdown.CollapseNewlines | src/components/documents/careerHtmlBuilder.ts:24 | no run of three newlines is left, and no backtick is added |
| Markdown.MarkdownToText | src/components/documents/careerHtmlBuilder.ts:17-26 | the converted text has no backtick, no three newlines in a row, and no whitespace at its ends |
| Markdown.BlankLineEnd | src/components/documents/careerHtmlBuilder.ts:30 | a blank-line separator starts with a newline and takes at least two characters |
| Markdown.SplitBlankLines | src/components/documents/careerHtmlBuilder.ts:30 | at least one piece; a text without a newline is one piece |
| Markdown.SplitParagraphs | src/components/documents/careerHtmlBuilder.ts:28-33 | every paragraph is non-empty and trimmed |
| Markdown.SingleLineParagraph | src/components/documents/careerHtmlBuilder.ts:28-33 | a converted text without a line break is one paragraph, or none when it is empty |

## Left out

- Network I/O: `fetch` is a parameter, a function from URL to response. Its `text()` body is the response body.
- Promise.all: concurrent requests are modelled in index order. The first failing element decides the error, where JavaScript rejects with the first failure in time.
- YAML parsing (`js-yaml`) is a parameter. Parsed values hold integers only: floating-point numbers, and their `String(...)` forms, are not modelled.
- HTML parsing (`DOMParser`) is not modelled: a template is given as the elements the builders fill. The serialisation of the result (`'<!doctype html>' + outerHTML`) is not modelled either.
- CareerBuilder.CareerDocument.FillExperience, CareerBuilder.CareerDocument.FillProjects: the removal of `.company-group` and `.job` elements looks only at the section's direct children, and only at children whose whole `class` attribute is that one class. The source's `querySelectorAll` also removes descendants at any depth, and elements whose class list merely contains the class (`class="job featured"`). A template that nests such elements, or gives them further classes, keeps them in the model.
- Yaml.YMap: the model does not require a mapping's key list to be free of duplicates or to match its field map's keys; the parser parameter is trusted to produce them consistently. Its entries are listed in document order, where `Object.entries` puts integer-like keys first. This changes only which entry's error `HeaderSchema.ParseLinkBlock` reports first when a header block has integer-like keys.
- CSS selectors are not modelled. `querySelector` and `querySelectorAll` become the named fields of the document classes. A template is assumed to have at most one element for each selector. Filled elements are assumed not to nest inside each other's replaced children.
- Styles (`white-space: pre-wrap`, the photo's size and fit), the photo `img` element's attributes, `target="_blank"`, and the URL resolution of `href` are not modelled. A link is its `href` text.
- Elements created by the builders are values (`Dom.Node`), not objects: object identity and attaching one element twice are not modelled.
- Clocks: today's date is a parameter, the UTC date for the career history's time stamp and the local date for the résumé. Local time zones are not modelled.
- `new Date(text)`: parsing a birth date is a parameter that returns a calendar date or nothing.
- `String(date)` is rendered in ISO form ("2024-01-01") wherever a date is turned into text outside `normalizeText`, where JavaScript uses `Date.prototype.toString` ("Mon Jan 01 2024 …"). This covers a date nested inside a list, and a date-valued `title`, `name`, `period` or `repos_url` written by `CareerBuilder.TextOr` and `CareerBuilder.RepoLine`. It also covers a date-valued `abstract_mdFilePath` in `ResumeDataLoader.LoadAbstract`, which the source would fetch at a different URL. `normalizeText` itself does give the ISO day, as modelled.
- `localeCompare` is modelled as code-point lexicographic order. Locale collation is not modelled.
- `Array.from(new Set(...))` deduplicates the tag strings as values, as JavaScript does for strings. The model turns every tag into text before deduplicating, so a tech list holding the number `1` and the string `"1"` gives one tag, where the source's `Set` keeps both.
- TypeError paths are read as empty. Where the source would throw and fail the whole build, the model carries on:
- ResumeBuilder.HasTag: a timeline entry whose `tags` is a number, boolean, date or mapping is read as having no tags, so it is skipped. The source's `item.tags?.includes(...)` throws on such a value, and the loader does not check `tags`. A list is searched for the tag and a string for the substring, as `includes` does.
- CareerBuilder.FlattenTech: a personal project's `tech` that is present but not a list is read as no tags, where `tech.flatMap` throws. The same holds for a group's `os`, `lang`, `framework` or `infra` that is neither a list nor a string, where spreading it throws. A string is spread into its characters, as the source does.
- CareerBuilder renders scalar fields (`title`, `name`, `period`, `result`, `summary`, `abstract`, `repos_url`) of any type as JavaScript's `String(...)` or `normalizeText` does, except that a date-valued `title`, `name`, `period` or `repos_url` is written in ISO form (see the `String(date)` line); `result`, `summary` and `abstract` go through `normalizeText`, which gives the ISO day in the source too. List fields (`role`, `effort`, `issue_solving`, `main_function`, `projects`, and `tech.os`, `tech.lang` and `tech.infra` in a company project's tech row) read a value that is not a list as an empty list, where JavaScript would throw a TypeError.
- The portfolio URL, derived from `window.location` in the source, is a parameter of `ResumeDataLoader.LoadResumeData`.
- The React form component and the download helpers of the site are not part of this model, nor the validators' type declarations.
- CareerBuilder.ExperienceProjectItem: the contract states only the item's tag and class. Its title, role, outcome and sections are stated by `CareerBuilder.ExperienceProjectItemShape`.
- CareerBuilder.ProjectArticle: the contract states only the article's tag and class. Its head, key/value rows, tech tags and sections are stated by `CareerBuilder.ProjectArticleShape`.
- ResumeBuilder.CellTexts: the contract states only when the photo cell is written. The other cell texts are given by its definition.
