/** The certifications validator: four optional strings per certificate,
    every other key dropped. */
module CertificationSchema {
  import opened Wrappers
  import opened Text
  import opened Seqs
  import opened Yaml
  import opened Fields

  datatype Certification = Certification(
    id: Option<string>,
    name: Option<string>,
    svgPath: Option<string>,
    dateOfQualification: Option<string>)

  predicate CertificationAccepts(v: Yaml) {
    IsRecord(v) && OptionalFieldOk(v, "id") && OptionalFieldOk(v, "name")
    && OptionalFieldOk(v, "svg_path") && OptionalFieldOk(v, "DateOfQualification")
  }

  function ParseCertification(v: Yaml, path: string): (r: Result<Certification>)
    ensures !IsRecord(v) ==> r == Err(path + " must be an object")
    ensures r.Ok? <==> CertificationAccepts(v)
    ensures r.Ok? ==>
              && OptionalFieldIs(v, "id", r.value.id)
              && OptionalFieldIs(v, "name", r.value.name)
              && OptionalFieldIs(v, "svg_path", r.value.svgPath)
              && OptionalFieldIs(v, "DateOfQualification", r.value.dateOfQualification)
  {
    if !IsRecord(v) then Err(path + " must be an object")
    else
      var id :- OptionalString(Get(v, "id"), path + ".id");
      var name :- OptionalString(Get(v, "name"), path + ".name");
      var svgPath :- OptionalString(Get(v, "svg_path"), path + ".svg_path");
      var date :- OptionalString(Get(v, "DateOfQualification"), path + ".DateOfQualification");
      OptionalStringReads(v, "id", path + ".id");
      OptionalStringReads(v, "name", path + ".name");
      OptionalStringReads(v, "svg_path", path + ".svg_path");
      OptionalStringReads(v, "DateOfQualification", path + ".DateOfQualification");
      Ok(Certification(id, name, svgPath, date))
  }

  /** Keys other than the four are ignored: adding one to a certificate
      record leaves its validation unchanged. */
  lemma CertificationIgnoresOtherKeys(keys: seq<string>, fields: map<string, Yaml>, key: string, extra: Yaml, path: string)
    requires key !in {"id", "name", "svg_path", "DateOfQualification"}
    ensures ParseCertification(YMap(keys + [key], fields[key := extra]), path) == ParseCertification(YMap(keys, fields), path)
  {
    var v, w := YMap(keys, fields), YMap(keys + [key], fields[key := extra]);
    assert Get(w, "id") == Get(v, "id") && Get(w, "name") == Get(v, "name");
    assert Get(w, "svg_path") == Get(v, "svg_path");
    assert Get(w, "DateOfQualification") == Get(v, "DateOfQualification");
  }

  function CertificationPath(source: string, i: nat): string {
    "[" + source + "] certifications" + Index(i)
  }

  /** A certifications file; here the `certifications` list is required. */
  function ParseCertificationsYaml(v: Yaml, source: string): (r: Result<seq<Certification>>)
    ensures !IsRecord(v) ==> r == Err("[" + source + "] root must be an object")
    ensures IsRecord(v) && !Get(v, "certifications").YList? ==>
              r == Err("[" + source + "] certifications is required and must be an array")
    ensures IsRecord(v) && Get(v, "certifications").YList? ==>
              (r.Ok? <==> forall i :: 0 <= i < |Get(v, "certifications").items| ==>
                            CertificationAccepts(Get(v, "certifications").items[i]))
    ensures r.Ok? ==>
              var items := Get(v, "certifications").items;
              |r.value| == |items|
              && forall i :: 0 <= i < |items| ==> ParseCertification(items[i], CertificationPath(source, i)) == Ok(r.value[i])
  {
    if !IsRecord(v) then Err("[" + source + "] root must be an object")
    else if !Get(v, "certifications").YList? then Err("[" + source + "] certifications is required and must be an array")
    else Traverse(Get(v, "certifications").items, (item, i: nat) => ParseCertification(item, CertificationPath(source, i)))
  }
}
