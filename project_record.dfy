/** The project record as the dashboard pages read it from `/api/projects`, and
    the body the pages send when they create or update one. */
module ProjectRecord {
  import opened Common
  import opened JsValue

  datatype Project = Project(
    id: int,
    name: string,
    drugName: Option<string>,
    concentration: Option<string>,
    description: Option<string>,
    result: Option<string>,
    createdAt: string)

  /** The JSON body of a create (POST) or update (PUT) request. */
  datatype ProjectBody = ProjectBody(
    name: string,
    drugName: Option<string>,
    concentration: Option<string>,
    description: Option<string>,
    result: Option<string>)

  /** What `res.json()` gave on a list request: an array of projects, some
      other JSON value, or nothing because the request or the parse failed. */
  datatype FetchResponse = JsonArray(items: seq<Project>) | JsonOther(body: Value) | FetchFailed

  /** The four text inputs of a project form. */
  datatype Form = Form(name: string, drug: string, conc: string, desc: string)

  const EmptyForm := Form("", "", "", "")

  /** How a save or delete request ended: `res.ok`, a response that is not ok,
      or a thrown fetch. */
  datatype SaveOutcome = SaveOk | SaveRejected | SaveThrew

  /** `s || null` for a form field. */
  function NullIfEmpty(s: string): (r: Option<string>)
    ensures r.None? <==> s == ""
    ensures r.Some? ==> r.value == s
  {
    if s == "" then None else Some(s)
  }

  /** `s || ""` for a nullable field shown in an input. */
  function OrEmpty(s: Option<string>): (r: string)
    ensures s.Some? ==> r == s.value
    ensures s.None? ==> r == ""
  {
    if s.Some? then s.value else ""
  }

  /** A nullable field read into an input and written back with `|| null`
      comes back unchanged, except that an empty string becomes null. */
  lemma NullIfEmptyOrEmpty(s: Option<string>)
    ensures s != Some("") ==> NullIfEmpty(OrEmpty(s)) == s
    ensures s == Some("") ==> NullIfEmpty(OrEmpty(s)) == None
  {
  }

  /** The JSON body of a POST or PUT: the name as a string, and each optional
      field as its string or null. */
  function BodyJson(b: ProjectBody): (v: Value)
    ensures v.Obj? && v.fields.Keys == {"name", "drugName", "concentration", "description", "result"}
    ensures OptGet(v, "name") == Str(b.name)
    ensures OptGet(v, "drugName") == (if b.drugName.Some? then Str(b.drugName.value) else Null)
    ensures OptGet(v, "concentration") == (if b.concentration.Some? then Str(b.concentration.value) else Null)
    ensures OptGet(v, "description") == (if b.description.Some? then Str(b.description.value) else Null)
    ensures OptGet(v, "result") == (if b.result.Some? then Str(b.result.value) else Null)
  {
    Obj(map["name" := Str(b.name),
            "drugName" := StrOrNull(b.drugName),
            "concentration" := StrOrNull(b.concentration),
            "description" := StrOrNull(b.description),
            "result" := StrOrNull(b.result)])
  }
}
