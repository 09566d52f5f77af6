/** The analysis-history page: the case-insensitive search, reading a stored
    result, the single-project edit state, the update payload, the local
    delete, and the total of the size-distribution bar. */
module History {
  import opened Common
  import opened JsValue
  import opened Text
  import opened ProjectRecord

  // ---------------------------------------------------------------------------
  // Search

  /** Lower-cased name includes the lower-cased query, or the drug name is
      present, not empty, and includes it. */
  predicate Matches(p: Project, query: string)
  {
    || Includes(Lower(p.name), Lower(query))
    || (p.drugName.Some? && p.drugName.value != "" && Includes(Lower(p.drugName.value), Lower(query)))
  }

  /** The `filtered` list: the matching projects in list order. */
  function Search(ps: seq<Project>, query: string): (r: seq<Project>)
    ensures IsSubseq(r, ps)
    ensures forall p :: p in r <==> p in ps && Matches(p, query)
    ensures forall p :: multiset(r)[p] == if Matches(p, query) then multiset(ps)[p] else 0
  {
    FilterSpec(ps, (p: Project) => Matches(p, query));
    Filter(ps, (p: Project) => Matches(p, query))
  }

  /** A project matches exactly when the lower-cased query occurs at some
      position of its lower-cased name or of its non-empty drug name. */
  lemma MatchesIff(p: Project, query: string)
    ensures Matches(p, query) <==>
      || OccursIn(Lower(p.name), Lower(query))
      || (p.drugName.Some? && p.drugName.value != "" && OccursIn(Lower(p.drugName.value), Lower(query)))
  {
    IncludesIff(Lower(p.name), Lower(query));
    if p.drugName.Some? {
      IncludesIff(Lower(p.drugName.value), Lower(query));
    }
  }

  /** An empty search box shows every project. */
  lemma SearchEmptyQuery(ps: seq<Project>)
    ensures Search(ps, "") == ps
  {
    forall p | p in ps ensures Matches(p, "") {
      IncludesEmpty(Lower(p.name));
    }
    FilterKeepsAll(ps, (p: Project) => Matches(p, ""));
  }

  /** The query's case does not matter. */
  lemma SearchIgnoresCase(ps: seq<Project>, query: string)
    ensures Search(ps, query) == Search(ps, Lower(query))
  {
    LowerIdempotent(query);
    FilterAgree(ps, (p: Project) => Matches(p, query), (p: Project) => Matches(p, Lower(query)));
  }

  // ---------------------------------------------------------------------------
  // Stored results

  /** `parseResult`: null for a null or empty string and for text that does
      not parse; `parse` is JSON.parse, None when it throws. */
  function ParseResult(result: Option<string>, parse: string -> Option<Value>): (r: Value)
    ensures result.None? || result == Some("") ==> r == Null
    ensures result.Some? && result.value != "" && parse(result.value).None? ==> r == Null
    ensures result.Some? && result.value != "" && parse(result.value).Some? ==> r == parse(result.value).value
  {
    match result
    case None => Null
    case Some(s) =>
      if s == "" then Null
      else match parse(s)
        case None => Null
        case Some(v) => v
  }

  /** A bucket read as `distribution.X || 0`; a bucket that is not a number
      counts as 0. */
  function BucketValue(dist: Value, key: string): (r: real)
    ensures OptGet(dist, key).Num? && OptGet(dist, key).n != 0.0 ==> r == OptGet(dist, key).n
    ensures !Truthy(OptGet(dist, key)) ==> r == 0.0
    ensures !OptGet(dist, key).Num? ==> r == 0.0
  {
    match Or(OptGet(dist, key), Num(0.0))
    case Num(n) => n
    case _ => 0.0
  }

  const DefaultDistribution: Value := Obj(map["Small" := Num(0.0), "Medium" := Num(0.0), "Large" := Num(0.0)])

  /** `result?.size_distribution || { Small: 0, Medium: 0, Large: 0 }` */
  function DistributionOf(result: Value): (d: Value)
    ensures Truthy(d)
    ensures Truthy(OptGet(result, "size_distribution")) ==> d == OptGet(result, "size_distribution")
    ensures !Truthy(OptGet(result, "size_distribution")) ==> d == DefaultDistribution
  {
    Or(OptGet(result, "size_distribution"), DefaultDistribution)
  }

  function BucketSum(result: Value): real
  {
    var d := DistributionOf(result);
    BucketValue(d, "Small") + BucketValue(d, "Medium") + BucketValue(d, "Large")
  }

  /** The total the bar widths are divided by: the bucket sum, or 1 when that
      sum is 0, so it is never 0. */
  function DistributionTotal(result: Value): (r: real)
    ensures r != 0.0
    ensures BucketSum(result) != 0.0 ==> r == BucketSum(result)
    ensures BucketSum(result) == 0.0 ==> r == 1.0
  {
    var sum := BucketSum(result);
    if sum == 0.0 then 1.0 else sum
  }

  predicate WholeCount(x: real)
  {
    x >= 0.0 && x == x.Floor as real
  }

  /** With counts for buckets, the total is at least 1 and at least each
      bucket, so no bar segment is wider than the bar. */
  lemma DistributionTotalBounds(result: Value)
    requires WholeCount(BucketValue(DistributionOf(result), "Small"))
    requires WholeCount(BucketValue(DistributionOf(result), "Medium"))
    requires WholeCount(BucketValue(DistributionOf(result), "Large"))
    ensures DistributionTotal(result) >= 1.0
    ensures BucketValue(DistributionOf(result), "Small") <= DistributionTotal(result)
    ensures BucketValue(DistributionOf(result), "Medium") <= DistributionTotal(result)
    ensures BucketValue(DistributionOf(result), "Large") <= DistributionTotal(result)
  {
    var d := DistributionOf(result);
    var s, m, l := BucketValue(d, "Small"), BucketValue(d, "Medium"), BucketValue(d, "Large");
    var sum := s + m + l;
    if sum != 0.0 {
      assert sum == (s.Floor + m.Floor + l.Floor) as real;
      assert s.Floor + m.Floor + l.Floor >= 1;
    }
  }

  /** A result with no distribution (null, unparseable, an error body) has
      every bucket at 0 and a total of 1. */
  lemma MissingDistributionTotal(result: Value)
    requires !Truthy(OptGet(result, "size_distribution"))
    ensures BucketSum(result) == 0.0
    ensures DistributionTotal(result) == 1.0
  {
  }

  // ---------------------------------------------------------------------------
  // Editing

  /** `startEdit`: the name as it is, the nullable fields with null read as "". */
  function EditFormFor(p: Project): (f: Form)
    ensures f.name == p.name
    ensures f.drug == OrEmpty(p.drugName) && f.conc == OrEmpty(p.concentration) && f.desc == OrEmpty(p.description)
    ensures p.drugName.None? ==> f.drug == ""
    ensures p.concentration.None? ==> f.conc == ""
    ensures p.description.None? ==> f.desc == ""
  {
    Form(p.name, OrEmpty(p.drugName), OrEmpty(p.concentration), OrEmpty(p.description))
  }

  /** The PUT body of `saveEdit`: empty fields become null and the stored
      result goes back unchanged. */
  function SavePayload(form: Form, p: Project): (b: ProjectBody)
    ensures b.name == form.name
    ensures b.drugName.None? <==> form.drug == ""
    ensures b.concentration.None? <==> form.conc == ""
    ensures b.description.None? <==> form.desc == ""
    ensures b.drugName.Some? ==> b.drugName.value == form.drug
    ensures b.concentration.Some? ==> b.concentration.value == form.conc
    ensures b.description.Some? ==> b.description.value == form.desc
    ensures b.result == p.result
  {
    ProjectBody(form.name, NullIfEmpty(form.drug), NullIfEmpty(form.conc), NullIfEmpty(form.desc), p.result)
  }

  /** Opening the editor and saving without typing sends the project back as
      stored, except that an empty-string field is sent as null. */
  lemma UneditedSaveKeepsProject(p: Project)
    requires p.drugName != Some("") && p.concentration != Some("") && p.description != Some("")
    ensures SavePayload(EditFormFor(p), p) ==
      ProjectBody(p.name, p.drugName, p.concentration, p.description, p.result)
  {
    NullIfEmptyOrEmpty(p.drugName);
    NullIfEmptyOrEmpty(p.concentration);
    NullIfEmptyOrEmpty(p.description);
  }

  /** The local update after a successful delete. */
  function RemoveProject(ps: seq<Project>, id: int): (r: seq<Project>)
    ensures IsSubseq(r, ps)
    ensures forall p :: p in r <==> p in ps && p.id != id
    ensures forall p :: multiset(r)[p] == if p.id != id then multiset(ps)[p] else 0
  {
    FilterSpec(ps, (p: Project) => p.id != id);
    Filter(ps, (p: Project) => p.id != id)
  }

  predicate UniqueIds(ps: seq<Project>)
  {
    forall i, j :: 0 <= i < j < |ps| ==> ps[i].id != ps[j].id
  }

  /** The row shown with the edit form: the one whose id is `editingId`. */
  predicate EditingRow(ps: seq<Project>, editingId: Option<int>, i: int)
  {
    0 <= i < |ps| && editingId == Some(ps[i].id)
  }

  /** With distinct ids, at most one row of the list is in editing state. */
  lemma AtMostOneEditing(ps: seq<Project>, editingId: Option<int>, i: int, j: int)
    requires UniqueIds(ps)
    requires EditingRow(ps, editingId, i) && EditingRow(ps, editingId, j)
    ensures i == j
  {
  }

  /** The state of the history page. */
  class HistoryPage {
    var projects: seq<Project>
    var editingId: Option<int>
    var editForm: Form
    var searchQuery: string

    constructor ()
      ensures projects == [] && editingId == None && editForm == EmptyForm && searchQuery == ""
    {
      projects := [];
      editingId := None;
      editForm := EmptyForm;
      searchQuery := "";
    }

    /** The rows on screen. */
    function Visible(): (r: seq<Project>)
      reads this
      ensures IsSubseq(r, projects)
      ensures forall p :: p in r <==> p in projects && Matches(p, searchQuery)
      ensures forall p :: multiset(r)[p] == if Matches(p, searchQuery) then multiset(projects)[p] else 0
    {
      Search(projects, searchQuery)
    }

    /** `fetchProjects`: only an array response replaces the list. */
    method FetchProjects(resp: FetchResponse)
      modifies this`projects
      ensures resp.JsonArray? ==> projects == resp.items
      ensures !resp.JsonArray? ==> projects == old(projects)
    {
      if resp.JsonArray? {
        projects := resp.items;
      }
    }

    method SetSearchQuery(q: string)
      modifies this`searchQuery
      ensures searchQuery == q
    {
      searchQuery := q;
    }

    method StartEdit(p: Project)
      modifies this`editingId, this`editForm
      ensures editingId == Some(p.id) && editForm == EditFormFor(p)
    {
      editingId := Some(p.id);
      editForm := EditFormFor(p);
    }

    method EditField(form: Form)
      modifies this`editForm
      ensures editForm == form
    {
      editForm := form;
    }

    method CancelEdit()
      modifies this`editingId
      ensures editingId == None
    {
      editingId := None;
    }

    /** `saveEdit`: sends the payload; a successful response closes the editor
      and reloads the list from `refetch`, anything else keeps both as they
      were. */
    method SaveEdit(p: Project, outcome: SaveOutcome, refetch: FetchResponse) returns (payload: ProjectBody)
      modifies this`editingId, this`projects
      ensures payload == SavePayload(editForm, p)
      ensures outcome == SaveOk ==> editingId == None
      ensures outcome == SaveOk && refetch.JsonArray? ==> projects == refetch.items
      ensures outcome == SaveOk && !refetch.JsonArray? ==> projects == old(projects)
      ensures outcome != SaveOk ==> editingId == old(editingId) && projects == old(projects)
    {
      payload := SavePayload(editForm, p);
      if outcome == SaveOk {
        editingId := None;
        FetchProjects(refetch);
      }
    }

    /** `deleteProject`: only a confirmed delete with a successful response
      removes the project from the list. */
    method DeleteProject(id: int, confirmed: bool, outcome: SaveOutcome)
      modifies this`projects
      ensures confirmed && outcome == SaveOk ==> projects == RemoveProject(old(projects), id)
      ensures !confirmed || outcome != SaveOk ==> projects == old(projects)
    {
      if !confirmed {
        return;
      }
      if outcome == SaveOk {
        projects := RemoveProject(projects, id);
      }
    }
  }
}
