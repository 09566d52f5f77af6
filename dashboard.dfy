/** The dashboard overview: the cell count column, the projects created
    today, and the table of the most recent projects. */
module Dashboard {
  import opened Common
  import opened JsValue
  import opened ProjectRecord

  const NoCount: Value := Str("-")

  /** `getCellCount`: the stored result's `cell_count` when it is truthy, and
      "-" when the result is null or empty, does not parse, parses to null
      (reading a field of null throws) or has a falsy count. */
  function GetCellCount(result: Option<string>, parse: string -> Option<Value>): (r: Value)
    ensures Truthy(r)
    ensures result.None? || result == Some("") ==> r == NoCount
    ensures result.Some? && result.value != "" && parse(result.value).None? ==> r == NoCount
    ensures result.Some? && result.value != "" && parse(result.value).Some? ==>
      var v := parse(result.value).value;
      && (v.Null? || v.Undefined? ==> r == NoCount)
      && (Get(v, "cell_count").Some? && Truthy(Get(v, "cell_count").value) ==> r == Get(v, "cell_count").value)
      && (Get(v, "cell_count").Some? && !Truthy(Get(v, "cell_count").value) ==> r == NoCount)
  {
    match result
    case None => NoCount
    case Some(s) =>
      if s == "" then NoCount
      else match parse(s)
        case None => NoCount
        case Some(v) =>
          match Get(v, "cell_count")
          case None => NoCount
          case Some(c) => Or(c, NoCount)
  }

  /** A count of 0 (an image with no colonies) shows as "-". */
  lemma ZeroCountShowsDash(s: string, parse: string -> Option<Value>, fields: map<string, Value>)
    requires s != "" && parse(s) == Some(Obj(fields))
    requires "cell_count" !in fields || !Truthy(fields["cell_count"])
    ensures GetCellCount(Some(s), parse) == NoCount
  {
  }

  /** What the overview holds after its one fetch: the array, or the initial
      empty list when the response is anything else or the fetch fails. */
  function LoadedProjects(resp: FetchResponse): (ps: seq<Project>)
    ensures resp.JsonArray? ==> ps == resp.items
    ensures !resp.JsonArray? ==> ps == []
  {
    if resp.JsonArray? then resp.items else []
  }

  /** The test of `todayCount` as a function value. */
  function IsToday(dayOf: string -> string, today: string): Project -> bool
  {
    (p: Project) => dayOf(p.createdAt) == today
  }

  lemma TodayPositions(ps: seq<Project>, dayOf: string -> string, today: string)
    ensures |Filter(ps, IsToday(dayOf, today))| == |set i | 0 <= i < |ps| && dayOf(ps[i].createdAt) == today|
  {
    var keep := IsToday(dayOf, today);
    FilterCountsPositions(ps, keep);
    var todays := set i | 0 <= i < |ps| && dayOf(ps[i].createdAt) == today;
    assert Positions(ps, keep) == todays;
  }

  /** `todayCount`: `dayOf` is `new Date(..).toDateString()` of a timestamp.
      The count is the number of positions holding a project of today; the
      bound and the two extremes follow. */
  function TodayCount(ps: seq<Project>, dayOf: string -> string, today: string): (n: nat)
    ensures n == |set i | 0 <= i < |ps| && dayOf(ps[i].createdAt) == today|
    ensures n <= |ps|
    ensures n == |ps| <==> forall p :: p in ps ==> dayOf(p.createdAt) == today
    ensures n == 0 <==> forall p :: p in ps ==> dayOf(p.createdAt) != today
  {
    var keep := IsToday(dayOf, today);
    FilterLength(ps, keep);
    FilterSpec(ps, keep);
    TodayPositions(ps, dayOf, today);
    var r := Filter(ps, keep);
    assert r != [] ==> r[0] in r;
    |r|
  }

  /** A failed or non-array load shows no project created today. */
  lemma NothingLoadedNothingToday(resp: FetchResponse, dayOf: string -> string, today: string)
    requires !resp.JsonArray?
    ensures TodayCount(LoadedProjects(resp), dayOf, today) == 0
  {
  }

  const RecentLimit: nat := 10

  /** `projects.slice(0, 10)`: the first ten projects, or all of them when
      there are fewer, in list order. */
  function Recent(ps: seq<Project>): (r: seq<Project>)
    ensures |r| == if |ps| < RecentLimit then |ps| else RecentLimit
    ensures forall i :: 0 <= i < |r| ==> r[i] == ps[i]
  {
    if |ps| < RecentLimit then ps else ps[..RecentLimit]
  }

  /** A newly created project (the store puts it first) heads the table. */
  lemma NewestHeadsRecent(p: Project, ps: seq<Project>)
    ensures Recent([p] + ps)[0] == p
    ensures Recent([p] + ps)[1..] == Recent(ps)[..|Recent([p] + ps)| - 1]
  {
    var r, s := Recent([p] + ps), Recent(ps);
    assert |r| >= 1;
    assert |s| >= |r| - 1;
    forall i | 0 <= i < |r| - 1 ensures r[1..][i] == s[..|r| - 1][i] {
      assert r[i + 1] == ([p] + ps)[i + 1] == ps[i];
    }
  }
}
