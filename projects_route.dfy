/** The in-memory project store behind `/api/projects`: GET returns it, POST
    builds a record from the request body and puts it first. */
module ProjectsRoute {
  import opened Common
  import opened JsValue

  /** A stored project: whatever fields the body had, plus `id` and
      `createdAt`. */
  type Record = map<string, Value>

  const SaveFailedStatus: int := 500
  const SaveFailed: string := "Mock Save Failed"
  const SeedId: int := 101

  /** The reply of a POST: the stored record, or the error body with its status. */
  datatype PostReply = Created(record: Record) | Failed(status: int, error: string)

  /** `Math.floor(Math.random() * 10000) + 100`, where `rand` is the value
      `Math.random()` drew. */
  function GeneratedId(rand: real): (id: int)
    requires 0.0 <= rand < 1.0
    ensures 100 <= id < 10100
  {
    (rand * 10000.0).Floor + 100
  }

  /** The own fields an object spread copies: those of an object, none for
      null, undefined, booleans and numbers. */
  function SpreadFields(body: Value): (fields: map<string, Value>)
    ensures body.Obj? ==> fields == body.fields
    ensures !body.Obj? && !body.Str? && !body.Arr? ==> fields == map[]
  {
    if body.Obj? then body.fields else map[]
  }

  /** `{ id: <generated>, ...body, createdAt: <now> }`: later entries win, so
      a body `id` replaces the generated one and `createdAt` is always the
      server's. */
  function NewRecord(body: Value, rand: real, now: string): (r: Record)
    requires 0.0 <= rand < 1.0
    ensures r.Keys == SpreadFields(body).Keys + {"id", "createdAt"}
    ensures r["createdAt"] == Str(now)
    ensures forall k :: k in SpreadFields(body) && k != "createdAt" ==> r[k] == SpreadFields(body)[k]
    ensures "id" !in SpreadFields(body) ==> r["id"] == Num(GeneratedId(rand) as real)
  {
    (map["id" := Num(GeneratedId(rand) as real)] + SpreadFields(body))["createdAt" := Str(now)]
  }

  /** The example result stored with the seeded project. */
  const SeedResult: Value := Obj(map[
    "cell_count" := Num(125.0),
    "confluence" := Num(45.5),
    "avg_size" := Num(320.2),
    "size_distribution" := Obj(map["Small" := Num(30.0), "Medium" := Num(60.0), "Large" := Num(35.0)]),
    "processed_image" := Str(""),
    "original_image" := Str("")])

  /** The one project the store starts with; `now` is the start-up time and
      `stringify` is JSON.stringify. */
  function SeedRecord(now: string, stringify: Value -> string): (r: Record)
    ensures "id" in r && r["id"] == Num(SeedId as real)
    ensures "createdAt" in r && r["createdAt"] == Str(now)
    ensures "result" in r && r["result"] == Str(stringify(SeedResult))
  {
    map[
      "id" := Num(SeedId as real),
      "name" := Str("การทดลองยา Cisplatin (ตัวอย่าง)"),
      "drugName" := Str("Cisplatin"),
      "concentration" := Str("10"),
      "description" := Str("ตัวอย่างข้อมูล Mock Data สำหรับการนำเสนอ"),
      "createdAt" := Str(now),
      "result" := Str(stringify(SeedResult))]
  }

  /** The store does not keep ids distinct: a draw of 0.0001 generates the
      seed's id 101, so after that POST two records carry id 101. */
  lemma GeneratedIdCanRepeatSeed(now: string, stringify: Value -> string, later: string)
    ensures GeneratedId(0.0001) == SeedId
    ensures NewRecord(Obj(map[]), 0.0001, later)["id"] == SeedRecord(now, stringify)["id"]
  {
  }

  /** `MOCK_DB` */
  class MockDb {
    var records: seq<Record>

    constructor (now: string, stringify: Value -> string)
      ensures records == [SeedRecord(now, stringify)]
    {
      records := [SeedRecord(now, stringify)];
    }

    /** GET: the whole store, newest first. */
    method Get() returns (r: seq<Record>)
      ensures r == records
    {
      r := records;
    }

    /** POST: `body` is None when `request.json()` throws. A parsed body gives
      a new record at index 0, followed by the records already there, and the
      reply is that record; otherwise the store is unchanged. */
    method Post(body: Option<Value>, rand: real, now: string) returns (reply: PostReply)
      requires 0.0 <= rand < 1.0
      modifies this
      ensures body.None? ==> reply == Failed(SaveFailedStatus, SaveFailed) && records == old(records)
      ensures body.Some? ==> records == [NewRecord(body.value, rand, now)] + old(records)
      ensures body.Some? ==> reply == Created(records[0])
      ensures body.Some? ==> records == Prepended(old(records), [NewRecord(body.value, rand, now)])
    {
      match body
      case None =>
        reply := Failed(SaveFailedStatus, SaveFailed);
      case Some(b) =>
        var record := NewRecord(b, rand, now);
        records := [record] + records;
        reply := Created(record);
    }
  }

  /** The store after successful POSTs that created `created`, in that order:
      each one went in front of the others. */
  function Prepended(records: seq<Record>, created: seq<Record>): seq<Record>
    decreases |created|
  {
    if created == [] then records
    else [created[|created| - 1]] + Prepended(records, created[..|created| - 1])
  }

  /** After n POSTs the store holds the n new records, newest first, and then
      the records it held before, unchanged and in order. */
  lemma {:induction false} PostsPrepend(records: seq<Record>, created: seq<Record>)
    ensures |Prepended(records, created)| == |records| + |created|
    ensures Prepended(records, created)[|created|..] == records
    ensures forall k :: 0 <= k < |created| ==> Prepended(records, created)[k] == created[|created| - 1 - k]
    decreases |created|
  {
    if created != [] {
      var n := |created|;
      var front := created[..n - 1];
      PostsPrepend(records, front);
      var rest := Prepended(records, front);
      var all := Prepended(records, created);
      assert all == [created[n - 1]] + rest;
      assert all[n..] == rest[n - 1..];
      forall k | 1 <= k < n
        ensures all[k] == created[n - 1 - k]
      {
        assert all[k] == rest[k - 1] == front[n - 2 - (k - 1)];
      }
    }
  }
}
