/** How the pages read what the backend sends: the box counts in the overlays,
    the CSV rows, the history bar and the dashboard count agree with the
    summary the backend built. */
module EndToEnd {
  import opened Common
  import opened JsValue
  import opened Detection
  import NewAnalysis
  import History
  import Dashboard
  import ProjectRecord
  import ProjectsRoute

  /** The size filter "Small", "Medium" or "Large" picks a box exactly when
      the backend gave it that label. */
  lemma ShowBoxIsLabel(d: Detection, l: SizeLabel)
    ensures NewAnalysis.ShowBox(DetectionJson(d), LabelName(l)) <==> d.size == l
  {
  }

  /** The JSON list of one more detection ends with that detection's object. */
  lemma DetectionsJsonSnoc(ds: seq<Detection>)
    requires ds != []
    ensures DetectionsJson(ds) == DetectionsJson(ds[..|ds| - 1]) + [DetectionJson(ds[|ds| - 1])]
  {
    var n := |ds| - 1;
    var all, front := DetectionsJson(ds), DetectionsJson(ds[..n]);
    assert |all| == |front| + 1;
    forall k | 0 <= k < |all| ensures all[k] == (front + [DetectionJson(ds[n])])[k] {
      if k < n {
        assert ds[..n][k] == ds[k];
      }
    }
  }

  /** A label filter is the plain filter by the overlay test. */
  lemma LabelFilterIsFilter(xs: seq<Value>, l: SizeLabel)
    ensures NewAnalysis.FilterBoxes(xs, LabelName(l)) == Filter(xs, NewAnalysis.BoxTest(LabelName(l)))
  {
    assert LabelName(l) != "All";
  }

  /** A one-box list keeps its box exactly when the box carries the label. */
  lemma OneBoxShown(d: Detection, l: SizeLabel)
    ensures |Filter([DetectionJson(d)], NewAnalysis.BoxTest(LabelName(l)))| == if d.size == l then 1 else 0
  {
    ShowBoxIsLabel(d, l);
    assert [DetectionJson(d)][1..] == [];
  }

  /** Filtering the detection list by a label keeps as many boxes as carry it. */
  lemma {:induction false} ShownCountIsCount(ds: seq<Detection>, l: SizeLabel)
    ensures |NewAnalysis.FilterBoxes(DetectionsJson(ds), LabelName(l))| == Count(ds, l)
  {
    var keep := NewAnalysis.BoxTest(LabelName(l));
    LabelFilterIsFilter(DetectionsJson(ds), l);
    if ds != [] {
      var n := |ds| - 1;
      var front, last := DetectionsJson(ds[..n]), DetectionJson(ds[n]);
      ShownCountIsCount(ds[..n], l);
      LabelFilterIsFilter(front, l);
      DetectionsJsonSnoc(ds);
      FilterAppend(front, [last], keep);
      OneBoxShown(ds[n], l);
      assert Count(ds, l) == Count(ds[..n], l) + (if ds[n].size == l then 1 else 0);
    }
  }

  /** `result.detections` of an analysis reply is the backend's detection list. */
  lemma DetectionsOfReply(a: Analysis)
    ensures NewAnalysis.DetectionsOf(ReplyJson(Analysed(a))) == DetectionsJson(a.detections)
  {
  }

  /** In the print view, the count "n=" of the Small, Medium and Large panels
      is that bucket of the size distribution, and the "All" panel shows
      every detection. */
  lemma StaticPanelsMatchBuckets(width: nat, height: nat, boxes: seq<Box>, l: SizeLabel)
    ensures var a := Summarise(width, height, boxes);
      && |NewAnalysis.StaticVisibleBoxes(ReplyJson(Analysed(a)), LabelName(l), true)| == a.sizeDistribution[l]
      && |NewAnalysis.StaticVisibleBoxes(ReplyJson(Analysed(a)), "All", true)| == a.cellCount
  {
    var a := Summarise(width, height, boxes);
    DetectionsOfReply(a);
    ShownCountIsCount(a.detections, l);
  }

  /** The CSV of one analysed image has one row per box, numbered from 1,
      with the label the backend gave it. */
  lemma CsvRowsOfAnalysis(width: nat, height: nat, boxes: seq<Box>, image: string, drug: string, conc: string)
    ensures var a := Summarise(width, height, boxes);
      var rows := NewAnalysis.RowsFor(image, drug, conc, ReplyJson(Analysed(a)));
      && |rows| == a.cellCount
      && forall k :: 0 <= k < |rows| ==> rows[k].colonyId == k + 1 && rows[k].size == Str(LabelName(a.detections[k].size))
  {
    var a := Summarise(width, height, boxes);
    DetectionsOfReply(a);
    NewAnalysis.RowsAreNumbered(image, drug, conc, ReplyJson(Analysed(a)));
  }

  /** The error reply ("model not loaded") has no boxes and no CSV rows, yet
      it is truthy, so the batch loop stores it as a result and does not
      send that image again. */
  lemma ErrorReplyHasNoBoxes(e: string, filter: string, image: string, drug: string, conc: string)
    ensures NewAnalysis.StaticVisibleBoxes(ReplyJson(ErrorPayload(e)), filter, true) == []
    ensures NewAnalysis.RowsFor(image, drug, conc, ReplyJson(ErrorPayload(e))) == []
    ensures Truthy(ReplyJson(ErrorPayload(e)))
    ensures History.DistributionTotal(ReplyJson(ErrorPayload(e))) == 1.0
  {
    var v := ReplyJson(ErrorPayload(e));
    assert OptGet(v, "detections") == Undefined && OptGet(v, "size_distribution") == Undefined;
    assert NewAnalysis.DetectionsOf(v) == [];
    History.MissingDistributionTotal(v);
  }

  /** The history page reads each bucket of the backend's distribution back
      as its count. */
  lemma BucketReadBack(dist: map<SizeLabel, nat>, l: SizeLabel)
    ensures History.BucketValue(DistributionJson(dist), LabelName(l)) == Bucket(dist, l) as real
  {
    assert OptGet(DistributionJson(dist), LabelName(l)) == Num(Bucket(dist, l) as real);
  }

  /** The history bar of a stored analysis divides by the number of
      detections, or by 1 when there are none. */
  lemma HistoryTotalOfAnalysis(width: nat, height: nat, boxes: seq<Box>)
    ensures History.DistributionTotal(ReplyJson(Analysed(Summarise(width, height, boxes)))) ==
      if |boxes| == 0 then 1.0 else |boxes| as real
  {
    var a := Summarise(width, height, boxes);
    SummaryIsConsistent(width, height, boxes);
    var dist := a.sizeDistribution;
    assert History.DistributionOf(ReplyJson(Analysed(a))) == DistributionJson(dist);
    BucketReadBack(dist, Small);
    BucketReadBack(dist, Medium);
    BucketReadBack(dist, Large);
    assert LabelName(Small) == "Small" && LabelName(Medium) == "Medium" && LabelName(Large) == "Large";
    assert History.BucketSum(ReplyJson(Analysed(a))) == (dist[Small] + dist[Medium] + dist[Large]) as real;
  }

  /** The dashboard shows the number of detections of a saved analysis, or
      "-" when there were none; `parse` reads back what `stringify` wrote. */
  lemma DashboardCountOfAnalysis(width: nat, height: nat, boxes: seq<Box>, stringify: Value -> string, parse: string -> Option<Value>)
    requires var v := ReplyJson(Analysed(Summarise(width, height, boxes)));
      stringify(v) != "" && parse(stringify(v)) == Some(v)
    ensures var v := ReplyJson(Analysed(Summarise(width, height, boxes)));
      Dashboard.GetCellCount(Some(stringify(v)), parse) ==
        if |boxes| == 0 then Dashboard.NoCount else Num(|boxes| as real)
  {
    SummaryIsConsistent(width, height, boxes);
  }

  /** The seeded project's example result is consistent: its buckets add up
      to its `cell_count` of 125, which is also the history bar's total. */
  lemma SeedResultIsConsistent()
    ensures History.BucketSum(ProjectsRoute.SeedResult) == 125.0
    ensures Get(ProjectsRoute.SeedResult, "cell_count") == Some(Num(125.0))
    ensures History.DistributionTotal(ProjectsRoute.SeedResult) == 125.0
  {
    var d := History.DistributionOf(ProjectsRoute.SeedResult);
    assert History.BucketValue(d, "Small") == 30.0;
    assert History.BucketValue(d, "Medium") == 60.0;
    assert History.BucketValue(d, "Large") == 35.0;
  }

  /** A project saved from the single tab is stored with a generated id, its
      name and the server's timestamp. */
  lemma SavedSingleProjectRecord(form: ProjectRecord.Form, data: Value, stringify: Value -> string, rand: real, now: string)
    requires 0.0 <= rand < 1.0
    ensures var r := ProjectsRoute.NewRecord(ProjectRecord.BodyJson(NewAnalysis.SinglePayload(form, data, stringify)), rand, now);
      && r["id"] == Num(ProjectsRoute.GeneratedId(rand) as real)
      && "name" in r && r["name"].Str? && r["name"].s != ""
      && r["createdAt"] == Str(now)
  {
  }
}
