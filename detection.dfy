/** The analysis backend's post-processing of detector output (the `/analyze`
    endpoint): each bounding box is measured, labelled Small, Medium or Large by
    its diameter, the labels are counted, and a summary is returned. The
    detector itself and image decoding are inputs. */
module Detection {
  import opened JsValue

  /** A detector box in corner form (x1, y1, x2, y2). */
  datatype Box = Box(x1: real, y1: real, x2: real, y2: real)

  /** An entry of the first pass (`raw_detections`). */
  datatype Measured = Measured(x: real, y: real, w: real, h: real, area: real)

  datatype SizeLabel = Small | Medium | Large

  /** An entry of `final_detections`. */
  datatype Detection = Detection(x: real, y: real, w: real, h: real, area: real, diameter: real, size: SizeLabel)

  datatype Analysis = Analysis(
    width: nat,
    height: nat,
    cellCount: nat,
    avgSize: real,
    sizeDistribution: map<SizeLabel, nat>,
    detections: seq<Detection>)

  datatype Reply = Analysed(analysis: Analysis) | ErrorPayload(error: string)

  /** A side of a decoded image. The upload is decoded by PIL and converted
      to RGB; an image that got through with no pixels would make the
      confluence division by `img_h * img_w` raise, and the endpoint's
      `except` would report an error. Such an upload is an `Undecodable` one
      here, so a decoded image has at least one pixel each way. */
  type Pixels = n: nat | n > 0 witness 1

  /** The uploaded file after decoding: its pixel size, or the reason the
      endpoint reports an error for it (decoding failed, or it has no pixels). */
  datatype Upload = Decoded(width: Pixels, height: Pixels) | Undecodable(reason: string)

  const SmallBelow: real := 50.0
  const LargeAbove: real := 150.0
  const ModelNotLoaded: string := "Model not loaded"

  function Max(a: real, b: real): (m: real)
    ensures m >= a && m >= b
    ensures m == a || m == b
  {
    if a >= b then a else b
  }

  /** The size rule: one label per diameter, split at 50 and 150 (both ends of
      the middle band belong to Medium). */
  function Classify(diameter: real): (l: SizeLabel)
    ensures l == Small <==> diameter < SmallBelow
    ensures l == Medium <==> SmallBelow <= diameter <= LargeAbove
    ensures l == Large <==> diameter > LargeAbove
  {
    if diameter < SmallBelow then Small
    else if SmallBelow <= diameter <= LargeAbove then Medium
    else Large
  }

  function Measure(b: Box): Measured
  {
    var w := b.x2 - b.x1;
    var h := b.y2 - b.y1;
    Measured(b.x1, b.y1, w, h, w * h)
  }

  function Label(m: Measured): Detection
  {
    var d := Max(m.w, m.h);
    Detection(m.x, m.y, m.w, m.h, m.area, d, Classify(d))
  }

  /** Number of detections carrying label `l`, counted as the loop does, front to back. */
  function Count(ds: seq<Detection>, l: SizeLabel): nat
  {
    if ds == [] then 0
    else Count(ds[..|ds| - 1], l) + (if ds[|ds| - 1].size == l then 1 else 0)
  }

  function Distribution(ds: seq<Detection>): map<SizeLabel, nat>
  {
    map[Small := Count(ds, Small), Medium := Count(ds, Medium), Large := Count(ds, Large)]
  }

  /** Python's `sum`, adding left to right. */
  function Sum(xs: seq<real>): real
  {
    if xs == [] then 0.0 else Sum(xs[..|xs| - 1]) + xs[|xs| - 1]
  }

  function Average(xs: seq<real>): real
  {
    if |xs| == 0 then 0.0 else Sum(xs) / |xs| as real
  }

  function Detections(boxes: seq<Box>): seq<Detection>
  {
    seq(|boxes|, i requires 0 <= i < |boxes| => Label(Measure(boxes[i])))
  }

  function Areas(boxes: seq<Box>): seq<real>
  {
    seq(|boxes|, i requires 0 <= i < |boxes| => Measure(boxes[i]).area)
  }

  /** The summary the endpoint returns for a decoded image of the given size. */
  function Summarise(width: nat, height: nat, boxes: seq<Box>): (a: Analysis)
    ensures a.width == width && a.height == height
    ensures |a.detections| == |boxes| && a.cellCount == |boxes|
    ensures a.sizeDistribution.Keys == {Small, Medium, Large}
  {
    var ds := Detections(boxes);
    Analysis(width, height, |ds|, Average(Areas(boxes)), Distribution(ds), ds)
  }

  /** `analyze_image` after the detector has run: `modelLoaded` says whether a
      model could be loaded at start-up, `boxes` is what it detected. */
  method AnalyzeImage(upload: Upload, modelLoaded: bool, boxes: seq<Box>) returns (reply: Reply)
    ensures upload.Undecodable? ==> reply == ErrorPayload(upload.reason)
    ensures upload.Decoded? && !modelLoaded ==> reply == ErrorPayload(ModelNotLoaded)
    ensures upload.Decoded? && modelLoaded ==> reply == Analysed(Summarise(upload.width, upload.height, boxes))
  {
    if upload.Undecodable? {
      return ErrorPayload(upload.reason);
    }
    if !modelLoaded {
      return ErrorPayload(ModelNotLoaded);
    }
    var raw: seq<Measured> := [];
    var allAreas: seq<real> := [];
    for i := 0 to |boxes|
      invariant |raw| == i && |allAreas| == i
      invariant forall k :: 0 <= k < i ==> raw[k] == Measure(boxes[k])
      invariant forall k :: 0 <= k < i ==> allAreas[k] == raw[k].area
    {
      var b := boxes[i];
      var w := b.x2 - b.x1;
      var h := b.y2 - b.y1;
      var area := w * h;
      allAreas := allAreas + [area];
      raw := raw + [Measured(b.x1, b.y1, w, h, area)];
    }
    var final: seq<Detection> := [];
    var sizeDist: map<SizeLabel, nat> := map[Small := 0, Medium := 0, Large := 0];
    for j := 0 to |raw|
      invariant |final| == j
      invariant forall k :: 0 <= k < j ==> final[k] == Label(raw[k])
      invariant sizeDist == Distribution(final)
    {
      var d := raw[j];
      var diameter := Max(d.w, d.h);
      var sizeLabel;
      if diameter < 50.0 {
        sizeLabel := Small;
      } else if 50.0 <= diameter <= 150.0 {
        sizeLabel := Medium;
      } else {
        sizeLabel := Large;
      }
      sizeDist := sizeDist[sizeLabel := sizeDist[sizeLabel] + 1];
      var next := Detection(d.x, d.y, d.w, d.h, d.area, diameter, sizeLabel);
      assert (final + [next])[..|final|] == final;
      final := final + [next];
    }
    var cellCount := |final|;
    var avgSize := if |allAreas| > 0 then Sum(allAreas) / |allAreas| as real else 0.0;
    assert final == Detections(boxes);
    assert allAreas == Areas(boxes);
    reply := Analysed(Analysis(upload.width, upload.height, cellCount, avgSize, sizeDist, final));
  }

  // ---------------------------------------------------------------------------
  // What the summary promises

  /** Every detection is labelled, so the three buckets add up to the number of detections. */
  lemma {:induction false} BucketsAddUp(ds: seq<Detection>)
    ensures Count(ds, Small) + Count(ds, Medium) + Count(ds, Large) == |ds|
  {
    if ds != [] {
      BucketsAddUp(ds[..|ds| - 1]);
    }
  }

  /** Each bucket is the number of positions whose detection carries that label. */
  lemma {:induction false} CountIsLabelledPositions(ds: seq<Detection>, l: SizeLabel)
    ensures Count(ds, l) == |set i | 0 <= i < |ds| && ds[i].size == l|
  {
    if ds != [] {
      var n := |ds| - 1;
      var front := ds[..n];
      CountIsLabelledPositions(front, l);
      var before := set i | 0 <= i < n && front[i].size == l;
      var after := set i | 0 <= i < |ds| && ds[i].size == l;
      if ds[n].size == l {
        assert after == before + {n};
        assert n !in before;
      } else {
        assert after == before;
      }
    }
  }

  /** The summary is consistent: `cell_count` is the number of final detections,
      which is the number of boxes, and the size distribution has exactly the
      three buckets, which add up to it. */
  lemma SummaryIsConsistent(width: nat, height: nat, boxes: seq<Box>)
    ensures var a := Summarise(width, height, boxes);
      && |a.detections| == |boxes|
      && a.cellCount == |boxes|
      && a.sizeDistribution.Keys == {Small, Medium, Large}
      && a.sizeDistribution[Small] + a.sizeDistribution[Medium] + a.sizeDistribution[Large] == a.cellCount
  {
    BucketsAddUp(Detections(boxes));
  }

  /** Each bucket of the summary counts the final detections carrying that label. */
  lemma SummaryBucketsCountLabels(width: nat, height: nat, boxes: seq<Box>, l: SizeLabel)
    ensures var a := Summarise(width, height, boxes);
      a.sizeDistribution[l] == |set i | 0 <= i < |a.detections| && a.detections[i].size == l|
  {
    CountIsLabelledPositions(Detections(boxes), l);
  }

  /** Detections follow the boxes one for one and in order: position, width and
      height are carried over, the area is w times h, the diameter is the
      larger side, and the label is the size rule applied to the diameter. */
  lemma DetectionsFollowBoxes(width: nat, height: nat, boxes: seq<Box>, i: int)
    requires 0 <= i < |boxes|
    ensures var d := Summarise(width, height, boxes).detections[i];
      && d.x == boxes[i].x1 && d.y == boxes[i].y1
      && d.w == boxes[i].x2 - boxes[i].x1 && d.h == boxes[i].y2 - boxes[i].y1
      && d.area == d.w * d.h
      && d.diameter >= d.w && d.diameter >= d.h && (d.diameter == d.w || d.diameter == d.h)
      && (d.size == Small <==> d.diameter < 50.0)
      && (d.size == Medium <==> 50.0 <= d.diameter <= 150.0)
      && (d.size == Large <==> d.diameter > 150.0)
  {
  }

  lemma {:induction false} SumBounds(xs: seq<real>, lo: real, hi: real)
    requires forall k :: 0 <= k < |xs| ==> lo <= xs[k] <= hi
    ensures |xs| as real * lo <= Sum(xs) <= |xs| as real * hi
  {
    if xs != [] {
      SumBounds(xs[..|xs| - 1], lo, hi);
    }
  }

  lemma QuotientBounds(total: real, n: real, lo: real, hi: real)
    requires n > 0.0 && n * lo <= total <= n * hi
    ensures lo <= total / n <= hi
  {
    var q := total / n;
    assert total == n * q;
    assert n * (q - lo) >= 0.0;
    assert n * (hi - q) >= 0.0;
  }

  /** `avg_size` is the total area over the number of boxes (0 without boxes),
      so it lies between the smallest and the largest area. */
  lemma AverageSizeBetweenAreas(width: nat, height: nat, boxes: seq<Box>, lo: real, hi: real)
    requires forall k :: 0 <= k < |boxes| ==> lo <= Measure(boxes[k]).area <= hi
    ensures var a := Summarise(width, height, boxes);
      && (|boxes| == 0 ==> a.avgSize == 0.0)
      && (|boxes| > 0 ==> a.avgSize * |boxes| as real == Sum(Areas(boxes)))
      && (|boxes| > 0 ==> lo <= a.avgSize <= hi)
  {
    var xs := Areas(boxes);
    if |boxes| > 0 {
      SumBounds(xs, lo, hi);
      QuotientBounds(Sum(xs), |xs| as real, lo, hi);
    }
  }

  // ---------------------------------------------------------------------------
  // The JSON body the endpoint sends back, as the frontend sees it

  function LabelName(l: SizeLabel): string
  {
    match l
    case Small => "Small"
    case Medium => "Medium"
    case Large => "Large"
  }

  /** One entry of the reply's `detections`: the page reads back the
      detection's position, size, area, diameter and label name. */
  function DetectionJson(d: Detection): (v: Value)
    ensures v.Obj? && v.fields.Keys == {"x", "y", "w", "h", "area", "diameter", "size"}
    ensures OptGet(v, "x") == Num(d.x) && OptGet(v, "y") == Num(d.y)
    ensures OptGet(v, "w") == Num(d.w) && OptGet(v, "h") == Num(d.h)
    ensures OptGet(v, "area") == Num(d.area) && OptGet(v, "diameter") == Num(d.diameter)
    ensures OptGet(v, "size") == Str(LabelName(d.size))
  {
    Obj(map["x" := Num(d.x), "y" := Num(d.y), "w" := Num(d.w), "h" := Num(d.h),
            "area" := Num(d.area), "diameter" := Num(d.diameter), "size" := Str(LabelName(d.size))])
  }

  function DetectionsJson(ds: seq<Detection>): (js: seq<Value>)
    ensures |js| == |ds|
    ensures forall i :: 0 <= i < |ds| ==> js[i] == DetectionJson(ds[i])
  {
    seq(|ds|, i requires 0 <= i < |ds| => DetectionJson(ds[i]))
  }

  function Bucket(dist: map<SizeLabel, nat>, l: SizeLabel): nat
  {
    if l in dist then dist[l] else 0
  }

  /** `size_distribution`: one count per label name, 0 for a label the map lacks. */
  function DistributionJson(dist: map<SizeLabel, nat>): (v: Value)
    ensures v.Obj? && v.fields.Keys == {"Small", "Medium", "Large"}
    ensures forall l :: OptGet(v, LabelName(l)) == Num(Bucket(dist, l) as real)
  {
    Obj(map["Small" := Num(Bucket(dist, Small) as real),
            "Medium" := Num(Bucket(dist, Medium) as real),
            "Large" := Num(Bucket(dist, Large) as real)])
  }

  /** The endpoint's JSON body: the summary dictionary, or `{"error": ...}`
      for an analysis that did not run. Either is an object, so truthy. */
  function ReplyJson(r: Reply): (v: Value)
    ensures v.Obj? && Truthy(v)
    ensures r.ErrorPayload? ==> v.fields.Keys == {"error"} && OptGet(v, "error") == Str(r.error)
    ensures r.Analysed? ==>
      && v.fields.Keys == {"width", "height", "cell_count", "avg_size", "size_distribution", "detections"}
      && OptGet(v, "width") == Num(r.analysis.width as real)
      && OptGet(v, "height") == Num(r.analysis.height as real)
      && OptGet(v, "cell_count") == Num(r.analysis.cellCount as real)
      && OptGet(v, "avg_size") == Num(r.analysis.avgSize)
      && OptGet(v, "size_distribution") == DistributionJson(r.analysis.sizeDistribution)
      && OptGet(v, "detections") == Arr(DetectionsJson(r.analysis.detections))
  {
    match r
    case ErrorPayload(e) => Obj(map["error" := Str(e)])
    case Analysed(a) =>
      Obj(map["width" := Num(a.width as real), "height" := Num(a.height as real),
              "cell_count" := Num(a.cellCount as real), "avg_size" := Num(a.avgSize),
              "size_distribution" := DistributionJson(a.sizeDistribution),
              "detections" := Arr(DetectionsJson(a.detections))])
  }
}
