/** The new-analysis page: single-image mode with its locked/editing flag, the
    batch list and its "process all" loop, the size filter of the box overlays,
    the zoom of the visual inspector, and the CSV export. */
module NewAnalysis {
  import opened Common
  import opened JsValue
  import opened ProjectRecord

  /** A file chosen in the upload dialog; `handle` stands for its contents. */
  datatype UploadedFile = UploadedFile(name: string, handle: nat)

  const UntitledName: string := "Untitled Project"

  datatype BatchItem = BatchItem(
    id: string,
    file: UploadedFile,
    name: string,
    drug: string,
    conc: string,
    desc: string,
    result: Value,
    editMode: bool)

  /** What one call of `processImage` did: it threw (network or JSON error),
      or it returned the parsed body of the analysis response. */
  datatype CallOutcome = Threw | Returned(data: Value)

  datatype Tab = SingleTab | BatchTab

  // ---------------------------------------------------------------------------
  // Batch list

  /** Adding files in batch mode: each new item copies the shared defaults,
      starts without a result and locked, and goes after the existing items.
      `freshId(k)` is the id drawn for the k-th new file. */
  function AppendBatchFiles(items: seq<BatchItem>, files: seq<UploadedFile>, defaults: Form, freshId: nat -> string): (r: seq<BatchItem>)
    ensures |r| == |items| + |files|
    ensures r[..|items|] == items
    ensures forall k :: 0 <= k < |files| ==>
      var it := r[|items| + k];
      && it.id == freshId(k) && it.file == files[k]
      && it.name == defaults.name && it.drug == defaults.drug
      && it.conc == defaults.conc && it.desc == defaults.desc
      && it.result == Null && !it.editMode
  {
    items + seq(|files|, k requires 0 <= k < |files| =>
      BatchItem(freshId(k), files[k], defaults.name, defaults.drug, defaults.conc, defaults.desc, Null, false))
  }

  /** Removing by id drops exactly the items with that id and keeps the others
      in their order. */
  function RemoveBatchFile(items: seq<BatchItem>, id: string): (r: seq<BatchItem>)
    ensures IsSubseq(r, items)
    ensures forall x :: x in r <==> x in items && x.id != id
    ensures forall x :: multiset(r)[x] == if x.id != id then multiset(items)[x] else 0
  {
    FilterSpec(items, (f: BatchItem) => f.id != id);
    Filter(items, (f: BatchItem) => f.id != id)
  }

  /** Toggling edit mode touches only the `editMode` of the items with that id. */
  function ToggleBatchEdit(items: seq<BatchItem>, id: string, editing: bool): (r: seq<BatchItem>)
    ensures |r| == |items|
    ensures forall i :: 0 <= i < |items| ==> r[i].(editMode := items[i].editMode) == items[i]
    ensures forall i :: 0 <= i < |items| ==> r[i].editMode == if items[i].id == id then editing else items[i].editMode
  {
    seq(|items|, i requires 0 <= i < |items| => if items[i].id == id then items[i].(editMode := editing) else items[i])
  }

  /** An item's form is read-only once it has a result and is not in edit mode. */
  predicate Locked(item: BatchItem)
  {
    Truthy(item.result) && !item.editMode
  }

  /** Typing into the form of item `idx`: the four text fields take the form's
      values unless the item is locked, in which case the disabled inputs send
      nothing. */
  function UpdateBatchForm(items: seq<BatchItem>, idx: nat, form: Form): (r: seq<BatchItem>)
    requires idx < |items|
    ensures |r| == |items|
    ensures forall i :: 0 <= i < |items| && i != idx ==> r[i] == items[i]
    ensures Locked(items[idx]) ==> r == items
    ensures !Locked(items[idx]) ==>
      r[idx] == items[idx].(name := form.name, drug := form.drug, conc := form.conc, desc := form.desc)
  {
    if Locked(items[idx]) then items
    else items[idx := items[idx].(name := form.name, drug := form.drug, conc := form.conc, desc := form.desc)]
  }

  /** What "process all" does to one item, given the outcome of its call. */
  ghost predicate ProcessedItem(after: BatchItem, before: BatchItem, outcome: CallOutcome)
  {
    && (Truthy(before.result) ==> after == before)
    && (!Truthy(before.result) && outcome.Threw? ==> after == before)
    && (!Truthy(before.result) && outcome.Returned? ==>
          after == before.(result := outcome.data, editMode := true))
  }

  /** `updated` is `items` after "process all", where `analyze(i, f)` is the
      outcome of the call made for item i with file f. */
  ghost predicate ProcessedFrom(updated: seq<BatchItem>, items: seq<BatchItem>, analyze: (nat, UploadedFile) -> CallOutcome)
  {
    && |updated| == |items|
    && forall i :: 0 <= i < |items| ==> ProcessedItem(updated[i], items[i], analyze(i, items[i].file))
  }

  /** The sequential loop of `handleBatchProcess`: items that already have a
      result are skipped, a returned analysis is stored and unlocks the item,
      a thrown call leaves the item as it was and the loop goes on. */
  method ProcessAll(items: seq<BatchItem>, analyze: (nat, UploadedFile) -> CallOutcome) returns (updated: seq<BatchItem>)
    ensures ProcessedFrom(updated, items, analyze)
  {
    updated := items;
    for i := 0 to |updated|
      invariant |updated| == |items|
      invariant forall k :: i <= k < |items| ==> updated[k] == items[k]
      invariant forall k :: 0 <= k < i ==> ProcessedItem(updated[k], items[k], analyze(k, items[k].file))
    {
      if !Truthy(updated[i].result) {
        match analyze(i, updated[i].file)
        case Threw =>
        case Returned(data) =>
          updated := updated[i := updated[i].(result := data, editMode := true)];
      }
    }
  }

  // ---------------------------------------------------------------------------
  // Box overlays

  /** The filter rule of both overlays: "All" shows every box, any other filter
      shows the boxes whose `size` is that string. */
  predicate ShowBox(d: Value, filter: string)
  {
    filter == "All" || OptGet(d, "size") == Str(filter)
  }

  /** The test of `ShowBox` as a function value, so every filter uses one and
      the same closure. */
  function BoxTest(filter: string): Value -> bool
  {
    (d: Value) => ShowBox(d, filter)
  }

  function FilterBoxes(dets: seq<Value>, filter: string): (r: seq<Value>)
    ensures filter == "All" ==> r == dets
    ensures IsSubseq(r, dets)
    ensures forall d :: d in r <==> d in dets && ShowBox(d, filter)
    ensures forall d :: multiset(r)[d] == if ShowBox(d, filter) then multiset(dets)[d] else 0
  {
    FilterSpec(dets, BoxTest(filter));
    if filter == "All" then
      FilterKeepsAll(dets, BoxTest(filter));
      Filter(dets, BoxTest(filter))
    else
      Filter(dets, BoxTest(filter))
  }

  /** `result.detections` when the result is present and that field is an array. */
  function DetectionsOf(result: Value): (r: seq<Value>)
    ensures !Truthy(result) ==> r == []
    ensures Truthy(result) && OptGet(result, "detections").Arr? ==> r == OptGet(result, "detections").items
    ensures Truthy(result) && !OptGet(result, "detections").Arr? ==> r == []
  {
    if !Truthy(result) then []
    else match OptGet(result, "detections")
      case Arr(items) => items
      case _ => []
  }

  /** The boxes the print view draws over one image. */
  function StaticVisibleBoxes(result: Value, filter: string, showBoxes: bool): (r: seq<Value>)
    ensures !showBoxes ==> r == []
    ensures showBoxes ==> r == FilterBoxes(DetectionsOf(result), filter)
  {
    if showBoxes then FilterBoxes(DetectionsOf(result), filter) else []
  }

  /** The boxes the inspector draws; its `detections` prop may be missing. */
  function InspectorVisibleBoxes(detections: Value, filter: string): (r: seq<Value>)
    ensures !detections.Arr? ==> r == []
    ensures detections.Arr? ==> r == FilterBoxes(detections.items, filter)
  {
    match detections
    case Arr(items) => FilterBoxes(items, filter)
    case _ => []
  }

  // ---------------------------------------------------------------------------
  // Zoom of the visual inspector

  const MinZoom: real := 0.5
  const MaxZoom: real := 5.0
  const InitialZoom: real := 1.0

  datatype ZoomClick = ZoomOutClick | ZoomInClick

  /** One click on "-" (`Math.max(0.5, z - 0.5)`) or "+" (`Math.min(5, z + 0.5)`). */
  function Zoom(z: real, c: ZoomClick): (r: real)
    ensures MinZoom <= z <= MaxZoom ==> MinZoom <= r <= MaxZoom
    ensures c.ZoomOutClick? ==> r <= z || r == MinZoom
    ensures c.ZoomInClick? ==> r >= z || r == MaxZoom
    ensures c.ZoomOutClick? ==> r >= MinZoom && r >= z - 0.5 && (r == MinZoom || r == z - 0.5)
    ensures c.ZoomInClick? ==> r <= MaxZoom && r <= z + 0.5 && (r == MaxZoom || r == z + 0.5)
  {
    match c
    case ZoomOutClick => if MinZoom >= z - 0.5 then MinZoom else z - 0.5
    case ZoomInClick => if MaxZoom <= z + 0.5 then MaxZoom else z + 0.5
  }

  function ZoomAfter(z: real, clicks: seq<ZoomClick>): real
    decreases |clicks|
  {
    if clicks == [] then z else ZoomAfter(Zoom(z, clicks[0]), clicks[1..])
  }

  /** From the initial zoom of 1, any sequence of clicks stays within [0.5, 5]. */
  lemma {:induction false} ZoomStaysInRange(z: real, clicks: seq<ZoomClick>)
    requires MinZoom <= z <= MaxZoom
    ensures MinZoom <= ZoomAfter(z, clicks) <= MaxZoom
    decreases |clicks|
  {
    if clicks != [] {
      ZoomStaysInRange(Zoom(z, clicks[0]), clicks[1..]);
    }
  }

  /** Away from the bounds, "+" undoes "-" and "-" undoes "+". */
  lemma ZoomStepsUndo(z: real)
    ensures 1.0 <= z <= MaxZoom ==> Zoom(Zoom(z, ZoomOutClick), ZoomInClick) == z
    ensures MinZoom <= z <= 4.5 ==> Zoom(Zoom(z, ZoomInClick), ZoomOutClick) == z
  {
  }

  class Inspector {
    var filter: string
    var zoomLevel: real

    ghost predicate Valid()
      reads this
    {
      MinZoom <= zoomLevel <= MaxZoom
    }

    constructor ()
      ensures Valid()
      ensures filter == "All" && zoomLevel == InitialZoom
    {
      filter := "All";
      zoomLevel := InitialZoom;
    }

    method Click(c: ZoomClick)
      requires Valid()
      modifies this`zoomLevel
      ensures Valid()
      ensures zoomLevel == Zoom(old(zoomLevel), c)
    {
      match c
      case ZoomOutClick =>
        zoomLevel := if MinZoom >= zoomLevel - 0.5 then MinZoom else zoomLevel - 0.5;
      case ZoomInClick =>
        zoomLevel := if MaxZoom <= zoomLevel + 0.5 then MaxZoom else zoomLevel + 0.5;
    }

    method SetFilter(f: string)
      modifies this`filter
      ensures filter == f
    {
      filter := f;
    }
  }

  // ---------------------------------------------------------------------------
  // CSV export

  const CsvHeader: string := "data:text/csv;charset=utf-8,Image Name,Drug,Concentration,Colony ID,Size Category,Area (pixels),Width,Height\n"

  /** One line of the CSV; the numeric cells are kept as the values they are
      printed from. */
  datatype CsvRow = CsvRow(image: string, drug: string, conc: string, colonyId: nat, size: Value, area: Value, w: Value, h: Value)

  datatype CsvExport = NothingToExport | Download(header: string, rows: seq<CsvRow>)

  function RowFor(image: string, drug: string, conc: string, index: nat, d: Value): CsvRow
  {
    CsvRow(image, drug, conc, index + 1, OptGet(d, "size"), OptGet(d, "area"), OptGet(d, "w"), OptGet(d, "h"))
  }

  /** The rows `appendRows` adds for one image. */
  function RowsFor(image: string, drug: string, conc: string, result: Value): (rows: seq<CsvRow>)
    ensures |rows| == |DetectionsOf(result)|
  {
    var ds := DetectionsOf(result);
    seq(|ds|, k requires 0 <= k < |ds| => RowFor(image, drug, conc, k, ds[k]))
  }

  /** The rows of the batch tab, image after image. */
  function BatchRows(items: seq<BatchItem>): seq<CsvRow>
  {
    if items == [] then []
    else
      var last := items[|items| - 1];
      BatchRows(items[..|items| - 1]) + RowsFor(last.file.name, last.drug, last.conc, last.result)
  }

  /** `singleFile?.name || "image"` */
  function SingleImageName(file: Option<UploadedFile>): (r: string)
    ensures r != ""
    ensures file.Some? && file.value.name != "" ==> r == file.value.name
    ensures file.None? || file.value.name == "" ==> r == "image"
  {
    if file.Some? && file.value.name != "" then file.value.name else "image"
  }

  /** `appendRows`: one row per detection of the result, numbered from 1. */
  method AppendRows(rows: seq<CsvRow>, image: string, drug: string, conc: string, result: Value) returns (out: seq<CsvRow>)
    ensures |out| == |rows| + |DetectionsOf(result)|
    ensures out[..|rows|] == rows
    ensures forall k :: 0 <= k < |DetectionsOf(result)| ==> out[|rows| + k] == RowFor(image, drug, conc, k, DetectionsOf(result)[k])
  {
    out := rows;
    if !Truthy(result) || !Truthy(OptGet(result, "detections")) {
      return;
    }
    var ds := DetectionsOf(result);
    for index := 0 to |ds|
      invariant |out| == |rows| + index
      invariant out[..|rows|] == rows
      invariant forall k :: 0 <= k < index ==> out[|rows| + k] == RowFor(image, drug, conc, k, ds[k])
    {
      out := out + [RowFor(image, drug, conc, index, ds[index])];
    }
  }

  lemma AppendRowsIsRowsFor(rows: seq<CsvRow>, out: seq<CsvRow>, image: string, drug: string, conc: string, result: Value)
    requires |out| == |rows| + |DetectionsOf(result)|
    requires out[..|rows|] == rows
    requires forall k :: 0 <= k < |DetectionsOf(result)| ==> out[|rows| + k] == RowFor(image, drug, conc, k, DetectionsOf(result)[k])
    ensures out == rows + RowsFor(image, drug, conc, result)
  {
    var r := RowsFor(image, drug, conc, result);
    assert forall k :: 0 <= k < |r| ==> out[|rows| + k] == r[k];
    assert out == rows + r by {
      forall i | 0 <= i < |out| ensures out[i] == (rows + r)[i] {
        if i >= |rows| {
          assert out[|rows| + (i - |rows|)] == r[i - |rows|];
        } else {
          assert out[..|rows|][i] == rows[i];
        }
      }
    }
  }

  // ---------------------------------------------------------------------------
  // What the CSV promises

  /** Rows of one image are numbered 1..n, one per detection, in order, and
      carry the image, drug, concentration and size. */
  lemma RowsAreNumbered(image: string, drug: string, conc: string, result: Value)
    ensures forall k :: 0 <= k < |DetectionsOf(result)| ==>
      var row := RowsFor(image, drug, conc, result)[k];
      && row.colonyId == k + 1 && row.image == image && row.drug == drug && row.conc == conc
      && row.size == OptGet(DetectionsOf(result)[k], "size")
      && row.area == OptGet(DetectionsOf(result)[k], "area")
      && row.w == OptGet(DetectionsOf(result)[k], "w")
      && row.h == OptGet(DetectionsOf(result)[k], "h")
  {
  }

  function DetectionTotal(items: seq<BatchItem>): nat
  {
    if items == [] then 0 else DetectionTotal(items[..|items| - 1]) + |DetectionsOf(items[|items| - 1].result)|
  }

  /** The rows of one more item come after the rows already there. */
  lemma BatchRowsSnoc(items: seq<BatchItem>, item: BatchItem)
    ensures BatchRows(items + [item]) == BatchRows(items) + RowsFor(item.file.name, item.drug, item.conc, item.result)
  {
    var all := items + [item];
    assert all[..|all| - 1] == items;
    assert all[|all| - 1] == item;
  }

  /** The batch rows of two item lists one after the other are the rows of
      the first followed by the rows of the second. */
  lemma {:induction false} BatchRowsAppend(a: seq<BatchItem>, b: seq<BatchItem>)
    ensures BatchRows(a + b) == BatchRows(a) + BatchRows(b)
    decreases |b|
  {
    if b == [] {
      assert a + b == a;
    } else {
      var n := |b| - 1;
      var front, item := b[..n], b[n];
      var last := RowsFor(item.file.name, item.drug, item.conc, item.result);
      assert b == front + [item];
      assert a + b == (a + front) + [item];
      calc {
        BatchRows(a + b);
        { BatchRowsSnoc(a + front, item); }
        BatchRows(a + front) + last;
        { BatchRowsAppend(a, front); }
        BatchRows(a) + BatchRows(front) + last;
        { BatchRowsSnoc(front, item); }
        BatchRows(a) + BatchRows(b);
      }
    }
  }

  /** The batch export has exactly one row per detection over all items. */
  lemma {:induction false} BatchRowsCount(items: seq<BatchItem>)
    ensures |BatchRows(items)| == DetectionTotal(items)
  {
    if items != [] {
      BatchRowsCount(items[..|items| - 1]);
    }
  }

  predicate HasDetections(item: BatchItem)
  {
    |DetectionsOf(item.result)| > 0
  }

  /** Items without detections (no result yet, an error body, an empty list)
      contribute nothing: the export equals that of the items that have some. */
  lemma {:induction false} BatchRowsSkipEmpty(items: seq<BatchItem>)
    ensures BatchRows(items) == BatchRows(Filter(items, HasDetections))
  {
    if items != [] {
      var front := items[..|items| - 1];
      var last := items[|items| - 1];
      BatchRowsSkipEmpty(front);
      assert items == front + [last];
      FilterAppend(front, [last], HasDetections);
      var kept := Filter(front, HasDetections);
      if HasDetections(last) {
        assert Filter([last], HasDetections) == [last];
        assert (kept + [last])[..|kept + [last]| - 1] == kept;
      } else {
        assert Filter([last], HasDetections) == [];
        assert kept + [] == kept;
      }
    }
  }

  // ---------------------------------------------------------------------------
  // Single mode

  /** The body `saveSingleProject` posts. */
  function SinglePayload(form: Form, data: Value, stringify: Value -> string): (b: ProjectBody)
    ensures b.name != ""
    ensures form.name != "" ==> b.name == form.name
    ensures form.name == "" ==> b.name == UntitledName
    ensures b.drugName == NullIfEmpty(form.drug) && b.concentration == NullIfEmpty(form.conc)
    ensures b.description == NullIfEmpty(form.desc)
    ensures b.result.Some? <==> Truthy(data)
    ensures b.result.Some? ==> b.result.value == stringify(data)
  {
    ProjectBody(
      if form.name == "" then UntitledName else form.name,
      NullIfEmpty(form.drug),
      NullIfEmpty(form.conc),
      NullIfEmpty(form.desc),
      if Truthy(data) then Some(stringify(data)) else None)
  }

  /** The state of the page component. */
  class NewAnalysisPage {
    var activeTab: Tab
    var singleFile: Option<UploadedFile>
    var singleData: Value
    var singleForm: Form
    var isSingleEditing: bool
    var saveSuccess: bool
    var batchDefaults: Form
    var batchFiles: seq<BatchItem>

    constructor ()
      ensures activeTab == SingleTab && singleFile == None && singleData == Null
      ensures singleForm == EmptyForm && isSingleEditing && !saveSuccess
      ensures batchDefaults == EmptyForm && batchFiles == []
    {
      activeTab := SingleTab;
      singleFile := None;
      singleData := Null;
      singleForm := EmptyForm;
      isSingleEditing := true;
      saveSuccess := false;
      batchDefaults := EmptyForm;
      batchFiles := [];
    }

    method SetActiveTab(t: Tab)
      modifies this`activeTab
      ensures activeTab == t
    {
      activeTab := t;
    }

    /** `handleFileChange` in single mode: a new file clears the old result and
      unlocks the form; an empty selection changes nothing. */
    method SelectSingleFile(files: seq<UploadedFile>)
      modifies this`singleFile, this`singleData, this`isSingleEditing
      ensures |files| > 0 ==> singleFile == Some(files[0]) && singleData == Null && isSingleEditing
      ensures |files| == 0 ==> singleFile == old(singleFile) && singleData == old(singleData) && isSingleEditing == old(isSingleEditing)
    {
      if |files| > 0 {
        singleFile := Some(files[0]);
        singleData := Null;
        isSingleEditing := true;
      }
    }

    /** The X button next to the chosen file. */
    method ClearSingleFile()
      modifies this`singleFile, this`singleData
      ensures singleFile == None && singleData == Null
    {
      singleFile := None;
      singleData := Null;
    }

    /** The form fields accept input only while editing. */
    method EditSingleForm(form: Form)
      modifies this`singleForm
      ensures isSingleEditing ==> singleForm == form
      ensures !isSingleEditing ==> singleForm == old(singleForm)
    {
      if isSingleEditing {
        singleForm := form;
      }
    }

    /** The "edit" button. */
    method EnableSingleEdit()
      modifies this`isSingleEditing
      ensures isSingleEditing
    {
      isSingleEditing := true;
    }

    /** `handleSingleProcess`: without a file nothing happens; a returned
      analysis is shown and unlocks the form; a thrown call changes nothing. */
    method ProcessSingle(outcome: CallOutcome)
      modifies this`singleData, this`isSingleEditing
      ensures singleFile.Some? && outcome.Returned? ==> singleData == outcome.data && isSingleEditing
      ensures singleFile.None? || outcome.Threw? ==> singleData == old(singleData) && isSingleEditing == old(isSingleEditing)
    {
      if singleFile.None? {
        return;
      }
      match outcome
      case Threw =>
      case Returned(data) =>
        singleData := data;
        isSingleEditing := true;
    }

    /** `saveSingleProject`: posts the form and the current result; only a
      successful response locks the form. */
    method SaveSingleProject(outcome: SaveOutcome, stringify: Value -> string) returns (body: ProjectBody)
      modifies this`isSingleEditing, this`saveSuccess
      ensures body == SinglePayload(singleForm, singleData, stringify)
      ensures outcome == SaveOk ==> !isSingleEditing && saveSuccess
      ensures outcome != SaveOk ==> isSingleEditing == old(isSingleEditing) && !saveSuccess
    {
      saveSuccess := false;
      body := SinglePayload(singleForm, singleData, stringify);
      if outcome == SaveOk {
        saveSuccess := true;
        isSingleEditing := false;
      }
    }

    method EditBatchDefaults(form: Form)
      modifies this`batchDefaults
      ensures batchDefaults == form
    {
      batchDefaults := form;
    }

    /** `handleFileChange` in batch mode. */
    method SelectBatchFiles(files: seq<UploadedFile>, freshId: nat -> string)
      modifies this`batchFiles
      ensures batchFiles == AppendBatchFiles(old(batchFiles), files, batchDefaults, freshId)
    {
      if |files| > 0 {
        batchFiles := AppendBatchFiles(batchFiles, files, batchDefaults, freshId);
      } else {
        assert AppendBatchFiles(batchFiles, files, batchDefaults, freshId) == batchFiles;
      }
    }

    method RemoveBatch(id: string)
      modifies this`batchFiles
      ensures batchFiles == RemoveBatchFile(old(batchFiles), id)
    {
      batchFiles := RemoveBatchFile(batchFiles, id);
    }

    method ToggleEdit(id: string, editing: bool)
      modifies this`batchFiles
      ensures batchFiles == ToggleBatchEdit(old(batchFiles), id, editing)
    {
      batchFiles := ToggleBatchEdit(batchFiles, id, editing);
    }

    method EditBatchForm(idx: nat, form: Form)
      requires idx < |batchFiles|
      modifies this`batchFiles
      ensures batchFiles == UpdateBatchForm(old(batchFiles), idx, form)
    {
      batchFiles := UpdateBatchForm(batchFiles, idx, form);
    }

    /** `handleBatchProcess` */
    method ProcessBatch(analyze: (nat, UploadedFile) -> CallOutcome)
      modifies this`batchFiles
      ensures ProcessedFrom(batchFiles, old(batchFiles), analyze)
    {
      batchFiles := ProcessAll(batchFiles, analyze);
    }

    /** `handleExportCSV`: the single tab without a result has nothing to
      export; otherwise the header is followed by the rows. */
    method ExportCsv() returns (out: CsvExport)
      ensures activeTab == SingleTab && !Truthy(singleData) ==> out == NothingToExport
      ensures activeTab == SingleTab && Truthy(singleData) ==>
        out == Download(CsvHeader, RowsFor(SingleImageName(singleFile), singleForm.drug, singleForm.conc, singleData))
      ensures activeTab == BatchTab ==> out == Download(CsvHeader, BatchRows(batchFiles))
    {
      var rows: seq<CsvRow> := [];
      if activeTab == SingleTab && Truthy(singleData) {
        var image := SingleImageName(singleFile);
        rows := AppendRows(rows, image, singleForm.drug, singleForm.conc, singleData);
        AppendRowsIsRowsFor([], rows, image, singleForm.drug, singleForm.conc, singleData);
      } else if activeTab == BatchTab {
        var files := batchFiles;
        for i := 0 to |files|
          invariant rows == BatchRows(files[..i])
        {
          var f := files[i];
          var before := rows;
          rows := AppendRows(rows, f.file.name, f.drug, f.conc, f.result);
          AppendRowsIsRowsFor(before, rows, f.file.name, f.drug, f.conc, f.result);
          assert files[..i + 1][..i] == files[..i];
        }
        assert files[..|files|] == files;
      } else {
        return NothingToExport;
      }
      out := Download(CsvHeader, rows);
    }
  }
}
