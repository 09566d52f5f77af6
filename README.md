# Cancer-colony dashboard: a Dafny model of its logic

The system is a web dashboard for counting cancer-cell colonies in microscopy
images. A Python backend runs a detector on an uploaded image. It turns the
detector's boxes into detections with a width, height, area, diameter and a
size label (Small, Medium or Large), counts the labels, and returns a summary
with `cell_count` and `avg_size`. A Next.js frontend sends the images and shows
the results:

- The new-analysis page has a single-image tab and a batch tab. It lets the
  user edit the project data of each image, filter the box overlays by size,
  zoom in the inspector and export the detections as CSV.
- The history page lets the user search, edit and delete saved projects.
- The overview page shows how many projects were created today and a table
  of the ten most recent, with the cell count of each.
- Small API routes keep projects in an in-memory store and check logins and
  registrations against a user table.

This project models that logic and proves what the code promises:

- The backend analysis lives in `Detection`. `AnalyzeImage` is the loop
  itself, proved against the `Summarise` function. Lemmas state the labelling
  rule, the bucket counts and their sum, order and geometry of the
  detections, and the bounds of `avg_size`.
- The frontend pages are modelled as classes whose fields are the React
  state. Each event handler is a method that states the new state. The
  list operations are functions proved against a generic filter
  specification: subsequence, membership and multiplicity. The "process all"
  loop and the CSV accumulation are methods with loop invariants.
- Values the pages treat as untyped JSON are `JsValue.Value`, with
  JavaScript truthiness and property access. Reading a field of
  null/undefined is the error case of `Get`.
- The project store, the login check and the registration are in
  `ProjectsRoute`, `LoginRoute` and `RegisterRoute`, over `UserTable`.
- `EndToEnd` ties the pieces together:
  - the overlay counts and CSV rows of an analysis match its buckets;
  - the history bar total of an analysis is its detection count;
  - the overview shows that count.

Outside inputs are parameters:

- the detector's boxes and whether a model is loaded;
- the outcome of each fetch;
- `JSON.parse` (`string -> Option<Value>`, None when it throws);
- `JSON.stringify`;
- `Math.random()`;
- the clock;
- `toDateString`.

The size rule is the one in `backend/main.py:79-86`: a box's diameter is
`max(w, h)`, and it is Small below 50, Medium from 50 to 150 inclusive, and
Large above 150.

## Model

| member | source | states |
|---|---|---|
| Detection.Max | backend/main.py:79 | the diameter is at least w and at least h and equals one of them |
| Detection.Measure | backend/main.py:58-67 | the first pass: no contract of its own; its fields are stated per box by `Detection.DetectionsFollowBoxes` |
| Detection.Label | backend/main.py:74-96 | the second pass: no contract of its own; the diameter and label it gives are stated by `Detection.DetectionsFollowBoxes` |
| Detection.Summarise | backend/main.py:58-99 | the summary keeps the image size, has one detection per box, a `cell_count` equal to the number of boxes, and exactly the three buckets |
| Detection.Classify | backend/main.py:81-86 | Small iff d < 50, Medium iff 50 <= d <= 150, Large iff d > 150; exactly one label |
| Detection.AnalyzeImage | backend/main.py:48-99 | an undecodable image gives its error and no model gives "Model not loaded", both with no detections; otherwise the two loops compute exactly the summary of the boxes |
| Detection.BucketsAddUp | backend/main.py:72-89 | Small + Medium + Large equals the number of final detections |
| Detection.CountIsLabelledPositions | backend/main.py:89 | each bucket is the number of detections carrying that label |
| Detection.SummaryIsConsistent | backend/main.py:72-98 | one detection per box, `cell_count` is their number, the distribution has exactly the three buckets and they add up to `cell_count` |
| Detection.SummaryBucketsCountLabels | backend/main.py:89-98 | each bucket of the summary counts the summary's detections with that label |
| Detection.DetectionsFollowBoxes | backend/main.py:58-96 | detection i keeps box i's x, y; w = x2 - x1, h = y2 - y1, area = w*h; diameter is the larger side; the label follows the size rule |
| Detection.SumBounds | backend/main.py:99 | the total area lies between n times the smallest and n times the largest area |
| Detection.QuotientBounds | backend/main.py:99 | dividing such a total by n gives a value between the bounds |
| Detection.AverageSizeBetweenAreas | backend/main.py:99 | `avg_size` is 0 without boxes, otherwise total area over the count, and lies between the smallest and largest area |
| Detection.DetectionJson | backend/main.py:91-96 | a detection's JSON object has exactly the keys x, y, w, h, area, diameter and size, and reading each back gives the detection's value (the label by name) |
| Detection.DetectionsJson | backend/main.py:105-112 | the reply's detection list has one JSON object per detection, in order |
| Detection.DistributionJson | backend/main.py:72-111 | `size_distribution` has exactly the keys Small, Medium and Large, each holding that label's count |
| Detection.ReplyJson | backend/main.py:48-119 | the reply is always an object, so truthy; an error reply has only `error`; an analysis reply has width, height, `cell_count`, `avg_size`, `size_distribution` and `detections`, each the summary's value |
| NewAnalysis.AppendBatchFiles | frontend/src/app/dashboard/new/page.tsx:466-478 | existing items stay as they are; each new file becomes an item after them with the shared defaults, a null result and edit mode off |
| NewAnalysis.RemoveBatchFile | frontend/src/app/dashboard/new/page.tsx:484 | exactly the items with that id are dropped; the rest keep their order and multiplicity |
| NewAnalysis.ToggleBatchEdit | frontend/src/app/dashboard/new/page.tsx:452-454 | same length; only `editMode` of the items with that id changes, to the given value |
| NewAnalysis.Locked | frontend/src/app/dashboard/new/page.tsx:828 | an item's inputs are disabled when it has a result and is not in edit mode; used by `NewAnalysis.UpdateBatchForm` |
| NewAnalysis.UpdateBatchForm | frontend/src/app/dashboard/new/page.tsx:820-828 | a locked item (result present, not editing) ignores input; otherwise only that item's four text fields change |
| NewAnalysis.ProcessAll | frontend/src/app/dashboard/new/page.tsx:508-522 | same length and order; items with a result are untouched, a returned analysis is stored and turns edit mode on, a thrown call leaves the item and the loop goes on |
| NewAnalysis.ShowBox | frontend/src/app/dashboard/new/page.tsx:184 | the filter test; on backend detections a label filter holds iff the box has that label (`EndToEnd.ShowBoxIsLabel`) |
| NewAnalysis.FilterBoxes | frontend/src/app/dashboard/new/page.tsx:184 | "All" keeps every box; any other filter keeps exactly the boxes with that size, in order |
| NewAnalysis.DetectionsOf | frontend/src/app/dashboard/new/page.tsx:181 | no boxes without a result or when the result has no detection array, as `result.detections` with an empty default; the result's detection array otherwise |
| NewAnalysis.StaticVisibleBoxes | frontend/src/app/dashboard/new/page.tsx:176-184 | no boxes when boxes are hidden; otherwise the filtered detections of the result |
| NewAnalysis.InspectorVisibleBoxes | frontend/src/app/dashboard/new/page.tsx:233 | the inspector's filtered boxes, none when it has no detection array |
| NewAnalysis.Zoom | frontend/src/app/dashboard/new/page.tsx:261-263 | "-" gives the larger of 0.5 and z - 0.5, "+" the smaller of 5 and z + 0.5; from [0.5, 5] a click stays in [0.5, 5] |
| NewAnalysis.ZoomStaysInRange | frontend/src/app/dashboard/new/page.tsx:228-263 | any sequence of clicks from a zoom in [0.5, 5] (the start is 1) stays in [0.5, 5] |
| NewAnalysis.ZoomStepsUndo | frontend/src/app/dashboard/new/page.tsx:261-263 | a corollary of `NewAnalysis.Zoom`: away from the bounds, "+" undoes "-" and "-" undoes "+" |
| NewAnalysis.Inspector.constructor | frontend/src/app/dashboard/new/page.tsx:227-228 | the inspector opens with filter "All" and zoom 1 |
| NewAnalysis.Inspector.Click | frontend/src/app/dashboard/new/page.tsx:261-263 | a click applies the clamped step and keeps the zoom in range |
| NewAnalysis.Inspector.SetFilter | frontend/src/app/dashboard/new/page.tsx:257-258 | the filter buttons set the filter |
| NewAnalysis.SingleImageName | frontend/src/app/dashboard/new/page.tsx:535 | the file's name when it has one, else "image"; never empty |
| NewAnalysis.AppendRows | frontend/src/app/dashboard/new/page.tsx:528-533 | the rows so far are kept, followed by one row per detection numbered from 1 |
| NewAnalysis.RowFor | frontend/src/app/dashboard/new/page.tsx:530-531 | one CSV line; all eight of its cells are stated by `NewAnalysis.RowsAreNumbered` |
| NewAnalysis.RowsFor | frontend/src/app/dashboard/new/page.tsx:528-532 | one row per detection of the result, none without a result or without a detection list |
| NewAnalysis.BatchRows | frontend/src/app/dashboard/new/page.tsx:536-539 | the batch export, image after image; its count is `NewAnalysis.BatchRowsCount` |
| NewAnalysis.BatchRowsSnoc | frontend/src/app/dashboard/new/page.tsx:536-539 | the rows of one more item come after the rows already exported |
| NewAnalysis.BatchRowsAppend | frontend/src/app/dashboard/new/page.tsx:536-539 | the export of two item lists one after the other is the export of the first followed by that of the second |
| NewAnalysis.AppendRowsIsRowsFor | frontend/src/app/dashboard/new/page.tsx:528-533 | what `appendRows` adds is the row list of that image |
| NewAnalysis.RowsAreNumbered | frontend/src/app/dashboard/new/page.tsx:530-531 | one row per detection; row k has id k+1, the image, drug and concentration, and the detection's size, area, width and height |
| NewAnalysis.BatchRowsCount | frontend/src/app/dashboard/new/page.tsx:536-539 | the batch export has exactly as many rows as there are detections over all items |
| NewAnalysis.BatchRowsSkipEmpty | frontend/src/app/dashboard/new/page.tsx:529-539 | items without detections add no rows: the export equals that of the items that have some |
| NewAnalysis.SinglePayload | frontend/src/app/dashboard/new/page.tsx:425-431 | the name defaults to "Untitled Project"; empty drug, concentration and description become null; the result is sent iff there is one |
| NewAnalysis.NewAnalysisPage.constructor | frontend/src/app/dashboard/new/page.tsx:401-449 | the page starts on the single tab with no file or data, an empty unlocked form and an empty batch |
| NewAnalysis.NewAnalysisPage.SetActiveTab | frontend/src/app/dashboard/new/page.tsx:662-663 | the tab buttons select the tab |
| NewAnalysis.NewAnalysisPage.SelectSingleFile | frontend/src/app/dashboard/new/page.tsx:457-464 | a new upload sets the file, clears the data and unlocks the form; no file changes nothing |
| NewAnalysis.NewAnalysisPage.ClearSingleFile | frontend/src/app/dashboard/new/page.tsx:689 | removing the file clears the file and the data |
| NewAnalysis.NewAnalysisPage.EditSingleForm | frontend/src/app/dashboard/new/page.tsx:676 | the form takes input only while editing |
| NewAnalysis.NewAnalysisPage.EnableSingleEdit | frontend/src/app/dashboard/new/page.tsx:719-721 | the edit button unlocks the form |
| NewAnalysis.NewAnalysisPage.ProcessSingle | frontend/src/app/dashboard/new/page.tsx:496-505 | with a file, a returned analysis is shown and unlocks the form; no file or a thrown call changes nothing |
| NewAnalysis.NewAnalysisPage.SaveSingleProject | frontend/src/app/dashboard/new/page.tsx:418-445 | posts the single payload; a successful save locks the form and sets success, a failed one leaves the flag and clears success |
| NewAnalysis.NewAnalysisPage.EditBatchDefaults | frontend/src/app/dashboard/new/page.tsx:755 | the shared form sets the defaults |
| NewAnalysis.NewAnalysisPage.SelectBatchFiles | frontend/src/app/dashboard/new/page.tsx:457-479 | the batch becomes the old batch with the new files appended |
| NewAnalysis.NewAnalysisPage.RemoveBatch | frontend/src/app/dashboard/new/page.tsx:484 | the batch loses the items with that id |
| NewAnalysis.NewAnalysisPage.ToggleEdit | frontend/src/app/dashboard/new/page.tsx:452-454 | the batch with that item's edit mode set |
| NewAnalysis.NewAnalysisPage.EditBatchForm | frontend/src/app/dashboard/new/page.tsx:820-828 | the batch with that item's form updated unless it is locked |
| NewAnalysis.NewAnalysisPage.ProcessBatch | frontend/src/app/dashboard/new/page.tsx:508-522 | the batch after "process all" |
| NewAnalysis.NewAnalysisPage.ExportCsv | frontend/src/app/dashboard/new/page.tsx:526-540 | single tab without a result exports nothing; otherwise the header followed by the rows of the single image or of every batch item in order |
| History.Search | frontend/src/app/dashboard/history/page.tsx:121-124 | keeps, in order, exactly the projects whose name or non-empty drug name contains the query, ignoring case |
| History.Matches | frontend/src/app/dashboard/history/page.tsx:121-124 | the search test; stated through `Text.Includes` by `History.MatchesIff` |
| History.HistoryPage.Visible | frontend/src/app/dashboard/history/page.tsx:121-124 | the rows on screen: in list order, exactly the loaded projects that match the current query, each as often as it is loaded |
| History.MatchesIff | frontend/src/app/dashboard/history/page.tsx:121-124 | a project matches iff the lower-cased query occurs in its lower-cased name or in its non-empty drug name |
| History.SearchEmptyQuery | frontend/src/app/dashboard/history/page.tsx:121-124 | an empty query keeps every project |
| History.SearchIgnoresCase | frontend/src/app/dashboard/history/page.tsx:122-123 | searching for a query or its lower case gives the same list |
| History.ParseResult | frontend/src/app/dashboard/history/page.tsx:60-63 | null for a null or empty result and for text that does not parse, the parsed value otherwise |
| History.DistributionOf | frontend/src/app/dashboard/history/page.tsx:166 | the result's distribution, or all-zero buckets when it has none |
| History.BucketValue | frontend/src/app/dashboard/history/page.tsx:167 | a bucket read with a default of 0: a non-zero number as it is, 0 for a missing, falsy or non-numeric bucket |
| History.DistributionTotal | frontend/src/app/dashboard/history/page.tsx:166-167 | the bucket sum with missing buckets as 0, or 1 when that is 0; never 0 |
| History.DistributionTotalBounds | frontend/src/app/dashboard/history/page.tsx:166-167 | with whole-number buckets the total is at least 1 and at least each bucket |
| History.MissingDistributionTotal | frontend/src/app/dashboard/history/page.tsx:166-167 | a result without distribution has bucket sum 0 and total 1 |
| History.EditFormFor | frontend/src/app/dashboard/history/page.tsx:65-73 | the name as it is; null drug, concentration and description read as "" |
| History.SavePayload | frontend/src/app/dashboard/history/page.tsx:85-91 | empty drug, concentration and description become null, others are sent as typed; the stored result is sent unchanged |
| History.UneditedSaveKeepsProject | frontend/src/app/dashboard/history/page.tsx:65-91 | opening the editor and saving untouched sends the project's own fields back |
| History.RemoveProject | frontend/src/app/dashboard/history/page.tsx:111 | exactly the projects with that id are removed; the rest keep their order |
| History.AtMostOneEditing | frontend/src/app/dashboard/history/page.tsx:165 | a stepping stone: with distinct ids, at most one row is in editing state (the mock store does not guarantee distinct ids) |
| History.HistoryPage.constructor | frontend/src/app/dashboard/history/page.tsx:28-33 | no projects, nobody editing, an empty form and query |
| History.HistoryPage.FetchProjects | frontend/src/app/dashboard/history/page.tsx:40-51 | only an array response replaces the list |
| History.HistoryPage.SetSearchQuery | frontend/src/app/dashboard/history/page.tsx:144 | the search box sets the query |
| History.HistoryPage.StartEdit | frontend/src/app/dashboard/history/page.tsx:65-73 | the project becomes the one being edited, with its form |
| History.HistoryPage.EditField | frontend/src/app/dashboard/history/page.tsx:180 | typing replaces the edit form |
| History.HistoryPage.CancelEdit | frontend/src/app/dashboard/history/page.tsx:75-77 | nobody is editing |
| History.HistoryPage.SaveEdit | frontend/src/app/dashboard/history/page.tsx:79-104 | sends the payload; success clears editing and reloads the list; failure leaves editing and the list as they were |
| History.HistoryPage.DeleteProject | frontend/src/app/dashboard/history/page.tsx:106-118 | a confirmed, successful delete removes exactly that project; a declined confirm or failed response changes nothing |
| Text.Lower | frontend/src/app/dashboard/history/page.tsx:122-123 | same length, each character lower-cased |
| Text.IncludesIff | frontend/src/app/dashboard/history/page.tsx:122-123 | `includes` holds iff the query occurs at some position |
| Text.LowerIdempotent | frontend/src/app/dashboard/history/page.tsx:122-123 | lower-casing twice is lower-casing once |
| ProjectRecord.NullIfEmpty | frontend/src/app/dashboard/history/page.tsx:87-89 | null iff the field is empty, the field otherwise |
| ProjectRecord.OrEmpty | frontend/src/app/dashboard/history/page.tsx:69-71 | the value, or "" for null |
| ProjectRecord.BodyJson | frontend/src/app/dashboard/new/page.tsx:425-431 | the request body has exactly the keys name, drugName, concentration, description and result; the name is a string and each other field its string or null |
| ProjectRecord.NullIfEmptyOrEmpty | frontend/src/app/dashboard/history/page.tsx:69-89 | reading a nullable field into the form and back gives it unchanged, except "" becomes null |
| Dashboard.GetCellCount | frontend/src/app/dashboard/page.tsx:33-36 | "-" for a null or empty result, for text that does not parse, for null and for a falsy count; a truthy count as it is; never empty |
| Dashboard.ZeroCountShowsDash | frontend/src/app/dashboard/page.tsx:35 | a count of 0 or a missing count shows "-" |
| Dashboard.LoadedProjects | frontend/src/app/dashboard/page.tsx:17-28 | the array response, or the empty list for anything else |
| Dashboard.TodayCount | frontend/src/app/dashboard/page.tsx:30-31 | the number of list positions holding a project whose day is today; hence at most the number of projects, all of them iff every one is from today, 0 iff none is |
| Dashboard.TodayPositions | frontend/src/app/dashboard/page.tsx:30-31 | the length of the filtered list is the number of positions holding a project of today |
| Dashboard.NothingLoadedNothingToday | frontend/src/app/dashboard/page.tsx:24-31 | a non-array response gives a today count of 0 |
| Dashboard.Recent | frontend/src/app/dashboard/page.tsx:113 | the first min(10, n) projects in list order |
| Dashboard.NewestHeadsRecent | frontend/src/app/dashboard/page.tsx:113 | a project put first heads the table, followed by the table of the others |
| ProjectsRoute.GeneratedId | frontend/src/app/api/projects/route.ts:36 | a generated id is a whole number from 100 to 10099 |
| ProjectsRoute.SpreadFields | frontend/src/app/api/projects/route.ts:37 | an object body contributes all its fields |
| ProjectsRoute.NewRecord | frontend/src/app/api/projects/route.ts:35-39 | the record has the body's fields plus id and createdAt; createdAt is always the server's; a body id wins over the generated one |
| ProjectsRoute.GeneratedIdCanRepeatSeed | frontend/src/app/api/projects/route.ts:36 | a draw of 0.0001 generates the seed's id 101, so the store can hold two records with the same id |
| ProjectsRoute.SeedRecord | frontend/src/app/api/projects/route.ts:4-22 | the seeded project has id 101 and the example result |
| ProjectsRoute.MockDb.constructor | frontend/src/app/api/projects/route.ts:4-22 | the store starts with exactly the seeded project |
| ProjectsRoute.MockDb.Get | frontend/src/app/api/projects/route.ts:24-26 | GET returns the store as it is and changes nothing |
| ProjectsRoute.MockDb.Post | frontend/src/app/api/projects/route.ts:28-47 | a parsed body puts the new record first, before the old records in order, and returns it; an unparseable body gives 500 "Mock Save Failed" and changes nothing; a successful POST is one step of `ProjectsRoute.Prepended`, so `ProjectsRoute.PostsPrepend` describes any run of them |
| ProjectsRoute.PostsPrepend | frontend/src/app/api/projects/route.ts:42 | after n posts the store is the n new records newest first, then the earlier records unchanged |
| UserTable.FindByEmail | frontend/src/app/api/login/route.ts:8 | a user with that email when there is one, none iff nobody has it |
| UserTable.FindByEmailUnique | frontend/src/app/api/register/route.ts:11 | with unique emails the lookup finds exactly the user with that email |
| LoginRoute.ViewOf | frontend/src/app/api/login/route.ts:14 | the reply carries the user's id, name and email and no password |
| LoginRoute.Login | frontend/src/app/api/login/route.ts:5-17 | an unknown email or a wrong password gives 401; matching credentials give the user's view; an unparseable body gives 500 |
| LoginRoute.LoginIff | frontend/src/app/api/login/route.ts:8-14 | with unique emails, login succeeds iff a user has both email and password, and returns that user |
| LoginRoute.LoginFailureIsUniform | frontend/src/app/api/login/route.ts:10-11 | every rejection of a parsed body is the same 401 |
| RegisterRoute.Register | frontend/src/app/api/register/route.ts:5-21 | a taken email gives 400 and an unparseable body 500, both leaving the table; a new email appends one user with the given fields and returns it; existing users are untouched and emails stay unique |
| RegisterRoute.RegisterAllKeepsUnique | frontend/src/app/api/register/route.ts:11-17 | after any sequence of registrations emails are unique and the earlier users are still in place |
| RegisterRoute.RegisteredCanLogIn | frontend/src/app/api/register/route.ts:15-18 | a just-registered user logs in with the same email and password |
| RegisterRoute.UserStore.HandleRegister | frontend/src/app/api/register/route.ts:5-21 | the store changes as `Register` says and keeps emails unique |
| EndToEnd.ShowBoxIsLabel | frontend/src/app/dashboard/new/page.tsx:184 | a size filter shows a backend detection iff it carries that label |
| EndToEnd.LabelFilterIsFilter | frontend/src/app/dashboard/new/page.tsx:184 | a stepping stone: a label filter is the plain filter by the overlay test |
| EndToEnd.OneBoxShown | frontend/src/app/dashboard/new/page.tsx:184 | a stepping stone: a single backend box is kept iff it carries the label |
| EndToEnd.ShownCountIsCount | frontend/src/app/dashboard/new/page.tsx:184 | filtering by a label keeps as many boxes as carry it |
| EndToEnd.DetectionsOfReply | frontend/src/app/dashboard/new/page.tsx:181 | a stepping stone: the page's detection list of a reply is the backend's list |
| EndToEnd.DetectionsJsonSnoc | backend/main.py:105-112 | a stepping stone: the JSON list of one more detection ends with that detection's object |
| EndToEnd.StaticPanelsMatchBuckets | frontend/src/app/dashboard/new/page.tsx:184-196 | the n= of each size panel is that bucket; the All panel shows `cell_count` boxes |
| EndToEnd.CsvRowsOfAnalysis | frontend/src/app/dashboard/new/page.tsx:528-531 | an analysed image exports `cell_count` rows numbered from 1 with the backend's labels |
| EndToEnd.ErrorReplyHasNoBoxes | frontend/src/app/dashboard/new/page.tsx:512-516 | the error reply shows no boxes and exports no rows, yet counts as a result; its history total is 1 |
| EndToEnd.BucketReadBack | frontend/src/app/dashboard/history/page.tsx:167 | a stepping stone: the history page reads each bucket of the backend's distribution back as its count |
| EndToEnd.HistoryTotalOfAnalysis | frontend/src/app/dashboard/history/page.tsx:166-167 | the history bar of a stored analysis divides by its detection count, or 1 |
| EndToEnd.DashboardCountOfAnalysis | frontend/src/app/dashboard/page.tsx:33-36 | the overview shows a saved analysis's detection count, or "-" when it has none |
| EndToEnd.SeedResultIsConsistent | frontend/src/app/api/projects/route.ts:12-20 | the seeded buckets add up to its `cell_count` of 125 |
| EndToEnd.SavedSingleProjectRecord | frontend/src/app/api/projects/route.ts:35-39 | a project saved from the single tab is stored with a generated id, a non-empty name and the server's time |

## Left out

- The detector, image decoding and base64 encoding are outside the model. The boxes and `modelLoaded` are inputs; a decode failure is the `Undecodable` upload.
- `confluence`, `original_image` and `processed_image` are not in the modelled reply. The confluence is a floating-point percentage of the pixel count; the other two are image encodings.
- `round(..., 2)` on area, diameter and `avg_size` is not modelled; the quantities are exact reals.
- `max_size_ref` (`backend/main.py:69`) is computed but never used.
- The general exception path of the backend is modelled only for decoding. An image with no pixels would make the confluence division by `img_h * img_w` raise; the model counts such an upload as `Undecodable`, so `Decoded` carries positive sides (`Detection.Pixels`).
- Detection.AnalyzeImage: for an image with no pixels and no model loaded, the endpoint answers "Model not loaded" before it divides; the model reports that upload's error instead.
- NewAnalysis.RowFor: the CSV text itself is not built. `toFixed(2)` formatting, commas inside fields, `encodeURI` and the download link are left out. A row keeps the values it is printed from. `toFixed` throwing on a non-numeric width is not modelled.
- NewAnalysis.DetectionsOf: a truthy `detections` that is not an array throws in the page; the model treats it as no detections.
- NewAnalysis.ShowBox: reading `d.size` of a null or undefined detection throws in the page under a filter other than "All"; the model reads it as undefined and hides that box.
- NewAnalysis.RowFor: the CSV export throws at `d.size` on a null or undefined detection; the model gives a row with undefined cells.
- NewAnalysis.InspectorVisibleBoxes: a truthy `detections` prop that is not an array makes `detections.filter` throw; the model draws no boxes.
- NewAnalysis.ProcessAll: `updatedFiles` is a shallow copy. The page's item objects are mutated in place and shared with the old state; the model builds new values, so that aliasing is not captured. Each call's outcome is a parameter of the item's index and file.
- NewAnalysis.NewAnalysisPage.SaveSingleProject: the `setTimeout` that clears `saveSuccess` after 3 s is not modelled.
- The `isSaving` and `isProcessing` flags, the loading modal and the alerts are not modelled.
- The save and process buttons are disabled while editing is off or a request runs. These are UI preconditions and are not stated.
- Dragging and panning in the inspector follow the mouse and hold no logic to prove.
- Stroke widths, view boxes and the charts are not modelled. This includes the `barData` averaging and `parseFloat` sort of `SummaryCharts`.
- The new-analysis result card has its own distribution bar (`new/page.tsx:307-308`), which is rendering only.
- Text.Lower: `toLowerCase` is modelled for ASCII letters only; other characters are their own lower case.
- History.BucketValue: a bucket that is truthy but not a number (a string, say) is counted as 0. JavaScript would concatenate or coerce it.
- History.HistoryPage.SaveEdit: the reload after a successful save is not awaited in the page. The model applies its response in the same step.
- History.AtMostOneEditing: the mock store does not keep ids distinct. A generated id can equal the seed's 101 (`ProjectsRoute.GeneratedIdCanRepeatSeed`), two generated ids can coincide, and a body `id` replaces the generated one. On such a list every row with the editing id shows the edit form and `History.RemoveProject` drops all of them; the lemma holds only for lists with distinct ids.
- ProjectsRoute.SpreadFields: spreading a string or array body copies index keys in JavaScript; the model gives no fields for them.
- The 800 ms delay of POST is not modelled.
- The seeded `createdAt` and every request's clock are parameters.
- The analysis proxy (`api/analyze/route.ts`) only forwards the request. It is not part of this model.
- The `[id]` update and delete route (`api/projects/[id]/route.ts`) is not part of this model. Its outcome is a parameter of the pages' save and delete.
- Prisma's own errors are not modelled; the one error case is an unparseable body (500). A body that parses to JSON `null` throws at the destructuring, and a body without a string `email` makes the user lookup throw; both end in the routes' 500. The model counts every body that does not carry the expected strings as `None` (the 500), since `Credentials` and `RegisterRequest` hold strings. This differs from the route for a login body with a string email and a non-string password, which the route rejects with the 401. The user table's id sequence is `nextId`.
- The register reply is the created row, including its password, as the route returns it.
- The login and register pages, the landing page, the settings page and the layouts are not part of this model. They only write `localStorage`, toggle classes or render.
