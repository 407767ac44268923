# NSV Insight Navigator: a Dafny model of the dashboard's page logic

The dashboard shows pavement-distress survey data on a few pages. Almost all
of it is layout over hardcoded data. This project models the parts that are
sequential logic, and proves properties of them:

- **Video/map page** (`video_map_viewer.dfy`, module `VideoMapViewer`).
  Distress records are shown when neither their lower-cased type toggle nor
  their lower-cased severity toggle is explicitly `false`. A missing key
  counts as shown (fail-open). The checkboxes rewrite one key of the toggle
  map. The Quick Stats card counts the shown records by severity. Two
  switches map a severity to a marker colour and to a badge variant. The
  filter is a recursive function over `seq`. The page's toggle state is a
  class whose field `filters: map<string, bool>` the checkbox handler
  reassigns.
- **Inspector-notes page** (`inspector_notes.dfy`, module `InspectorNotes`).
  A note is listed when the lower-cased search term is a substring of its
  lower-cased title, content or location. The new-note form is a class. Its
  field handlers replace one field, and its save handler either rejects an
  incomplete note or resets the form. Either way it emits exactly one toast.
  The save transition is the pure function `SaveNote`, and the method is
  proved against it.
- **Data-upload page** (`data_upload.dfy`, module `DataUpload`). Choosing a
  file starts a simulated upload. A repeating timer adds 10 to the progress
  on each tick. The tick after progress reaches 100 enters success, clears
  the timer and emits one toast. The page is a class with the fields
  `status`, `progress`, `timer` and `selectedFiles`. Its methods are proved
  against the pure transitions `StartUpload`, `OnFileInput` and `Tick`.
  `Run` (n timer periods) and `Replay` (any sequence of page events) carry
  the timeline and reachability lemmas.
- Shared modules: `Common` (option, toast), `Text` (ASCII lower-casing and
  `includes` as substring containment) and `Subsequences` (order-preserving
  subsequence, which is what a stable filter produces).

Toasts are values. A page method appends the toast it emits to a `toasts`
log, so "exactly one notification" is a statement about that log. The
timer's 200 ms period is left out: each firing of the callback is one
`IntervalTick` call, or one `IntervalPeriod` event in `Replay`.

Three behaviours of the code that a reader might not expect. The model keeps
each of them as written:
- Saving a note does not add it to the list. The handler only emits the
  success toast and resets the form, and the listed notes are a fixed array.
  `InspectorNotes.Page.HandleSaveNote` leaves `existingNotes` as it is.
- The upload status `"error"` is declared but never assigned. `Error` is a
  constructor of `Status`, and `ReachableStatesSatisfyInv` proves that no
  sequence of events reaches it.
- The Quick Stats counts compare the severity case-sensitively (`=== "High"`),
  while the filter lower-cases it. A record with severity `"high"` is hidden
  by the "high" checkbox but is not counted as High. The model keeps both
  comparisons as written.

## Model

| member | source | states |
|---|---|---|
| `VideoMapViewer.FilterRecords` | src/pages/VideoMapViewer.tsx:48-52 | a record is in the filtered list iff it is in the input and the toggles for its lower-cased type and lower-cased severity are both not explicitly false; the list is no longer than the input |
| `VideoMapViewer.HiddenOnlyByExplicitFalse` | src/pages/VideoMapViewer.tsx:49-51 | fail-open: a record is hidden iff one of its two lower-cased keys is present with value false; a record whose keys are both missing is shown |
| `VideoMapViewer.FilterRecordsIsSubsequence` | src/pages/VideoMapViewer.tsx:48 | the filter is stable: its output is an order-preserving subsequence of the input |
| `VideoMapViewer.FilterRecordsMultiplicity` | src/pages/VideoMapViewer.tsx:48-52 | every occurrence of a visible record is kept and every occurrence of a hidden one dropped, so duplicates in the input survive as `Array.prototype.filter` keeps them |
| `VideoMapViewer.FilterRecordsIdempotent` | src/pages/VideoMapViewer.tsx:48-52 | filtering the filtered list again with the same toggles gives the same list |
| `VideoMapViewer.NoToggleOffShowsAll` | src/pages/VideoMapViewer.tsx:48-52 | when no toggle is false, the filter returns its input unchanged |
| `VideoMapViewer.InitialFiltersShowAll` | src/pages/VideoMapViewer.tsx:13-20 | with the six initial all-true toggles every record is shown, in order |
| `VideoMapViewer.UntickOnlyHides` | src/pages/VideoMapViewer.tsx:49-50 | setting one toggle to false yields a subsequence of the previous list, and removes exactly the records with that key as lower-cased type or severity |
| `VideoMapViewer.CountSeverity` | src/pages/VideoMapViewer.tsx:251 | the count of one severity is at most the list length, and is zero iff no record has that severity |
| `VideoMapViewer.HighOffMeansNoHighCount` | src/pages/VideoMapViewer.tsx:248-252 | with the "high" toggle false, the High Severity count over the filtered list is 0 |
| `VideoMapViewer.SeverityCountsSum` | src/pages/VideoMapViewer.tsx:246-263 | for any list, if every severity is High, Medium or Low then the three counts sum to the number of records |
| `VideoMapViewer.SeverityCountsAtMost` | src/pages/VideoMapViewer.tsx:246-263 | the three severity counts together never exceed the number of records |
| `VideoMapViewer.Stats` | src/pages/VideoMapViewer.tsx:243-265 | Total Markers is the filtered list's length and each severity count is the case-sensitive count of that severity in the filtered list; the High count is 0 while the "high" checkbox is off; the three counts sum to at most the total, and exactly to it when every filtered record has a known severity |
| `VideoMapViewer.SeverityColor` | src/pages/VideoMapViewer.tsx:30-37 | High, Medium and Low map to red, yellow and green, and each colour is produced only by its severity; any other string maps to grey |
| `VideoMapViewer.SeverityBadgeVariant` | src/pages/VideoMapViewer.tsx:39-46 | the badge is destructive iff the severity is High, secondary otherwise |
| `VideoMapViewer.CracksOffExample` | src/pages/VideoMapViewer.tsx:22-28 | with the cracks toggle false, the fixture's map shows the two Rutting records and the Roughness record, in order |
| `VideoMapViewer.Page.constructor` | src/pages/VideoMapViewer.tsx:13-20 | the page opens with the six toggles all true and the fixture records |
| `VideoMapViewer.Page.OnCheckedChange` | src/pages/VideoMapViewer.tsx:157-184 | a change of any of the six checkboxes (type ones at 157-164, severity ones at 177-184) sets only its key to the new value; every other key keeps its presence and value |
| `VideoMapViewer.Page.FilteredData` | src/pages/VideoMapViewer.tsx:48-52 | the markers drawn are the page's records visible under its current toggles |
| `VideoMapViewer.Page.QuickStatsCard` | src/pages/VideoMapViewer.tsx:243-265 | the Quick Stats total is the number of drawn markers and each severity count is the case-sensitive count of that severity among them; High is 0 while the "high" checkbox is off; the counts sum to at most the total, and exactly to it when every drawn marker has a known severity |
| `Text.Lower` | src/pages/InspectorNotes.tsx:67-69 | `toLowerCase` as used by the search and by the map filter (VideoMapViewer.tsx:49-50): the same length, no upper-case ASCII letter left, each A to Z letter replaced by its lower-case letter and every other character kept |
| `Text.Contains` | src/pages/InspectorNotes.tsx:67-69 | `includes` holds iff the query occurs at some index of the text |
| `InspectorNotes.FilterNotes` | src/pages/InspectorNotes.tsx:66-70 | a note is listed iff it is in the input and matches the query; the list is no longer than the input |
| `InspectorNotes.FilterNotesMembership` | src/pages/InspectorNotes.tsx:66-70 | a note is listed iff the lower-cased query occurs at some index of its lower-cased title, content or location |
| `InspectorNotes.FilterNotesMultiplicity` | src/pages/InspectorNotes.tsx:66-70 | every occurrence of a matching note is kept and every occurrence of another one dropped |
| `InspectorNotes.ExactOccurrenceIsListed` | src/pages/InspectorNotes.tsx:66-70 | a query that occurs exactly in a note's title, content or location always lists that note |
| `InspectorNotes.FilterNotesIsSubsequence` | src/pages/InspectorNotes.tsx:66 | the search keeps the notes' order: the result is an order-preserving subsequence |
| `InspectorNotes.EmptyQueryMatchesAll` | src/pages/InspectorNotes.tsx:66-70 | the empty query lists every note, in order |
| `InspectorNotes.SearchIgnoresCase` | src/pages/InspectorNotes.tsx:67-69 | searching for the lower-cased query gives the same list as the query itself |
| `InspectorNotes.SameLowerSameResult` | src/pages/InspectorNotes.tsx:67-69 | two queries with the same lower-case form give the same list |
| `InspectorNotes.LongerQueryNarrows` | src/pages/InspectorNotes.tsx:66-70 | if a query occurs, ignoring case, in a longer one, the longer query's results are an order-preserving subsequence of the shorter one's, and never more |
| `InspectorNotes.BridgeSearchExample` | src/pages/InspectorNotes.tsx:55-63 | searching the fixture for "bridge" lists the bridge approach note, and "BRIDGE" gives the same list |
| `InspectorNotes.SaveNote` | src/pages/InspectorNotes.tsx:72-94 | a save succeeds iff title and content are both non-empty; a rejected save keeps the form and emits a destructive toast; a successful one resets the form to "", "", "", "Medium" whatever the location was, with a default toast |
| `InspectorNotes.SaveAgainIsRejected` | src/pages/InspectorNotes.tsx:87-93 | after a successful save, saving again is rejected and leaves the empty form |
| `InspectorNotes.PriorityColor` | src/pages/InspectorNotes.tsx:96-103 | High, Medium and Low map to three distinct classes, each produced only by its priority; any other string maps to the grey default |
| `InspectorNotes.EmptyListMessage` | src/pages/InspectorNotes.tsx:270-277 | the "no notes" card appears iff the search lists nothing, and never for an empty query over a non-empty list; it reads "No notes match your search criteria." when a query is typed and "Start by adding your first inspection note." when none is |
| `InspectorNotes.Page.constructor` | src/pages/InspectorNotes.tsx:14-20 | the form opens as "", "", "", "Medium" with an empty search and no toasts |
| `InspectorNotes.Page.EditTitle` | src/pages/InspectorNotes.tsx:129 | a title edit replaces only the title |
| `InspectorNotes.Page.EditLocation` | src/pages/InspectorNotes.tsx:139 | a location edit replaces only the location |
| `InspectorNotes.Page.EditPriority` | src/pages/InspectorNotes.tsx:149 | a priority change replaces only the priority |
| `InspectorNotes.Page.EditContent` | src/pages/InspectorNotes.tsx:164 | a content edit replaces only the content |
| `InspectorNotes.Page.EditSearch` | src/pages/InspectorNotes.tsx:202 | typing in the search box sets only the search term |
| `InspectorNotes.Page.HandleSaveNote` | src/pages/InspectorNotes.tsx:72-94 | exactly one toast is appended; with an empty title or content the form is unchanged and the toast is "Incomplete Note"; otherwise the toast is "Note Saved" and the form is reset |
| `InspectorNotes.Page.FilteredNotes` | src/pages/InspectorNotes.tsx:66-70 | the listed notes are the page's notes matching its search term |
| `DataUpload.Select` | src/pages/DataUpload.tsx:22 | the chosen file goes into its input's slot and the other slot keeps its file |
| `DataUpload.StartUpload` | src/pages/DataUpload.tsx:21-28 | starting an upload sets status uploading and progress 0, starts a timer for the file, stores the file in its slot and leaves the other slot; the result satisfies the invariant from any state |
| `DataUpload.OnFileInput` | src/pages/DataUpload.tsx:78-126 | either file input (the report one at 78-81, the video one at 123-126): an upload starts only when a file was chosen, and with the first chosen file; the invariant is preserved |
| `DataUpload.Tick` | src/pages/DataUpload.tsx:28-41 | a tick below 100 adds exactly 10 and changes nothing else; a tick at 100 or more sets progress 100, status success, stops the timer and emits one toast naming the file; the invariant is preserved |
| `DataUpload.Run` | src/pages/DataUpload.tsx:28-41 | over any number of timer periods at most one toast is emitted; once the timer is stopped nothing changes; the invariant is preserved |
| `DataUpload.RunFromProgress` | src/pages/DataUpload.tsx:30-39 | from progress p (a multiple of 10, at most 100) the first (100 - p) / 10 ticks add 10 each with no toast, and every later count of periods ends in success at exactly 100 with exactly one toast |
| `DataUpload.UploadTimeline` | src/pages/DataUpload.tsx:21-42 | after starting an upload, for n up to 10 ticks progress is 10n, the progress card is shown and View on Map is disabled; from 11 ticks on the status is success at 100, the timer is stopped, exactly one toast was emitted, View on Map is enabled and the file's check mark is shown |
| `DataUpload.Apply` | src/pages/DataUpload.tsx:28-41 | one page event (a file input change as at 78-81 and 123-126, or a timer period): it keeps the invariant, a period after the interval is cleared changes nothing, a chosen file starts an upload at 0, and the page stays idle exactly until an upload starts |
| `DataUpload.Replay` | src/pages/DataUpload.tsx:13-42 | after any sequence of events from the opening state, the page is idle iff no event started an upload, and then it is still in the opening state |
| `DataUpload.ProgressCardWhileTimerLive` | src/pages/DataUpload.tsx:153 | in every state satisfying the invariant the progress card is shown iff the interval is live, and never with View on Map enabled |
| `DataUpload.ViewOnMapOnlyAfterUpload` | src/pages/DataUpload.tsx:244 | in every state satisfying the invariant View on Map is enabled only at progress 100 with the interval cleared, and is disabled while idle |
| `DataUpload.FileCheckOnlyAfterUpload` | src/pages/DataUpload.tsx:87-91 | the check mark beside a file name (also 132-136 for the video input) shows only for a chosen file once progress is 100, and choosing a new file hides both check marks |
| `DataUpload.InitialSatisfiesInv` | src/pages/DataUpload.tsx:13-18 | the opening state (idle, 0, no files, no timer) satisfies the invariant |
| `DataUpload.ReachableStatesSatisfyInv` | src/pages/DataUpload.tsx:13-42 | every state reachable by file choices and timer periods satisfies the invariant: progress stays in [0, 100] and the error status is never entered |
| `DataUpload.Page.constructor` | src/pages/DataUpload.tsx:13-18 | the page opens idle at 0 with no files, no timer and no toasts |
| `DataUpload.Page.HandleFileUpload` | src/pages/DataUpload.tsx:21-42 | the new state is `StartUpload` of the old one and no toast is emitted |
| `DataUpload.Page.OnFileInputChange` | src/pages/DataUpload.tsx:78-126 | a change of either file input (78-81, 123-126): the new state is `OnFileInput` of the old one, no toast is emitted, and the invariant is preserved |
| `DataUpload.Page.IntervalTick` | src/pages/DataUpload.tsx:28-41 | the new state and the toasts are those of `Tick`: below 100 progress grows by 10; otherwise progress is 100, status is success, the timer is stopped and one success toast is appended; the files are untouched |

## Left out

- `Lower` folds only the ASCII letters A to Z. JavaScript's `toLowerCase` folds all of Unicode.
- `DataUpload.Page.HandleFileUpload`: choosing a file while a timer is still live starts a second interval in the page, and both then tick. The model keeps one timer, the new one, so interleaved ticks of two intervals are not modelled.
- The 200 ms period of the interval is not modelled. A tick is one call, with no real time.
- React may call a state updater twice in development mode. The tick's toast and `clearInterval` sit inside such an updater; the model runs each updater once.
- Toasts are kept as values in a log, and the toast surface itself is not modelled. The navigation calls (`window.location.href` for View on Map and View Summary Report) are left out. Only whether View on Map is disabled is modelled.
- A `File` is modelled by its name only. An absent file list (`files` is null) is modelled as an empty list.
- The toggle values are booleans. The checkbox component's third "indeterminate" state is never produced, because each checkbox is controlled by a boolean.
- Latitude and longitude are `real`. The page formats them with `toFixed(4)`, and that formatting is not modelled.
- Play/pause, marker selection and the markers' CSS positions are display-only state, so they are left out. So are note tags, the Edit/Share/Filter buttons and the quick-action buttons, which have no handlers.
- The summary-report page, the landing page and the router (`src/pages/DistressSummary.tsx`, `src/pages/Index.tsx`, `src/App.tsx`) hold no logic beyond fixture data and navigation. They are not part of this model.
