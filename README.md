# ShutterCut core, modelled in Dafny

ShutterCut is a mobile video editor with a small render backend. The editor screen
holds a list of overlay records (text, image, video) over a base video. The user adds,
drags, edits and deletes overlays, then exports. Export uploads the video, the overlay
assets and a JSON metadata array, then polls the backend until the job completes,
fails or times out. The backend keeps an in-memory job table and renders in the
background: it builds an ffmpeg filtergraph from the metadata, one linear chain of
`drawtext`/`overlay` filters labelled `[v1]`, `[v2]`, …, and runs ffmpeg.

This project models that core and proves what it promises.

| module (file) | what it models | form |
|---|---|---|
| `Wrappers` (wrappers.dfy) | `Option` | datatype |
| `Strings` (strings.dfy) | decimal text of integers and floats, `join`, `replace` | functions and lemmas |
| `Wire` (wire.dfy) | one overlay's JSON metadata entry; a missing key is `None` | datatype |
| `EditorStore` (editor_store.dfy) | the overlay records; add, merge-by-id, find, delete; inspector edits; the export projection | functions and lemmas |
| `Polling` (polling.dfy) | one tick of the status poll and runs of ticks | functions and lemmas |
| `EditorScreen` (editor_screen.dfy) | the screen's state and handlers | class `Screen`, whose methods assign its fields |
| `OverlayItem` (overlay_item.dfy) | the overlay component: size rules, touch start, drag and release | functions; classes `Gesture` and `TrackingGesture` |
| `Rendering` (rendering.dfy) | `build_filter_complex` and the ffmpeg argument vector of `render_video` | a structured specification (`Build`) plus the source's loop as a method proved equal to it |
| `Jobs` (jobs.dfy) | the job table and the endpoints that read and write it | class `JobTable` over a `map` |
| `DebugOverlay` (debug_overlay.dfy) | the debugging script: the content rewrite, the image-only builder and its scenario | in-place array loop; builder loop |
| `Pipeline` (pipeline.dfy) | how the pieces meet: saved files → renderer inputs, metadata → lookups, job status → poll | lemmas |

How the main pieces are modelled:
- **Numbers.** JSON and JavaScript numbers are exact `real`s. Python's `int()` is truncation toward zero (`Rendering.Trunc`).
- **Filtergraph.** The loop builds `Filter` records and joins their texts, `Rendering.FilterText`, once at the end. Each record is printed exactly as the source's f-string prints that filter.
- **Poll.** One tick of the two-second interval is one atomic step. The status reply is a parameter.
- **Picker and ids.** Picker results, server responses and fresh ids (`Date.now()`, `uuid4`) are parameters.
- **Alerts.** An alert is recorded in the screen's `alert` field, which holds the last alert shown.

How the code behaves in places where a reader might expect otherwise. The model follows the code in each case:
- **The "start later" control has no upper bound.** Pressing it can put the start at or past the end (`EditorStore.StartLaterCanPassEnd`). Every other timing control keeps `0 <= start < end`.
- **Export without a base video is silent.** It sends nothing and sets no error (`EditorScreen.Screen.HandleSubmit`).
- **A video can only be picked while none is loaded.** The picker placeholder is drawn only while there is no base video, and nothing clears the base video again. So `pickVideo`'s resets of the overlays, the job id and the download address only ever clear state that is already empty.
- **A rejected upload never shows the server's message.** The backend puts its 400 and 500 messages under the key `error`. The editor shows `detail`, falling back to the error's own message, so the server's text is never shown.
- **Editing coordinates are sent unchanged.** Positions, sizes and font sizes go to the backend exactly as edited. No display-to-source coordinate transform exists.
- **Overlay videos never play.** They are created with `shouldPlay={false}`, and no playback synchronisation exists.

## Model

| member | source | states |
|---|---|---|
| EditorStore.NewTextOverlay | frontend/src/screens/EditorScreen.js:48-58 | a new text record has the given id, kind text, position (50, 50), window 0–5 s, the text "Hello World" in `#FFFFFF` at size 24, and no uri or size |
| EditorStore.NewAssetOverlay | frontend/src/screens/EditorScreen.js:72-107 | a picked asset's record has position (50, 50), window 0–5 s and the preview uri; its content is the picked name when non-empty, otherwise `image.png` or `video.mp4` by kind; it has no colour, font size or size |
| EditorStore.Merge | frontend/src/screens/EditorScreen.js:115 | merging an update never changes the id, the kind or the preview uri |
| EditorStore.MergeIdempotent | frontend/src/screens/EditorScreen.js:115 | merging the same update twice equals merging it once |
| EditorStore.MergeNothing | frontend/src/screens/EditorScreen.js:115 | an update with no keys leaves the record unchanged |
| EditorStore.UpdateOverlay | frontend/src/screens/EditorScreen.js:113-117 | updateOverlay keeps the list's length and every record's id and kind in place |
| EditorStore.UpdateOverlayAt | frontend/src/screens/EditorScreen.js:113-117 | records with another id are unchanged; records with the id are merged |
| EditorStore.UpdateOverlayNoMatch | frontend/src/screens/EditorScreen.js:113-117 | an update for an id no record carries is a no-op |
| EditorStore.Find | frontend/src/screens/EditorScreen.js:286 | find returns a record of the list with that id, and returns nothing exactly when no record has it |
| EditorStore.FindFirst | frontend/src/screens/EditorScreen.js:286 | find returns the record at the first index carrying the id |
| EditorStore.FindAfterUpdate | frontend/src/screens/EditorScreen.js:286 | after an update, the inspector finds the merged record |
| EditorStore.DeleteById | frontend/src/screens/EditorScreen.js:294 | after delete, no record carries the id, and the list is no longer |
| EditorStore.DeleteByIdAppend | frontend/src/screens/EditorScreen.js:294 | delete distributes over concatenation, so the survivors keep their relative order |
| EditorStore.DeleteByIdMembers | frontend/src/screens/EditorScreen.js:294 | a record survives exactly when it is in the list and has another id |
| EditorStore.DeleteByIdNoMatch | frontend/src/screens/EditorScreen.js:294 | deleting an id no record carries changes nothing |
| EditorStore.FontEditsClamp | frontend/src/screens/EditorScreen.js:313-318 | "smaller" never goes under 12 and "larger" never over 72; a size in [12, 72] stays there; the default 24 goes to 26 |
| EditorStore.SizeEditsClamp | frontend/src/screens/EditorScreen.js:341-357 | the size buttons set width and height together, never under 50 and never over 400, and keep both in [50, 400] once there |
| EditorStore.SizeDefaults | frontend/src/screens/EditorScreen.js:339-357 | an image starts at side 100 and a video at 150, so the first "larger" gives 110 or 160 |
| EditorStore.TimingEdits | frontend/src/screens/EditorScreen.js:369-382 | start-earlier never goes under 0, end-earlier keeps the end ≥ start + 0.5, and every timing control but start-later keeps 0 ≤ start < end |
| EditorStore.StartLaterCanPassEnd | frontend/src/screens/EditorScreen.js:372 | start-later on a half-second window breaks start < end, and pressing it twice passes the end |
| EditorStore.EditKeepsIdentity | frontend/src/screens/EditorScreen.js:308-382 | no inspector edit changes the id, the kind or the preview uri |
| EditorStore.Project | frontend/src/screens/EditorScreen.js:145-147 | a metadata entry carries exactly the eleven listed fields of its record |
| EditorStore.ProjectDropsUri | frontend/src/screens/EditorScreen.js:145-147 | the preview uri is not sent |
| EditorStore.Metadata | frontend/src/screens/EditorScreen.js:145-148 | the metadata array has one entry per overlay, in list order |
| EditorStore.AssetOverlays | frontend/src/screens/EditorScreen.js:134 | the uploaded overlays are a sub-list containing no text record |
| EditorStore.AssetOverlaysAppend | frontend/src/screens/EditorScreen.js:134 | the asset filter distributes over concatenation, so list order is kept |
| EditorStore.AssetOverlaysMembers | frontend/src/screens/EditorScreen.js:134 | a record is uploaded exactly when it is in the list and is not text |
| EditorStore.AssetNamesMatchMetadata | frontend/src/screens/EditorScreen.js:134-147 | the uploaded files' names are, in order, the contents of the metadata's image and video entries |
| EditorScreen.UploadErrorMessage | frontend/src/screens/EditorScreen.js:163 | the upload alert shows `detail` if it is non-empty, else the message, else the fixed text; it is never empty |
| EditorScreen.AssetPartsNamed | frontend/src/screens/EditorScreen.js:134-141 | one upload part per image or video overlay, named after its content |
| EditorScreen.Screen.constructor | frontend/src/screens/EditorScreen.js:20-27 | the screen starts with no video, no overlays, no selection and no job, idle at 0% |
| EditorScreen.Screen.PickVideo | frontend/src/screens/EditorScreen.js:31-44 | a picked video replaces the base video and clears the overlays, the job id and the download address; a cancelled picker changes nothing |
| EditorScreen.Screen.AddTextOverlay | frontend/src/screens/EditorScreen.js:46-61 | with no base video nothing changes; otherwise exactly the new record is appended and selected |
| EditorScreen.Screen.AddAssetOverlay | frontend/src/screens/EditorScreen.js:63-111 | with no base video or a cancelled picker nothing changes; otherwise exactly the asset's record is appended and selected |
| EditorScreen.Screen.UpdateOverlay | frontend/src/screens/EditorScreen.js:113-117 | the screen's list becomes the by-id merge, and nothing else changes |
| EditorScreen.Screen.Select | frontend/src/screens/EditorScreen.js:241 | a touched overlay becomes the selection |
| EditorScreen.Screen.EditSelected | frontend/src/screens/EditorScreen.js:308-382 | an inspector control merges its update into the selected id's records, computed from the shown record |
| EditorScreen.Screen.DeleteSelected | frontend/src/screens/EditorScreen.js:293-296 | every record with the selected id goes, every other record stays, and the selection is cleared |
| EditorScreen.Screen.HandleSubmit | frontend/src/screens/EditorScreen.js:119-168 | with no video nothing is sent and the screen is left as it was; otherwise it sends the video, the asset parts and the metadata; success keeps the job id and starts the poll; failure alerts and resets to idle |
| EditorScreen.Screen.UploadSettled | frontend/src/screens/EditorScreen.js:155-167 | on success the job id is kept, uploading ends and the poll starts from zero; on failure the alert carries `detail`, else the message, else the default text, and the screen is idle at 0% |
| EditorScreen.Screen.PollTick | frontend/src/screens/EditorScreen.js:174-211 | one interval tick changes the screen exactly as `Polling.Tick` says and keeps the poll's counters within bounds |
| Polling.FailureMessage | frontend/src/screens/EditorScreen.js:205 | the failure alert shows the server's error if it is non-empty, else the default; it is never empty |
| Polling.Start | frontend/src/screens/EditorScreen.js:156-159 | the poll starts active and processing, with zero ticks, zero queries and 0% |
| Polling.TickTimeout | frontend/src/screens/EditorScreen.js:175-184 | a tick past 300 stops the poll at 0% with the timeout alert, before any query |
| Polling.TickQueryFailed | frontend/src/screens/EditorScreen.js:208-210 | a failed query changes nothing but the tick and query counts |
| Polling.TickInProgress | frontend/src/screens/EditorScreen.js:190-193 | any other status keeps polling and takes the reported progress when there is one |
| Polling.TickAnswerEnds | frontend/src/screens/EditorScreen.js:195-207 | `completed` stops at 100% with the download address `API_URL/result/{id}`; `failed` stops at 0% with the server's error or the default |
| Polling.TickCounted | frontend/src/screens/EditorScreen.js:171-184 | a tick keeps queries ≤ ticks ≤ 301, keeps queries ≤ 300, and an active poll at ≤ 300 ticks |
| Polling.TickEnds | frontend/src/screens/EditorScreen.js:174-211 | a tick that stops the poll leaves it in one of the three endings |
| Polling.RunCounted | frontend/src/screens/EditorScreen.js:174-211 | over any replies the counters stay within bounds, and a stopped poll is in one of the three endings |
| Polling.RunStops | frontend/src/screens/EditorScreen.js:171-184 | more than 300 − count ticks stop the poll, whatever the replies |
| Polling.PollTerminates | frontend/src/screens/EditorScreen.js:170-212 | from the start, at most 300 queries are sent, 301 ticks always stop the poll, and it ends completed, failed or timed out |
| OverlayItem.GetWidth | frontend/src/components/OverlayItem.js:33-36 | a non-zero width is used; otherwise 100 for an image, 150 for a video, auto for text |
| OverlayItem.GetHeight | frontend/src/components/OverlayItem.js:38-41 | the same rule for the height |
| OverlayItem.PreviewSizeMatchesInspector | frontend/src/components/OverlayItem.js:33-41 | an image or video is drawn at the size the inspector shows and edits |
| OverlayItem.Gesture.constructor | frontend/src/components/OverlayItem.js:7 | the animated pair starts with value (x, y) and offset 0, and the handlers keep the first render's record |
| OverlayItem.Gesture.TouchStart | frontend/src/components/OverlayItem.js:11-15 | a touch selects the overlay and claims the gesture |
| OverlayItem.Gesture.Move | frontend/src/components/OverlayItem.js:16-19 | during a drag the pair's value is the displacement, and the overlay is shown at offset + displacement |
| OverlayItem.Gesture.Release | frontend/src/components/OverlayItem.js:20-28 | release sends the update with the first render's position plus the displacement, merges it into the screen's list, sets the offset there and zeroes the value |
| OverlayItem.StaleReleaseForgetsEarlierDrags | frontend/src/components/OverlayItem.js:20-27 | two drags of 10 from 50 drop the overlay at 60 and 70, but it is stored at 60 both times |
| OverlayItem.TrackingReportsDropPositions | frontend/src/components/OverlayItem.js:20-27 | reporting from the pair's offset stores every drop position |
| OverlayItem.TrackingGesture.constructor | frontend/src/components/OverlayItem.js:7 | the corrected pair starts with offset (x, y) and value 0 |
| OverlayItem.TrackingGesture.Move | frontend/src/components/OverlayItem.js:16-19 | during a drag the overlay is shown at its position plus the displacement |
| OverlayItem.TrackingGesture.Release | frontend/src/components/OverlayItem.js:20-28 | release stores the position shown at the end of the drag, and the overlay stays there |
| OverlayItem.DragsAsWritten | frontend/src/components/OverlayItem.js:7-28 | driving the as-written handlers over any sequence of drags, the x values the releases store are exactly `ReportedAsWritten`: the start plus each drag alone |
| OverlayItem.DragsTracking | frontend/src/components/OverlayItem.js:7-28 | driving the tracking handlers over any sequence of drags, the stored x values are `ReportedTracking`, which equal the drop positions |
| Rendering.Trunc | backend/rendering.py:34-35 | `int()` truncates toward zero |
| Rendering.Basename | backend/rendering.py:25 | a basename has no '/' |
| Rendering.BasenameAfterSlash | backend/rendering.py:25 | the basename of `dir/name` is `name` |
| Rendering.FileMap | backend/rendering.py:25 | every index in the file map is an input index |
| Rendering.FileMapLookup | backend/rendering.py:25 | a name is a key exactly when some input has it as basename, and it maps to the last such input |
| Rendering.LabelText | backend/rendering.py:28 | every label is bracketed |
| Rendering.OutLabelsDistinct | backend/rendering.py:40 | different overlay numbers give different output labels |
| Rendering.EscapeIsPerCharacter | backend/rendering.py:53 | the three replacements escape every backslash, colon and quote exactly once |
| Rendering.UnescapeEscape | backend/rendering.py:53 | unescaping the escaped text gives the content back |
| Rendering.StripHash | backend/rendering.py:49-50 | a leading '#' is removed, and any other colour is kept |
| Rendering.OverlayFilters | backend/rendering.py:30-127 | an overlay emits nothing exactly when it is neither text nor a found asset; otherwise its last filter reads the current label and writes `[v{i+1}]`, after a scale step that writes `[scaled{i}]` when there is one |
| Rendering.OverlayFiltersFields | backend/rendering.py:31-61 | an emitted filter carries the truncated position and the window with defaults 0 and 5; text carries the content (default "Text"), the colour without '#' (default white) and the font size (default 24) |
| Rendering.OverlayFiltersAsset | backend/rendering.py:63-127 | a found asset is read by input index, through a scale step exactly when width and height are both truthy |
| Rendering.BuildFinalLabel | backend/rendering.py:28-129 | the final label is `[0:v]` exactly when nothing emits, otherwise `[v{n}]` for the last emitting overlay n |
| Rendering.BuildIsLinearChain | backend/rendering.py:28-127 | the main filters form one chain from `[0:v]`, each reading the label the previous one wrote, ending at the final label |
| Rendering.BuildMainCount | backend/rendering.py:30-127 | there is one main filter per emitting overlay |
| Rendering.BuildOutLabels | backend/rendering.py:40 | the main filters write `[v{n}]` for emitting overlays n, in increasing order |
| Rendering.ScaleFeedsNextOverlay | backend/rendering.py:73-91 | each scale step is followed at once by the overlay that reads its label |
| Rendering.FilterComplexEmptyIff | backend/rendering.py:129 | the filter string is empty exactly when no overlay emits |
| Rendering.BuildFilterComplex | backend/rendering.py:13-129 | the loop returns the `;`-joined filters of the specification and its final label |
| Rendering.InputArguments | backend/rendering.py:146-149 | the input arguments are the pair `-i p` for each input, in order |
| Rendering.RenderCommand | backend/rendering.py:146-167 | the command is ffmpeg, `-y`, the input pairs, then either the filtergraph, the two maps and the encoding options, or a stream copy when nothing emits, and always ends with the output path |
| Strings.JoinEmptyIff | backend/rendering.py:129 | joining gives "" exactly when there are no parts |
| Strings.NatTextRoundTrip | backend/rendering.py:40 | the decimal text of an overlay number reads back as that number |
| Jobs.AssetPaths | backend/main.py:104-110 | one saved path per uploaded asset, in upload order |
| Jobs.JobTable.constructor | backend/main.py:50 | the table starts empty |
| Jobs.JobTable.GetStatus | backend/main.py:141-152 | 404 exactly for an unknown id; otherwise the stored status, progress and error |
| Jobs.JobTable.GetResult | backend/main.py:154-163 | 404 exactly for an unknown id, 400 exactly while the job has not completed, otherwise its result file as `edited_video.mp4` |
| Jobs.JobTable.UpdateJobProgress | backend/main.py:58-61 | only a known job's progress changes; an unknown id is a no-op |
| Jobs.JobTable.ApplyReports | backend/rendering.py:202-203 | the progress callback, once per reported value: the job's progress, and the status query's answer, end at the last value reported, or stay put when none is; every other record stays |
| Jobs.JobTable.BeginProcessing | backend/main.py:71-72 | the job alone goes to `processing` at 0%, and a status query then answers exactly that, while the result is still refused with 400 |
| Jobs.JobTable.FinishRender | backend/main.py:76-86 | success leaves the job completed at 100% with `results/{id}.mp4`; a raised error leaves it failed with that message and its progress unchanged; no other job changes |
| Jobs.JobTable.ProcessVideo | backend/main.py:66-86 | the composition of the three steps: the job ends completed at 100% with its result file, or failed with the error and the last reported progress (0 when none); no other job changes |
| Jobs.JobTable.UploadVideo | backend/main.py:88-132 | it saves the video and then each asset under the job id; bad JSON gives 400 and no job; otherwise the answer carries the job id and status `queued`, one queued job at 0% holds the overlays unmodified, and its task is scheduled with the saved paths |
| DebugOverlay.Rewrite | backend/debug_overlay.py:80-84 | an image or video entry with content gets `{job_id}_asset_{content}`; any other entry is unchanged |
| DebugOverlay.Rewritten | backend/debug_overlay.py:79-84 | each entry is rewritten at its own position |
| DebugOverlay.RewriteContents | backend/debug_overlay.py:79-84 | the in-place loop leaves the array equal to the rewritten list |
| DebugOverlay.ImageOnly | backend/debug_overlay.py:23 | an image entry is seen as it is; any other entry emits nothing |
| DebugOverlay.DebugBuildFilterComplex | backend/debug_overlay.py:7-48 | the debug loop returns the renderer's filter string for the list with only its images kept at their positions |
| DebugOverlay.DebugAgreesOnImages | backend/debug_overlay.py:23-48 | on image overlays the debug builder writes what the renderer writes |
| DebugOverlay.DebugIgnoresOtherKinds | backend/debug_overlay.py:23 | with no image overlay the debug builder returns "" |
| DebugOverlay.TestFileMap | backend/debug_overlay.py:70-76 | the scenario's file map holds the saved video at 0 and the saved asset at 1 |
| DebugOverlay.TestScenario | backend/debug_overlay.py:52-90 | with the rewrite the image is scaled to 100×100 and laid over `[0:v]` as `[v1]`; without it the filter string is empty |
| Pipeline.InputBasenames | backend/main.py:97-107 | the renderer's inputs are named `{id}_{video}` and `{id}_asset_{name}` |
| Pipeline.InputStartsWithJob | backend/main.py:97-107 | every input's basename starts with the job id |
| Pipeline.ContentNotFoundAsWritten | backend/rendering.py:25 | a content not starting with the job id is no key of the upload's file map |
| Pipeline.UploadDrawsNoAssets | backend/main.py:121-127 | with the metadata stored as received, no image or video overlay of an upload emits a filter |
| Pipeline.AssetOnlyExportCopiesAsWritten | backend/rendering.py:159-165 | an export of only image and video overlays renders with an empty filtergraph, so the video is copied unchanged |
| Pipeline.CorrectedTask | backend/debug_overlay.py:79-84 | the corrected task keeps the job and its paths and renames the metadata's asset contents |
| Pipeline.RenamedAssetFound | backend/debug_overlay.py:79-84 | after renaming, an entry whose content names an uploaded file emits, read from that file's input, never the main video |
| Pipeline.RewrittenContentsListed | frontend/src/screens/EditorScreen.js:134-147 | every image or video entry with content has its content among the uploaded names |
| Pipeline.ExportDrawsEveryAsset | frontend/src/screens/EditorScreen.js:134-147 | end to end with the rename, every image and video overlay the editor exports is drawn |
| Pipeline.PollStopsOnFinalStatus | backend/main.py:52-56 | the poll stops on the status the job table reports exactly when it is completed or failed |

## Left out

- Network and platform calls are left out: the upload and status requests, the form encoding, `Alert`, the image picker, and `Date.now()`/`uuid4` ids. Responses, picked assets and ids are parameters; an alert is the last value of a field.
- The interval timer, overlapping asynchronous ticks and React's rendering are left out. A poll tick is one atomic step.
- The ffmpeg and ffprobe processes are left out. So are the parsing of `time=` lines into progress (backend/rendering.py:171-230) and `get_video_duration`. The progress a render reports and its success or error are a parameter of `ProcessVideo`.
- File contents, `shutil` copying, background-task scheduling, CORS and the server are left out. The table records only the saved paths and the scheduled task.
- The upload endpoint's 500 answer (backend/main.py:134-139) is left out. It needs an I/O exception, which the model does not produce.
- JSON values that are `null`, a metadata value that is not a list, and non-numeric fields are left out. A missing key is `None`.
- Floating point is left out. Numbers are exact reals.
- Strings.FloatText: prints positional notation only. Python switches to exponent notation at 1e16 and below 1e-4, and that is not modelled.
- Rendering.BuildFilterComplex: collects `Filter` records and joins their texts once at the end, where the source appends each filter's string as it goes. The resulting string is the same.
- EditorScreen.Screen.HandleSubmit: the `uploading` flag is true only while the upload call is in flight, and this call is atomic here, so that intermediate state is not observable.
- Jobs.JobTable.ProcessVideo: requires the job to exist. The source would fail inside its own exception handler otherwise.
- Jobs.JobTable.ProcessVideo: one call runs the whole background task, so status queries that interleave with a running render are not modelled as concurrency. The states a poll sees meanwhile are the ones `BeginProcessing` and `ApplyReports` state: processing at 0%, then each reported percentage.
- Jobs.JobTable.UploadVideo: requires a job id the table does not hold yet, which stands in for a fresh `uuid4`.
- The presentation-only components, `backend/ffmpeg_utils.py` and `prepare_submission.py` are not part of this model.
- EditorScreen.Screen.PickVideo: callable in any state. The source reaches it only while no video is loaded, because the placeholder that calls it is drawn only then, so the model's resets of a loaded screen describe no reachable run.
- Rendering.Basename: a path ending in '/' gives the empty name, where `Path(p).name` would first drop the trailing slash. Every path the backend builds ends in a file name, so no stated property depends on that case.

## Findings

| source | as written | input that shows it | evidently intended | confidence | as-written member | corrected member |
|---|---|---|---|---|---|---|
| backend/main.py:121-127 | The job stores the metadata as received. An image or video entry keeps the picked file name as content. The asset file is saved as `{job_id}_asset_{name}`, and the renderer looks contents up by saved basename. | job `test_job`, one 100×100 image overlay with content `image_123.png`: no filter is emitted and the video is copied unchanged | rename each asset entry's content to its saved name before scheduling the render, as backend/debug_overlay.py:79-84 does | high; not executed | Pipeline.UploadDrawsNoAssets | Pipeline.CorrectedTask |
| frontend/src/components/OverlayItem.js:7-28 | The gesture handlers are created once and keep the first render's record. Release stores that record's position plus the drag, and the pair starts with offset 0 and value (x, y). | two drags of +10 from x = 50: dropped at 60 and then 70, stored at 60 both times | each release stores the position the overlay was dropped at | medium; not executed | OverlayItem.Gesture.Release | OverlayItem.TrackingGesture.Release |
