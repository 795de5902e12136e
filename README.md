# Deepfake-Knight dashboard session, modelled in Dafny

This project models the client-side analysis session of the Deepfake-Knight
web front end (`frontend_2`). A user picks an image or a video, previews it,
sends it to the inference service and reads the verdict as a report that can
be saved as a PDF. It covers four files:

- `app/dashboard/page.js`: the page's session state (`mode`, `result`,
  `isLoading`, `error`, `imagePreview`, `videoPreview`, `gradcamHeatmap`) and
  its four handlers. Each asynchronous predict handler is split into the part
  before its request (`Begin…`) and the part after the request settles
  (`Complete…`).
- `components/ImageUploader.jsx` and `components/VideoUploader.jsx`: the
  file each uploader holds, the preview URL it sets on the page, the video
  uploader's type and size checks, and which uploader revokes its URL.
- `components/ResultDisplay.jsx`: which card the result panel shows, which
  report blocks appear, and the PDF export. The export covers hiding and
  restoring the buttons, the centred best fit of the canvas on the page and
  the file name.

Layout:

| file | module | contents |
|---|---|---|
| `wrappers.dfy` | `Wrappers` | `Option` |
| `media.dfy` | `Media` | mode, file, response body, request outcome, request, JavaScript truthiness |
| `intake.dfy` | `Intake` | the video whitelist, the 100 MiB cap and `ValidateVideo` |
| `urls.dfy` | `Urls` | object URLs: a `Registry` value of live handles and the `UrlRegistry` class |
| `session.dfy` | `Session` | the page state as a value and each handler as a function on it |
| `report.dfy` | `Report` | view selection, report blocks, best-fit placement, report file name |
| `workflow.dfy` | `Workflow` | the whole dashboard as a value, the uploaders' handlers, user actions (`Step`, `Run`), the session invariant `Inv` and the lemmas about sequences of actions |
| `dashboard.dfy` | `Dashboard` | `DashboardPage`, the page as a class, each method proved against its `Session` function |
| `uploaders.dfy` | `Uploaders` | `ImageUploader` and `VideoUploader` classes, proved against the `Workflow` functions |
| `app.dfy` | `App` | `DashboardApp`, which wires the page, the mounted uploader and the URL registry together; its `Valid()` carries `Inv` |
| `export.dfy` | `Export` | `ReportExporter`, the PDF export handler and its two continuations |

Behaviour of the code a reader might not expect:

- Late responses are not discarded. No request carries a generation token.
  A request that settles after a mode switch still writes its result or
  error into the new session (`LateResultAfterModeSwitch`,
  `LateFailureAfterModeSwitch`). While a request is loading the panel shows
  the placeholder, which has no reset button (`NoResetWhileLoading`). The
  mode buttons are never disabled, though, and `handleModeChange` calls
  `handleReset`: pressing either mode button while loading resets the page
  with the request still in flight, and its completion still lands there.
- A mode change does not end loading. A request in flight keeps `isLoading`
  on (`SwitchClearsSession`).
- The image uploader checks neither type nor size. `accept="image/*"` only
  filters the browser's file picker.
- Preview URLs are released only by the video uploader's clear. A reset, a
  mode change, a failed request or the image uploader's clear drops the
  handle and leaves the URL live (`UrlStaysLive`, `ImageReselectLeaks`).
- A reset does not clear the uploader's own `selectedFile`, so the submit
  button stays enabled. Both file inputs are marked `required`, however, and
  `handleReset` empties the input on screen, while a preview that gives way
  to the input mounts a new, empty one. After a reset or a press of the
  current mode's button, the browser blocks the submit until a file is
  picked again (`ResetKeepsFile`, `ModeButtonEmptiesInput`). After a failed
  request it does so only when the failure drops a preview that is on
  screen, that is, when the request is of the current mode's path and its
  preview is still shown (`RetryBlockedAfterFailure`). A failure of the
  other path, or one that arrives while the input is already on screen,
  leaves the current preview or the input as it was: if a preview is shown,
  or the input holds a file such as a rejected video, a submit then sends
  the held file without a new pick. A rejected video stays in the input and
  satisfies that check, so submitting then sends the file held from before
  (`RejectedPickResendsHeldFile`). Only a switch to the other mode mounts a
  fresh uploader.

## Model

| member | source | states |
|---|---|---|
| `Intake.ValidateVideo` | frontend_2/components/VideoUploader.jsx:14-25 | accepted iff the type is one of the five listed and the size is at most 100 MiB; a wrong type is reported as such even when the file is also too large; too large iff the type is listed and the size exceeds the cap |
| `Intake.AlertText` | frontend_2/components/VideoUploader.jsx:16-23 | an alert is raised exactly for a rejected file, with the uploader's text for each verdict; `Uploaders.VideoUploader.HandleFileChange` returns it |
| `Intake.SizeBoundary` | frontend_2/components/VideoUploader.jsx:21-25 | the cap is 104857600 bytes; a file of exactly that size passes, one byte more is too large |
| `Intake.WhitelistIsExact` | frontend_2/components/VideoUploader.jsx:14-15 | the type check passes exactly for video/mp4, video/mpeg, video/quicktime, video/x-msvideo and video/webm |
| `Urls.Create` | frontend_2/components/VideoUploader.jsx:28 | a created object URL was not live before and is the only URL added to the live set |
| `Urls.Revoke` | frontend_2/components/VideoUploader.jsx:36 | revoking removes exactly that URL from the live set; revoking a dead URL changes nothing |
| `Urls.CreateIsFresh` | frontend_2/components/ImageUploader.jsx:13 | two successive creations never return the same URL |
| `Urls.UrlRegistry.CreateObjectUrl` | frontend_2/components/VideoUploader.jsx:28 | the registry object hands out the URL `Urls.Create` describes and records it as live |
| `Urls.UrlRegistry.RevokeObjectUrl` | frontend_2/components/VideoUploader.jsx:36 | the registry object drops the URL from its live set |
| `Session.Initial` | frontend_2/app/dashboard/page.js:10-16 | the page starts in image mode, not loading, with no result, error, preview or heatmap |
| `Session.Reset` | frontend_2/app/dashboard/page.js:25-31 | result, error, both previews and the heatmap are cleared; mode, loading flag and requests in flight are kept |
| `Session.ModeChange` | frontend_2/app/dashboard/page.js:19-22 | the new mode with everything reset clears; loading and requests in flight are kept |
| `Session.BeginImage` | frontend_2/app/dashboard/page.js:41-44 | loading on, error empty, result and heatmap null, one more image request in flight, previews and mode kept |
| `Session.BeginVideo` | frontend_2/app/dashboard/page.js:73-75 | loading on, error empty, result null, heatmap kept, one more video request in flight |
| `Session.RequestsDiffer` | frontend_2/app/dashboard/page.js:46-84 | the image path posts to /predict_image and the video path to /predict_video, both with the file under field `file` |
| `Session.ImageFailureMessage` | frontend_2/app/dashboard/page.js:55-64 | never empty; a non-ok response gives exactly "Server error: " + statusText with no body read; another failure gives its own message, or the fallback when that is empty |
| `Session.VideoFailureMessage` | frontend_2/app/dashboard/page.js:86-95 | never empty; a non-ok response gives its non-empty `detail`, otherwise "Server error: " + statusText; another failure gives its own message or the fallback |
| `Session.CompleteImage` | frontend_2/app/dashboard/page.js:59-68 | loading ends; success stores the body as result and its heatmap as the page's heatmap; failure stores a non-empty error and drops the image preview, keeping result and heatmap; the video preview, mode and the video request count are kept |
| `Session.CompleteVideo` | frontend_2/app/dashboard/page.js:91-99 | loading ends; success stores the result; failure stores a non-empty error and drops the video preview; the heatmap and the image request count are never touched |
| `Dashboard.DashboardPage.constructor` | frontend_2/app/dashboard/page.js:10-16 | the page object starts in `Session.Initial` |
| `Dashboard.DashboardPage.HandleModeChange` | frontend_2/app/dashboard/page.js:19-22 | the page object's new state is `Session.ModeChange` of its old state |
| `Dashboard.DashboardPage.HandleReset` | frontend_2/app/dashboard/page.js:25-31 | the new state is `Session.Reset` of the old |
| `Dashboard.DashboardPage.BeginImagePredict` | frontend_2/app/dashboard/page.js:40-53 | the new state is `Session.BeginImage` of the old, and the request is the image request for the file |
| `Dashboard.DashboardPage.CompleteImagePredict` | frontend_2/app/dashboard/page.js:55-68 | the new state is `Session.CompleteImage` of the old for the outcome |
| `Dashboard.DashboardPage.BeginVideoPredict` | frontend_2/app/dashboard/page.js:72-84 | the new state is `Session.BeginVideo` of the old, and the request is the video request for the file |
| `Dashboard.DashboardPage.CompleteVideoPredict` | frontend_2/app/dashboard/page.js:86-99 | the new state is `Session.CompleteVideo` of the old for the outcome |
| `Workflow.ImageFileChange` | frontend_2/components/ImageUploader.jsx:9-15 | any picked file is held with no check; the preview becomes a URL that was not live and is now the one new live URL; nothing else on the page changes; no pick changes nothing; the browser's input state is left to the caller |
| `Workflow.ImageClear` | frontend_2/components/ImageUploader.jsx:17-22 | file and image preview dropped; the live URL set is unchanged (no revoke); the browser's input state is left to the caller |
| `Workflow.VideoFileChange` | frontend_2/components/VideoUploader.jsx:10-31 | a rejected file or no pick changes nothing; an accepted file is held and the preview becomes the one new live URL; the browser's input state is left to the caller |
| `Workflow.VideoClear` | frontend_2/components/VideoUploader.jsx:33-41 | file and video preview dropped; the preview's URL, if any, leaves the live set; the browser's input state is left to the caller |
| `Workflow.ImageSubmit` | frontend_2/components/ImageUploader.jsx:24-29 | a request is sent exactly when a file is held: the held file to /predict_image, with the page as `Session.BeginImage` leaves it; without a file nothing changes |
| `Workflow.VideoSubmit` | frontend_2/components/VideoUploader.jsx:43-48 | a request is sent exactly when a file is held: the held file to /predict_video, with the page as `Session.BeginVideo` leaves it; without a file nothing changes |
| `Workflow.Step` | frontend_2/app/dashboard/page.js:116-141 | one event as the rendered page lets it through: a pick while a preview is shown, a clear while none is, a submit while the button is disabled or the `required` input is empty, and a reset while the placeholder is shown change nothing; a mode button sets the mode and leaves the input empty; the URL registry stays well formed |
| `Workflow.SubmitSends` | frontend_2/components/ImageUploader.jsx:24-29 | a submit sends a request exactly when a file is held: that file, as a POST, under field `file`, to the endpoint of the current mode |
| `Workflow.SwitchMode` | frontend_2/app/dashboard/page.js:119-133 | the page changes as `Session.ModeChange` says; the held file survives only when the mode stays the same (otherwise a fresh uploader is mounted); either way the file input on screen is empty afterwards |
| `Workflow.StepInv` | frontend_2/app/dashboard/page.js:19-99 | every user action and every settled request keeps the session invariant |
| `Workflow.RunInv` | frontend_2/app/dashboard/page.js:19-99 | every sequence of actions keeps the invariant: at most one request in flight, loading exactly while one is, no output while loading, never a result and an error together, never the other mode's preview, every preview a live URL |
| `Workflow.SingleFlight` | frontend_2/components/VideoUploader.jsx:95 | from the first render on, the disabled submit button keeps at most one request in flight, and `isLoading` is on exactly while one is |
| `Workflow.PreviewReplacesInput` | frontend_2/components/ImageUploader.jsx:37 | the file input is usable exactly while there is no preview and the clear button exactly while there is one; picking an image shows a preview |
| `Workflow.SubmitOnlyWhenEnabled` | frontend_2/components/ImageUploader.jsx:56-73 | pressing submit does nothing while the button is disabled or the `required` input is on screen and empty; otherwise it sends a request and leaves exactly one in flight with loading on |
| `Workflow.SettleDecides` | frontend_2/app/dashboard/page.js:59-68 | when a request settles, loading ends and exactly one of {result set, error non-empty} holds; success stores the body (and on the image path its heatmap) with an empty error; failure stores the path's message and drops that path's preview |
| `Workflow.SettleView` | frontend_2/components/ResultDisplay.jsx:66-88 | after a settle the panel shows the report for a success and the error card with the path's message for a failure |
| `Workflow.LateResultAfterModeSwitch` | frontend_2/app/dashboard/page.js:59-61 | an image request sent before switching to video mode still sets result and heatmap; the video session then shows that report without the heatmap |
| `Workflow.LateFailureAfterModeSwitch` | frontend_2/app/dashboard/page.js:93-96 | a video request that fails after switching to image mode puts its error card into the image session |
| `Workflow.ModeButtonResetsWhileLoading` | frontend_2/app/dashboard/page.js:19-31 | while loading, pressing the current mode's button still clears the page, with loading on and the request still in flight |
| `Workflow.NoResetWhileLoading` | frontend_2/components/ResultDisplay.jsx:81-88 | while loading, the panel is the placeholder, which has no reset button, so pressing reset does nothing |
| `Workflow.SwitchClearsSession` | frontend_2/app/dashboard/page.js:19-30 | switching to the other mode leaves no file, preview, result, error or heatmap and shows the placeholder; loading is unchanged |
| `Workflow.ModeButtonEmptiesInput` | frontend_2/app/dashboard/page.js:19-36 | pressing the current mode's button keeps the held file but leaves the `required` input empty, so a submit then sends nothing |
| `Workflow.ResetKeepsFile` | frontend_2/app/dashboard/page.js:25-36 | reset clears the page and brings the file input back; the uploader still holds its file and the button stays enabled, but the input is empty and the `required` check blocks the submit |
| `Workflow.RetryBlockedAfterFailure` | frontend_2/components/ImageUploader.jsx:37-73 | after a failed image request drops the preview, the button is enabled but the empty `required` input blocks the submit, so nothing is sent |
| `Workflow.RejectedPickResendsHeldFile` | frontend_2/components/VideoUploader.jsx:10-31 | after a reset, a rejected video fills the input, and submitting then sends the file the uploader held before |
| `Workflow.RejectedVideoChangesNothing` | frontend_2/components/VideoUploader.jsx:15-25 | a video pick that fails validation leaves the page, the held file and the URLs unchanged; only the browser's input holds the rejected file |
| `Workflow.VideoClearRevokes` | frontend_2/components/VideoUploader.jsx:33-41 | clearing a video preview revokes exactly its URL |
| `Workflow.ImageClearLeaks` | frontend_2/components/ImageUploader.jsx:17-22 | clearing an image preview leaves its URL live while nothing refers to it |
| `Workflow.StepKeepsUrl` | frontend_2/components/VideoUploader.jsx:35-37 | one action revokes no live URL other than the current video preview, and never makes an existing URL the video preview |
| `Workflow.UrlStaysLive` | frontend_2/components/VideoUploader.jsx:35-37 | a live URL that is not the current video preview stays live through any sequence of actions |
| `Workflow.ImagePreviewNeverRevoked` | frontend_2/components/ImageUploader.jsx:12-13 | an image preview's URL is never revoked, whatever happens afterwards |
| `Workflow.ImageReselectLeaks` | frontend_2/components/ImageUploader.jsx:17-22 | pick, clear, pick in image mode leaves two live URLs with one preview on screen |
| `Workflow.VideoReselectReleases` | frontend_2/components/VideoUploader.jsx:33-41 | the same sequence in video mode leaves only the new preview's URL live |
| `Uploaders.ImageUploader.constructor` | frontend_2/components/ImageUploader.jsx:7 | a mounted image uploader holds no file |
| `Uploaders.ImageUploader.HandleFileChange` | frontend_2/components/ImageUploader.jsx:9-15 | the dashboard changes exactly as `Workflow.ImageFileChange` says |
| `Uploaders.ImageUploader.HandleClear` | frontend_2/components/ImageUploader.jsx:17-22 | the dashboard changes exactly as `Workflow.ImageClear` says |
| `Uploaders.ImageUploader.HandleSubmit` | frontend_2/components/ImageUploader.jsx:24-29 | the image handler runs, and its request is returned, only when a file is held |
| `Uploaders.VideoUploader.constructor` | frontend_2/components/VideoUploader.jsx:7 | a mounted video uploader holds no file |
| `Uploaders.VideoUploader.HandleFileChange` | frontend_2/components/VideoUploader.jsx:10-31 | the dashboard changes exactly as `Workflow.VideoFileChange` says, the verdict returned is `ValidateVideo` of the picked file, and the alert text is `AlertText` of that verdict |
| `Uploaders.VideoUploader.HandleClear` | frontend_2/components/VideoUploader.jsx:33-41 | the dashboard changes exactly as `Workflow.VideoClear` says, revoking through the registry |
| `Uploaders.VideoUploader.HandleSubmit` | frontend_2/components/VideoUploader.jsx:43-48 | the video handler runs, and its request is returned, only when a file is held |
| `App.DashboardApp.constructor` | frontend_2/app/dashboard/page.js:9-16 | the assembled dashboard starts in `Workflow.Init` and satisfies the invariant |
| `App.DashboardApp.ChooseMode` | frontend_2/app/dashboard/page.js:116-133 | a mode button changes the dashboard as `Step` says, mounting a fresh uploader on a switch and leaving the mounted uploader's file input empty in either case, and keeps the invariant |
| `App.DashboardApp.PickFile` | frontend_2/app/dashboard/page.js:119-133 | a file pick goes to the mounted uploader only while its input is shown; the browser fills the input first; the video verdict and its alert are returned |
| `App.DashboardApp.ClearPreview` | frontend_2/app/dashboard/page.js:119-133 | the clear button goes to the mounted uploader only while its preview is shown |
| `App.DashboardApp.PressSubmit` | frontend_2/components/VideoUploader.jsx:79-99 | a submit does nothing while the button is disabled or the `required` input is on screen and empty; otherwise it sends the mounted uploader's request |
| `App.DashboardApp.Settle` | frontend_2/app/dashboard/page.js:55-99 | a settled request runs its handler's completion with no check that the session is still the one that sent it |
| `App.DashboardApp.PressReset` | frontend_2/components/ResultDisplay.jsx:71-99 | the reset buttons exist only on the error card and the report, and run `handleReset`, which also empties the mounted uploader's file input |
| `Report.SelectView` | frontend_2/components/ResultDisplay.jsx:66-88 | a non-empty error selects the error card even when a result is set; otherwise no result selects the placeholder; otherwise the report for the result |
| `Report.RenderReport` | frontend_2/components/ResultDisplay.jsx:90-182 | FAKE styling iff the class is exactly "FAKE"; class and confidence shown as given; explanation block iff the explanation is non-empty; heatmap block iff the heatmap is non-empty and the mode is image; dimensions row iff both width and height are non-zero |
| `Report.NoHeatmapInVideoMode` | frontend_2/components/ResultDisplay.jsx:150 | in video mode no report shows a heatmap, whatever the page holds |
| `Report.OnlyExactFakeIsFake` | frontend_2/components/ResultDisplay.jsx:91 | "fake", "Fake", "REAL" and "" are all styled as REAL |
| `Report.FakeExample` | frontend_2/components/ResultDisplay.jsx:113-131 | a FAKE verdict at "92.3%" for a.jpg shows the FAKE styling, the confidence "92.3%" and no dimensions row |
| `Report.BestFit` | frontend_2/components/ResultDisplay.jsx:40-56 | for positive sizes the placed image fits the page, keeps the canvas's aspect ratio, fills the page's width or height, and is centred: 2x + w = page width, 2y + h = page height, x, y non-negative |
| `Report.BestFitIsLargest` | frontend_2/components/ResultDisplay.jsx:45-53 | no larger box with the canvas's aspect ratio fits on the page |
| `Report.ReportFilename` | frontend_2/components/ResultDisplay.jsx:59 | the saved name is "deepfake_report_" + the result's filename + ".pdf", and the filename can be read back out of it |
| `Export.ReportExporter.constructor` | frontend_2/components/ResultDisplay.jsx:17 | a report starts with its buttons' inline display unset and nothing being rasterised |
| `Export.ReportExporter.GeneratePdf` | frontend_2/components/ResultDisplay.jsx:19-30 | without a mounted report nothing happens; otherwise the action buttons are hidden and a rasterisation starts |
| `Export.ReportExporter.CanvasReady` | frontend_2/components/ResultDisplay.jsx:30-59 | the buttons are set back to flex; the document is an A4 portrait page in px with the PNG placed by `BestFit`, saved under `ReportFilename` of the result's filename |
| `Export.ReportExporter.CanvasFailed` | frontend_2/components/ResultDisplay.jsx:60-62 | the buttons are set back to flex and no document is produced |
| `Export.ExportRestoresButtons` | frontend_2/components/ResultDisplay.jsx:19-63 | across a whole export the buttons are hidden while rasterising and shown with display flex afterwards, on the success and on the failure path; a document exists only on success |

## Left out

- The inference service, `fetch`, `FormData` and JSON parsing are not modelled. A request's outcome is a parameter (`Media.Outcome`). A success body is assumed to hold a prediction (class and confidence), metadata (filename, optional width and height), and an optional explanation and heatmap. A non-string `detail`, such as a validation error list, is not modelled.
- The browser is not modelled. `URL.createObjectURL` / `URL.revokeObjectURL` become a counter plus a set of live handles. `alert` becomes the returned verdict and alert text.
- The input's own state is modelled only as whether it holds a file. `handleReset`'s clearing of the inputs through `document.getElementById` is modelled: the mounted input is empty afterwards. `handleClear`'s clearing is not modelled separately: the input is not on screen while a preview is, and the re-render mounts a new, empty one. Neither is the report's timestamp (`Date.toLocaleString`).
- `html2canvas` and `jsPDF` are not modelled. The canvas size and the page size are parameters of `CanvasReady`. The PNG data URL is not represented.
- Floating point is not modelled. The best-fit geometry is proved over exact reals. A zero-sized canvas is excluded: the source then divides by zero.
- `Export.ReportExporter.CanvasReady`: requires a positive canvas and page size, for the same reason.
- `Report.RenderReport`: when width is 0, or width is non-zero and height is 0, the guard `metadata.width && metadata.height && (…)` evaluates to the number 0, which React renders as a stray "0" in the metadata grid. The card records only that no dimensions row is shown (`dimensions` is None), not that stray text.
- `App.DashboardApp.Settle`: requires that the settling request was sent and has not settled yet. A response cannot arrive otherwise.
- React rendering and state batching are not modelled. Each handler is one atomic update of its final field values. Rendering is only the gating in `Workflow.Step`: what is on screen, and whether submit is disabled.
- The landing pages, the media selector's styling and the back end (`backend/main.py`) are not part of this model.
