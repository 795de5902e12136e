/**
 * The whole dashboard as one state: the page's session state, the file held
 * by whichever uploader is mounted, and the browser's object URLs. The
 * uploaders' handlers (components/ImageUploader.jsx,
 * components/VideoUploader.jsx) are functions on this state, and `Step`
 * applies one user action or one settled request, honouring what the page
 * renders: a control that is not on screen, or is disabled, does nothing.
 */
module Workflow {
  import opened Wrappers
  import opened Media
  import opened Urls
  import opened Session
  import opened Intake
  import opened Report

  /**
   * `inputFilled` is the browser's own state of the mounted uploader's file
   * input: whether the input element on screen holds a file. It is not the
   * uploader's `selectedFile`; it matters only while the input is on screen,
   * that is while there is no preview.
   */
  datatype AppState = AppState(page: PageState, selected: Option<File>, inputFilled: bool, urls: Registry)

  /** The dashboard when it is opened, given the URLs the browser already holds. */
  function Init(urls: Registry): AppState {
    AppState(Session.Initial(), None, false, urls)
  }

  // ---------------------------------------------------------------------------
  // ImageUploader

  /**
   * `handleFileChange`: any picked file is taken, with no check of its type or
   * size, and gets a new object URL as the image preview. A preview it
   * replaces is not revoked.
   */
  function ImageFileChange(a: AppState, f: Option<File>): (b: AppState)
    requires WellFormed(a.urls)
    ensures WellFormed(b.urls)
    ensures f.None? ==> b == a
    ensures b.inputFilled == a.inputFilled
    ensures f.Some? ==>
      && b.selected == f && b.page.imagePreview.Some?
      && b.page.imagePreview.value !in a.urls.live
      && b.urls.live == a.urls.live + {b.page.imagePreview.value}
      && b.page == a.page.(imagePreview := b.page.imagePreview)
  {
    if f.None? then a
    else
      var (u, urls) := Urls.Create(a.urls);
      a.(selected := f, page := a.page.(imagePreview := Some(u)), urls := urls)
  }

  /** `handleClear`: the file and the preview are dropped and the URL is NOT revoked. */
  function ImageClear(a: AppState): (b: AppState)
    ensures b.selected.None? && b.page.imagePreview.None?
    ensures b.inputFilled == a.inputFilled
    ensures b.urls == a.urls
    ensures b.page == a.page.(imagePreview := None)
  {
    a.(selected := None, page := a.page.(imagePreview := None))
  }

  // ---------------------------------------------------------------------------
  // VideoUploader

  /**
   * `handleFileChange`: a picked file with a type outside the whitelist, or
   * larger than 100 MiB, is rejected and nothing changes; an accepted file is
   * taken and gets a new object URL as the video preview.
   */
  function VideoFileChange(a: AppState, f: Option<File>): (b: AppState)
    requires WellFormed(a.urls)
    ensures WellFormed(b.urls)
    ensures f.None? || ValidateVideo(f.value) != Accepted ==> b == a
    ensures b.inputFilled == a.inputFilled
    ensures f.Some? && ValidateVideo(f.value) == Accepted ==>
      && b.selected == f && b.page.videoPreview.Some?
      && b.page.videoPreview.value !in a.urls.live
      && b.urls.live == a.urls.live + {b.page.videoPreview.value}
      && b.page == a.page.(videoPreview := b.page.videoPreview)
  {
    if f.None? || ValidateVideo(f.value) != Accepted then a
    else
      var (u, urls) := Urls.Create(a.urls);
      a.(selected := f, page := a.page.(videoPreview := Some(u)), urls := urls)
  }

  /** `handleClear`: the file and the preview are dropped and the preview's URL is revoked. */
  function VideoClear(a: AppState): (b: AppState)
    requires WellFormed(a.urls)
    ensures WellFormed(b.urls)
    ensures b.selected.None? && b.page.videoPreview.None?
    ensures b.inputFilled == a.inputFilled
    ensures b.urls.live == a.urls.live - (if a.page.videoPreview.Some? then {a.page.videoPreview.value} else {})
    ensures b.page == a.page.(videoPreview := None)
  {
    var urls := if a.page.videoPreview.Some? then Urls.Revoke(a.urls, a.page.videoPreview.value) else a.urls;
    a.(selected := None, page := a.page.(videoPreview := None), urls := urls)
  }

  // ---------------------------------------------------------------------------
  // Both uploaders: `handleSubmit` calls the page's handler, and so sends a
  // request, only when a file is held. It does not look at `isLoading`; the
  // disabled button does.

  function ImageSubmit(a: AppState): (res: (AppState, Option<Request>))
    ensures res.1.Some? <==> a.selected.Some?
    ensures res.1.None? ==> res.0 == a
    ensures res.1.Some? ==>
      && res.1.value.url == "http://127.0.0.1:8000/predict_image" && res.1.value.file == a.selected.value
      && res.0 == a.(page := BeginImage(a.page))
  {
    if a.selected.None? then (a, None)
    else (a.(page := BeginImage(a.page)), Some(ImageRequest(a.selected.value)))
  }

  function VideoSubmit(a: AppState): (res: (AppState, Option<Request>))
    ensures res.1.Some? <==> a.selected.Some?
    ensures res.1.None? ==> res.0 == a
    ensures res.1.Some? ==>
      && res.1.value.url == "http://127.0.0.1:8000/predict_video" && res.1.value.file == a.selected.value
      && res.0 == a.(page := BeginVideo(a.page))
  {
    if a.selected.None? then (a, None)
    else (a.(page := BeginVideo(a.page)), Some(VideoRequest(a.selected.value)))
  }

  /** The mounted uploader's submit. */
  function Submit(a: AppState): (res: (AppState, Option<Request>)) {
    if a.page.mode == Image then ImageSubmit(a) else VideoSubmit(a)
  }

  /** The request a submit sends: the held file, to the endpoint of the uploader's mode. */
  lemma SubmitSends(a: AppState)
    ensures var r := Submit(a).1;
      && (r.Some? <==> a.selected.Some?)
      && (r.Some? ==>
        && r.value.file == a.selected.value && r.value.field == "file"
        && r.value.httpMethod == "POST"
        && r.value.url == (if a.page.mode == Image then "http://127.0.0.1:8000/predict_image"
                           else "http://127.0.0.1:8000/predict_video"))
  {
  }

  // ---------------------------------------------------------------------------
  // What is on screen

  /** The preview of the mounted uploader; while it is null the file input is shown instead. */
  function ShownPreview(a: AppState): Option<Url> {
    if a.page.mode == Image then a.page.imagePreview else a.page.videoPreview
  }

  /** The submit button is disabled while no file is held or a request is loading. */
  predicate SubmitDisabled(a: AppState) {
    a.selected.None? || a.page.isLoading
  }

  /**
   * The file input is marked `required`: while it is on screen and empty, the
   * browser refuses to submit the form, so `handleSubmit` does not run even
   * when the button is enabled.
   */
  predicate InputBlocksSubmit(a: AppState) {
    ShownPreview(a).None? && !a.inputFilled
  }

  /**
   * What React does to the input between `a` and `b`: when a shown preview
   * gives way to the file input, a new, empty input element is mounted.
   */
  function Remount(a: AppState, b: AppState): AppState {
    if ShownPreview(a).Some? && ShownPreview(b).None? then b.(inputFilled := false) else b
  }

  /** The result panel. */
  function Panel(a: AppState): View {
    SelectView(a.page.result, a.page.error, a.page.gradcamHeatmap, a.page.mode)
  }

  // ---------------------------------------------------------------------------
  // Events

  datatype Event =
    | ChooseMode(mode: Mode)               // a MediaSelector button
    | PickFile(file: Option<File>)         // the file input's change event
    | ClearPreview                         // the X on the preview
    | PressSubmit                          // the Analyze button
    | Settle(path: Mode, outcome: Outcome) // a request of that path settles
    | PressReset                           // "Try Again" or "Check New …"

  /**
   * `handleModeChange`, plus what React does with the uploaders: switching to
   * the other mode unmounts the mounted uploader, so the file it held is
   * gone; choosing the current mode keeps the uploader and its file. Either
   * way the file input on screen is empty: `handleReset` empties an input
   * that is on screen, and one that replaces a preview or an unmounted
   * uploader is new.
   */
  function SwitchMode(a: AppState, m: Mode): (b: AppState)
    ensures b.page == ModeChange(a.page, m) && b.urls == a.urls
    ensures b.selected == if m == a.page.mode then a.selected else None
    ensures !b.inputFilled
  {
    a.(page := ModeChange(a.page, m), selected := if m == a.page.mode then a.selected else None,
       inputFilled := false)
  }

  /**
   * One event, as the rendered page lets it through: a control that is not
   * on screen, a disabled button or a form the browser refuses to submit
   * leaves the dashboard as it is. The URL registry stays well formed.
   */
  function Step(a: AppState, e: Event): (b: AppState)
    requires WellFormed(a.urls)
    ensures WellFormed(b.urls)
    ensures e.PickFile? && ShownPreview(a).Some? ==> b == a
    ensures e.ClearPreview? && ShownPreview(a).None? ==> b == a
    ensures e.PressSubmit? && (SubmitDisabled(a) || InputBlocksSubmit(a)) ==> b == a
    ensures e.PressReset? && Panel(a).Placeholder? ==> b == a
    ensures e.ChooseMode? ==> b.page.mode == e.mode && !b.inputFilled
  {
    match e
    case ChooseMode(m) => SwitchMode(a, m)
    case PickFile(f) =>
      // The browser fills (or, for an empty pick, empties) the input before
      // the change handler runs; a rejected video stays in the input.
      if ShownPreview(a).Some? then a
      else if a.page.mode == Image then ImageFileChange(a.(inputFilled := f.Some?), f)
      else VideoFileChange(a.(inputFilled := f.Some?), f)
    case ClearPreview =>
      if ShownPreview(a).None? then a
      else if a.page.mode == Image then Remount(a, ImageClear(a))
      else Remount(a, VideoClear(a))
    case PressSubmit =>
      if SubmitDisabled(a) || InputBlocksSubmit(a) then a else Submit(a).0
    case Settle(path, o) =>
      if path == Image && a.page.imageInFlight > 0 then Remount(a, a.(page := CompleteImage(a.page, o)))
      else if path == Video && a.page.videoInFlight > 0 then Remount(a, a.(page := CompleteVideo(a.page, o)))
      else a
    case PressReset =>
      // `handleReset` empties the file input on screen; one that replaces
      // the preview is new and empty.
      if Panel(a).Placeholder? then a else a.(page := Session.Reset(a.page), inputFilled := false)
  }

  function Run(a: AppState, es: seq<Event>): AppState
    requires WellFormed(a.urls)
    decreases |es|
  {
    if es == [] then a
    else
      Run(Step(a, es[0]), es[1..])
  }

  // ---------------------------------------------------------------------------
  // The session invariant

  /**
   * What holds of every state the dashboard can reach: at most one request in
   * flight and `isLoading` exactly while one is; no output while loading;
   * never a result and an error together; never a preview of the other mode;
   * every preview on the page is a live object URL.
   */
  ghost predicate Inv(a: AppState) {
    var p := a.page;
    && WellFormed(a.urls)
    && p.imageInFlight + p.videoInFlight <= 1
    && (p.isLoading <==> p.imageInFlight + p.videoInFlight == 1)
    && (p.isLoading ==> p.result.None? && p.error == "")
    && !(p.result.Some? && p.error != "")
    && (p.mode == Image ==> p.videoPreview.None?)
    && (p.mode == Video ==> p.imagePreview.None?)
    && (p.imagePreview.Some? ==> p.imagePreview.value in a.urls.live)
    && (p.videoPreview.Some? ==> p.videoPreview.value in a.urls.live)
  }

  lemma InitInv(urls: Registry)
    requires WellFormed(urls)
    ensures Inv(Init(urls))
  {
  }

  lemma StepInv(a: AppState, e: Event)
    requires Inv(a)
    ensures Inv(Step(a, e))
  {
  }

  /** Every sequence of actions keeps the invariant. */
  lemma {:induction false} RunInv(a: AppState, es: seq<Event>)
    requires Inv(a)
    ensures Inv(Run(a, es))
    decreases |es|
  {
    if es != [] {
      StepInv(a, es[0]);
      RunInv(Step(a, es[0]), es[1..]);
    }
  }

  /** Hence at most one request is ever in flight, from the first render on. */
  lemma SingleFlight(urls: Registry, es: seq<Event>)
    requires WellFormed(urls)
    ensures var p := Run(Init(urls), es).page;
      p.imageInFlight + p.videoInFlight <= 1 && (p.isLoading <==> p.imageInFlight + p.videoInFlight == 1)
  {
    InitInv(urls);
    RunInv(Init(urls), es);
  }

  /**
   * The file input is on screen exactly while the mounted uploader has no
   * preview, and the X exactly while it has one: picking while a preview is
   * shown, or clearing while none is, does nothing.
   */
  lemma PreviewReplacesInput(a: AppState, f: Option<File>)
    requires Inv(a)
    ensures ShownPreview(a).Some? ==> Step(a, PickFile(f)) == a
    ensures ShownPreview(a).None? ==> Step(a, ClearPreview) == a
    ensures ShownPreview(a).None? && f.Some? && a.page.mode == Image ==>
      ShownPreview(Step(a, PickFile(f))).Some?
  {
  }

  /**
   * Pressing submit sends a request exactly when the button is enabled (a
   * file is held, nothing is loading) and the form passes the browser's
   * check of the `required` input (a preview is shown, or the input on
   * screen holds a file).
   */
  lemma SubmitOnlyWhenEnabled(a: AppState)
    requires Inv(a)
    ensures SubmitDisabled(a) || InputBlocksSubmit(a) ==> Step(a, PressSubmit) == a
    ensures !SubmitDisabled(a) && !InputBlocksSubmit(a) ==>
      && Submit(a).1.Some?
      && Step(a, PressSubmit).page.isLoading
      && Step(a, PressSubmit).page.imageInFlight + Step(a, PressSubmit).page.videoInFlight == 1
  {
  }

  /**
   * After a failed image request the button is enabled again, but the
   * preview is gone and the new input is empty, so pressing it sends
   * nothing until a file is picked again.
   */
  lemma RetryBlockedAfterFailure(f: File, msg: string)
    ensures var a := Step(Step(Init(Registry(0, {})), PickFile(Some(f))), PressSubmit);
      var b := Step(a, Settle(Image, NetworkError(msg)));
      && a.page.imageInFlight == 1
      && !SubmitDisabled(b) && InputBlocksSubmit(b)
      && Step(b, PressSubmit) == b && b.page.imageInFlight == 0
  {
  }

  // ---------------------------------------------------------------------------
  // Settling a request

  /**
   * When a request settles, loading ends and the panel shows exactly one of
   * the report (on success) and the error card (on failure); the error is
   * never empty and on the image path a success also sets the heatmap.
   */
  lemma SettleDecides(a: AppState, path: Mode, o: Outcome)
    requires Inv(a)
    requires if path == Image then a.page.imageInFlight > 0 else a.page.videoInFlight > 0
    ensures var b := Step(a, Settle(path, o)).page;
      && !b.isLoading
      && (b.result.Some? <==> b.error == "")
      && (o.Ok? ==> b.result == Some(o.data) && b.error == "")
      && (o.Ok? && path == Image ==> b.gradcamHeatmap == o.data.gradcamHeatmap)
      && (!o.Ok? && path == Image ==> b.error == ImageFailureMessage(o) && b.imagePreview.None?)
      && (!o.Ok? && path == Video ==> b.error == VideoFailureMessage(o) && b.videoPreview.None?)
  {
  }

  /** The panel after a settle: the report for a success, the error card with the message otherwise. */
  lemma SettleView(a: AppState, path: Mode, o: Outcome)
    requires Inv(a)
    requires if path == Image then a.page.imageInFlight > 0 else a.page.videoInFlight > 0
    ensures var b := Step(a, Settle(path, o));
      && (o.Ok? ==> Panel(b).Report?)
      && (!o.Ok? ==> Panel(b) == ErrorCard(if path == Image then ImageFailureMessage(o) else VideoFailureMessage(o)))
  {
    SettleDecides(a, path, o);
  }

  /**
   * No response is ever discarded: an image request sent before a switch to
   * video mode still writes its result and heatmap into the video session.
   * The panel then shows the image verdict under video mode, without the
   * heatmap.
   */
  lemma LateResultAfterModeSwitch(a: AppState, d: AnalysisResult)
    requires Inv(a) && a.page.mode == Image && !SubmitDisabled(a) && !InputBlocksSubmit(a)
    ensures var b := Step(Step(Step(a, PressSubmit), ChooseMode(Video)), Settle(Image, Ok(d)));
      && b.page.mode == Video && b.selected.None?
      && b.page.result == Some(d) && b.page.gradcamHeatmap == d.gradcamHeatmap
      && Panel(b) == Report(RenderReport(d, d.gradcamHeatmap, Video))
      && Panel(b).card.heatmap.None?
  {
    var a1 := Step(a, PressSubmit);
    assert a1.page.imageInFlight == 1;
    StepInv(a, PressSubmit);
  }

  /** A late failure likewise lands in the session that replaced the one that sent it. */
  lemma LateFailureAfterModeSwitch(a: AppState, msg: string)
    requires Inv(a) && a.page.mode == Video && !SubmitDisabled(a) && !InputBlocksSubmit(a)
    ensures var b := Step(Step(Step(a, PressSubmit), ChooseMode(Image)), Settle(Video, NetworkError(msg)));
      && b.page.mode == Image
      && Panel(b) == ErrorCard(if msg != "" then msg else VideoFallback)
  {
    var a1 := Step(a, PressSubmit);
    assert a1.page.videoInFlight == 1;
    StepInv(a, PressSubmit);
  }

  /** While a request is in flight the panel is the placeholder, so no reset button is on screen. */
  lemma NoResetWhileLoading(a: AppState)
    requires Inv(a) && a.page.isLoading
    ensures Step(a, PressReset) == a
  {
  }

  // ---------------------------------------------------------------------------
  // Mode change and reset

  /**
   * The mode buttons are never disabled, and `handleModeChange` calls
   * `handleReset`: pressing the current mode's button while loading clears
   * the page with the request still in flight.
   */
  lemma ModeButtonResetsWhileLoading(a: AppState)
    requires Inv(a) && a.page.isLoading
    ensures var b := Step(a, ChooseMode(a.page.mode));
      && Cleared(b.page) && b.page.isLoading && b.page.mode == a.page.mode
      && b.page.imageInFlight == a.page.imageInFlight && b.page.videoInFlight == a.page.videoInFlight
  {
  }

  /**
   * Choosing the other mode leaves nothing of the old one: no file, no
   * preview, no result or error, no heatmap, the placeholder on screen. A
   * request in flight keeps `isLoading` on.
   */
  lemma SwitchClearsSession(a: AppState, m: Mode)
    requires Inv(a) && m != a.page.mode
    ensures var b := Step(a, ChooseMode(m));
      && b.page.mode == m && b.selected.None? && Cleared(b.page)
      && Panel(b) == Placeholder && ShownPreview(b).None?
      && b.page.isLoading == a.page.isLoading
  {
  }

  /**
   * Pressing the current mode's button keeps the uploader's file but leaves
   * the `required` input empty, so submitting sends nothing, even if the
   * input held a (rejected) file before.
   */
  lemma ModeButtonEmptiesInput(a: AppState)
    requires Inv(a)
    ensures var b := Step(a, ChooseMode(a.page.mode));
      && b.selected == a.selected && InputBlocksSubmit(b) && Step(b, PressSubmit) == b
  {
  }

  /**
   * Reset clears the page but not the mounted uploader's file: the submit
   * button stays enabled, but the file input is empty, so the `required`
   * check blocks the submit until a file is picked.
   */
  lemma ResetKeepsFile(a: AppState)
    requires Inv(a) && Panel(a) != Placeholder && a.selected.Some?
    ensures var b := Step(a, PressReset);
      && Cleared(b.page) && ShownPreview(b).None? && b.selected == a.selected
      && !SubmitDisabled(b) && InputBlocksSubmit(b) && Step(b, PressSubmit) == b
  {
  }

  /**
   * A rejected video stays in the input, which satisfies the `required`
   * check: after a reset, picking a rejected video and pressing submit
   * sends the file the uploader still holds from before.
   */
  lemma RejectedPickResendsHeldFile(a: AppState, g: File)
    requires Inv(a) && a.page.mode == Video && Panel(a) != Placeholder && a.selected.Some?
    requires ValidateVideo(g) != Accepted
    ensures var b := Step(Step(a, PressReset), PickFile(Some(g)));
      && b.selected == a.selected && !SubmitDisabled(b) && !InputBlocksSubmit(b)
      && Submit(b).1 == Some(VideoRequest(a.selected.value))
      && Step(b, PressSubmit).page.videoInFlight == 1
  {
  }

  // ---------------------------------------------------------------------------
  // Object URLs

  /**
   * A rejected video leaves the page, the held file and the URLs as they
   * were; only the browser's input now holds the rejected file.
   */
  lemma RejectedVideoChangesNothing(a: AppState, f: File)
    requires Inv(a) && a.page.mode == Video && ValidateVideo(f) != Accepted
    ensures var b := Step(a, PickFile(Some(f)));
      && b.page == a.page && b.selected == a.selected && b.urls == a.urls
      && (ShownPreview(a).None? ==> b.inputFilled)
  {
  }

  /** The video uploader's clear revokes exactly the URL of its preview. */
  lemma VideoClearRevokes(a: AppState, u: Url)
    requires Inv(a) && a.page.mode == Video && a.page.videoPreview == Some(u)
    ensures var b := Step(a, ClearPreview);
      b.urls.live == a.urls.live - {u} && u !in b.urls.live && b.selected.None?
  {
  }

  /** The image uploader's clear drops its preview but the URL stays live. */
  lemma ImageClearLeaks(a: AppState, u: Url)
    requires Inv(a) && a.page.mode == Image && a.page.imagePreview == Some(u)
    ensures var b := Step(a, ClearPreview);
      b.urls == a.urls && u in b.urls.live && b.page.imagePreview.None?
  {
  }

  /** Only the video preview's URL can be revoked, and a URL never becomes the video preview later. */
  lemma StepKeepsUrl(a: AppState, e: Event, u: Url)
    requires Inv(a) && u in a.urls.live && a.page.videoPreview != Some(u)
    ensures var b := Step(a, e); u in b.urls.live && b.page.videoPreview != Some(u)
  {
  }

  /**
   * A live URL that is not the current video preview stays live for the
   * rest of the session: whatever happens next, only the video uploader's
   * clear revokes anything.
   */
  lemma {:induction false} UrlStaysLive(a: AppState, es: seq<Event>, u: Url)
    requires Inv(a) && u in a.urls.live && a.page.videoPreview != Some(u)
    ensures u in Run(a, es).urls.live
    decreases |es|
  {
    if es != [] {
      StepKeepsUrl(a, es[0], u);
      StepInv(a, es[0]);
      UrlStaysLive(Step(a, es[0]), es[1..], u);
    }
  }

  /** In particular, no image preview URL is ever revoked. */
  lemma ImagePreviewNeverRevoked(a: AppState, es: seq<Event>)
    requires Inv(a) && a.page.imagePreview.Some?
    ensures a.page.imagePreview.value in Run(a, es).urls.live
  {
    UrlStaysLive(a, es, a.page.imagePreview.value);
  }

  /** Pick, clear, pick again in image mode: two live URLs while one preview is on screen. */
  lemma ImageReselectLeaks(f: File, g: File)
    ensures var b := Step(Step(Step(Init(Registry(0, {})), PickFile(Some(f))), ClearPreview), PickFile(Some(g)));
      b.urls.live == {0, 1} && b.page.imagePreview == Some(1)
  {
  }

  /** The same in video mode leaves only the new file's URL live. */
  lemma VideoReselectReleases(f: File, g: File)
    requires ValidateVideo(f) == Accepted && ValidateVideo(g) == Accepted
    ensures var b := Step(Step(Step(Step(Init(Registry(0, {})), ChooseMode(Video)), PickFile(Some(f))),
                               ClearPreview), PickFile(Some(g)));
      b.urls.live == {1} && b.page.videoPreview == Some(1)
  {
  }
}
