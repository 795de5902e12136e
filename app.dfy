/**
 * The dashboard as it is put together in app/dashboard/page.js: the page,
 * the uploader for the current mode, and the browser's object URLs. Each
 * method is one user action or one settled request, taken through the
 * handler the rendered page wires it to; `Valid` carries the session
 * invariant `Workflow.Inv`.
 */
module App {
  import opened Wrappers
  import opened Media
  import opened Urls
  import opened Session
  import opened Intake
  import opened Report
  import opened Dashboard
  import opened Uploaders
  import opened Workflow

  class DashboardApp {
    const page: DashboardPage
    const urls: UrlRegistry
    // The uploader mounted for each mode; only the current mode's one is on screen.
    var image: ImageUploader
    var video: VideoUploader

    ghost predicate Valid()
      reads this, page, urls, image, video
    {
      && image.page == page && image.urls == urls
      && video.page == page && video.urls == urls
      && urls.Valid()
      && Inv(Model())
    }

    ghost function Model(): AppState
      reads this, page, urls, image, video
    {
      AppState(page.State(),
               if page.mode == Image then image.selectedFile else video.selectedFile,
               if page.mode == Image then image.inputFilled else video.inputFilled,
               urls.State())
    }

    constructor (urls: UrlRegistry)
      requires urls.Valid()
      ensures Valid() && Model() == Init(urls.State())
      ensures fresh(page) && this.urls == urls
    {
      var p := new DashboardPage();
      page := p;
      this.urls := urls;
      image := new ImageUploader(p, urls);
      video := new VideoUploader(p, urls);
      new;
      InitInv(urls.State());
    }

    /**
     * A MediaSelector button: `handleModeChange`, and a fresh uploader when
     * the mode changes. Choosing the current mode keeps the uploader, whose
     * file input `handleReset` leaves empty.
     */
    method ChooseMode(m: Mode)
      requires Valid()
      modifies this, page, image, video
      ensures Valid() && Model() == Step(old(Model()), Event.ChooseMode(m))
    {
      ghost var before := Model();
      StepInv(before, Event.ChooseMode(m));
      var switching := m != page.mode;
      page.HandleModeChange(m);
      if switching {
        if m == Image {
          image := new ImageUploader(page, urls);
        } else {
          video := new VideoUploader(page, urls);
        }
      } else {
        if m == Image {
          image.inputFilled := false;
        } else {
          video.inputFilled := false;
        }
      }
    }

    /**
     * The file input's change event; the input is on screen only while there
     * is no preview. The browser puts the picked file into the input before
     * the uploader's handler runs.
     */
    method PickFile(file: Option<File>) returns (verdict: Option<Verdict>, alert: Option<string>)
      requires Valid()
      modifies this, page, urls, image, video
      ensures Valid() && Model() == Step(old(Model()), Event.PickFile(file))
      ensures verdict ==
        if old(ShownPreview(Model())).None? && old(page.mode) == Video && file.Some?
        then Some(ValidateVideo(file.value)) else None
      ensures alert == if verdict.None? then None else AlertText(verdict.value)
    {
      ghost var before := Model();
      StepInv(before, Event.PickFile(file));
      verdict, alert := None, None;
      if page.mode == Image {
        if page.imagePreview.None? {
          image.inputFilled := file.Some?;
          image.HandleFileChange(file);
        }
      } else if page.videoPreview.None? {
        video.inputFilled := file.Some?;
        verdict, alert := video.HandleFileChange(file);
      }
    }

    /** The X on the preview; it is on screen only while there is a preview. */
    method ClearPreview()
      requires Valid()
      modifies this, page, urls, image, video
      ensures Valid() && Model() == Step(old(Model()), Event.ClearPreview)
    {
      ghost var before := Model();
      StepInv(before, Event.ClearPreview);
      // The preview gives way to a new, empty file input.
      if page.mode == Image {
        if page.imagePreview.Some? {
          image.HandleClear();
          image.inputFilled := false;
        }
      } else if page.videoPreview.Some? {
        video.HandleClear();
        video.inputFilled := false;
      }
    }

    /**
     * The Analyze button. While it is disabled pressing it does nothing, and
     * while the `required` file input is on screen and empty the browser
     * does not submit the form.
     */
    method PressSubmit() returns (request: Option<Request>)
      requires Valid()
      modifies this, page, urls, image, video
      ensures Valid() && Model() == Step(old(Model()), Event.PressSubmit)
      ensures request ==
        if SubmitDisabled(old(Model())) || InputBlocksSubmit(old(Model())) then None
        else Submit(old(Model())).1
    {
      ghost var before := Model();
      StepInv(before, Event.PressSubmit);
      request := None;
      var selected := if page.mode == Image then image.selectedFile else video.selectedFile;
      var shown := if page.mode == Image then page.imagePreview else page.videoPreview;
      var filled := if page.mode == Image then image.inputFilled else video.inputFilled;
      if selected.Some? && !page.isLoading && (shown.Some? || filled) {
        if page.mode == Image {
          request := image.HandleSubmit();
        } else {
          request := video.HandleSubmit();
        }
      }
    }

    /**
     * A request of the given path settles. It can only settle after it was
     * sent, hence the precondition; nothing checks whether the session that
     * sent it is still current.
     */
    method Settle(path: Mode, outcome: Outcome)
      requires Valid()
      requires if path == Image then page.imageInFlight > 0 else page.videoInFlight > 0
      modifies this, page, urls, image, video
      ensures Valid() && Model() == Step(old(Model()), Event.Settle(path, outcome))
    {
      ghost var before := Model();
      StepInv(before, Event.Settle(path, outcome));
      var shown := if page.mode == Image then page.imagePreview else page.videoPreview;
      if path == Image {
        page.CompleteImagePredict(outcome);
      } else {
        page.CompleteVideoPredict(outcome);
      }
      RemountInput(shown);
    }

    /** "Try Again" on the error card or "Check New …" on the report: `handleReset`. */
    method PressReset()
      requires Valid()
      modifies this, page, urls, image, video
      ensures Valid() && Model() == Step(old(Model()), Event.PressReset)
    {
      ghost var before := Model();
      StepInv(before, Event.PressReset);
      var view := SelectView(page.result, page.error, page.gradcamHeatmap, page.mode);
      if !view.Placeholder? {
        page.HandleReset();
        // The input on screen is emptied; one that replaces the preview is new.
        if page.mode == Image {
          image.inputFilled := false;
        } else {
          video.inputFilled := false;
        }
      }
    }

    /**
     * React's re-render after the page changed: if the preview that was
     * shown (`shown`) is gone, the mounted uploader gets a new, empty file
     * input.
     */
    method RemountInput(shown: Option<Url>)
      modifies image, video
      ensures image.selectedFile == old(image.selectedFile) && video.selectedFile == old(video.selectedFile)
      ensures var now := if page.mode == Image then page.imagePreview else page.videoPreview;
        var filled := if page.mode == Image then old(image.inputFilled) else old(video.inputFilled);
        (if page.mode == Image then image.inputFilled else video.inputFilled)
          == (filled && !(shown.Some? && now.None?))
      ensures page.mode == Image ==> video.inputFilled == old(video.inputFilled)
      ensures page.mode == Video ==> image.inputFilled == old(image.inputFilled)
    {
      var now := if page.mode == Image then page.imagePreview else page.videoPreview;
      if shown.Some? && now.None? {
        if page.mode == Image {
          image.inputFilled := false;
        } else {
          video.inputFilled := false;
        }
      }
    }
  }
}
