/**
 * The two uploader components (components/ImageUploader.jsx and
 * components/VideoUploader.jsx). Each keeps the file it holds; the preview
 * handle it sets lives on the page it was mounted in, and object URLs come
 * from the browser's registry.
 */
module Uploaders {
  import opened Wrappers
  import opened Media
  import opened Urls
  import opened Session
  import opened Intake
  import opened Dashboard
  import opened Workflow

  class ImageUploader {
    var selectedFile: Option<File>
    // Whether the file input this uploader renders holds a file: the
    // browser's state of that element, set by the browser, not by a handler.
    var inputFilled: bool
    const page: DashboardPage
    const urls: UrlRegistry

    /** The dashboard as this uploader sees it. */
    ghost function Model(): AppState
      reads this, page, urls
    {
      AppState(page.State(), selectedFile, inputFilled, urls.State())
    }

    /** A freshly mounted uploader holds no file. */
    constructor (page: DashboardPage, urls: UrlRegistry)
      ensures this.page == page && this.urls == urls && selectedFile.None? && !inputFilled
    {
      this.page := page;
      this.urls := urls;
      selectedFile := None;
      inputFilled := false;
    }

    method HandleFileChange(file: Option<File>)
      requires urls.Valid()
      modifies this, page, urls
      ensures urls.Valid()
      ensures Model() == ImageFileChange(old(Model()), file)
    {
      if file.Some? {
        selectedFile := file;
        var u := urls.CreateObjectUrl();
        page.imagePreview := Some(u);
      }
    }

    method HandleClear()
      modifies this, page
      ensures Model() == ImageClear(old(Model()))
    {
      selectedFile := None;
      page.imagePreview := None;
    }

    method HandleSubmit() returns (request: Option<Request>)
      modifies page
      ensures (Model(), request) == ImageSubmit(old(Model()))
    {
      request := None;
      if selectedFile.Some? {
        var r := page.BeginImagePredict(selectedFile.value);
        request := Some(r);
      }
    }
  }

  class VideoUploader {
    var selectedFile: Option<File>
    // Whether the file input this uploader renders holds a file: the
    // browser's state of that element, set by the browser, not by a handler.
    var inputFilled: bool
    const page: DashboardPage
    const urls: UrlRegistry

    ghost function Model(): AppState
      reads this, page, urls
    {
      AppState(page.State(), selectedFile, inputFilled, urls.State())
    }

    constructor (page: DashboardPage, urls: UrlRegistry)
      ensures this.page == page && this.urls == urls && selectedFile.None? && !inputFilled
    {
      this.page := page;
      this.urls := urls;
      selectedFile := None;
      inputFilled := false;
    }

    /**
     * Returns the verdict on the picked file (None when nothing was picked)
     * and the text of the alert it raised, if any.
     */
    method HandleFileChange(file: Option<File>) returns (verdict: Option<Verdict>, alert: Option<string>)
      requires urls.Valid()
      modifies this, page, urls
      ensures urls.Valid()
      ensures Model() == VideoFileChange(old(Model()), file)
      ensures verdict == if file.None? then None else Some(ValidateVideo(file.value))
      ensures alert == if verdict.None? then None else AlertText(verdict.value)
    {
      verdict, alert := None, None;
      if file.Some? {
        var f := file.value;
        if f.mimeType !in VideoTypes {
          return Some(UnsupportedType), Some(UnsupportedTypeAlert);
        }
        if f.size > MaxVideoBytes {
          return Some(TooLarge), Some(TooLargeAlert);
        }
        selectedFile := file;
        var u := urls.CreateObjectUrl();
        page.videoPreview := Some(u);
        verdict := Some(Accepted);
      }
    }

    method HandleClear()
      requires urls.Valid()
      modifies this, page, urls
      ensures urls.Valid()
      ensures Model() == VideoClear(old(Model()))
    {
      selectedFile := None;
      if page.videoPreview.Some? {
        urls.RevokeObjectUrl(page.videoPreview.value);
      }
      page.videoPreview := None;
    }

    method HandleSubmit() returns (request: Option<Request>)
      modifies page
      ensures (Model(), request) == VideoSubmit(old(Model()))
    {
      request := None;
      if selectedFile.Some? {
        var r := page.BeginVideoPredict(selectedFile.value);
        request := Some(r);
      }
    }
  }
}
