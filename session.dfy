/**
 * The dashboard page's session state (app/dashboard/page.js) and its
 * transitions as functions. Each asynchronous prediction handler is split
 * into the part that runs before its request is sent (`Begin…`) and the part
 * that runs when the request settles (`Complete…`, the code after `await`).
 */
module Session {
  import opened Wrappers
  import opened Media
  import opened Urls

  const ApiBase := "http://127.0.0.1:8000"
  const ImageEndpoint := ApiBase + "/predict_image"
  const VideoEndpoint := ApiBase + "/predict_video"
  /** The form field that carries the file in both requests. */
  const FileField := "file"

  /** The messages shown when a failure carries no message of its own. */
  const ImageFallback := "Failed to connect to server. Please ensure the backend is running."
  const VideoFallback :=
    "Failed to analyze video. Please ensure the backend is running and the video model is loaded."

  /**
   * The page's state variables. `imageInFlight` and `videoInFlight` count the
   * requests each handler has sent and not yet seen settle; the page itself
   * keeps no such count.
   */
  datatype PageState = PageState(
    mode: Mode,
    result: Option<AnalysisResult>,
    isLoading: bool,
    error: string,
    imagePreview: Option<Url>,
    videoPreview: Option<Url>,
    gradcamHeatmap: Option<string>,
    imageInFlight: nat,
    videoInFlight: nat)

  /** No output and no preview for either mode. */
  predicate Cleared(s: PageState) {
    s.result.None? && s.error == "" && s.imagePreview.None? && s.videoPreview.None?
    && s.gradcamHeatmap.None?
  }

  /** The page as it is first rendered. */
  function Initial(): (s: PageState)
    ensures s.mode == Image && Cleared(s) && !s.isLoading
    ensures s.imageInFlight == 0 && s.videoInFlight == 0
  {
    PageState(Image, None, false, "", None, None, None, 0, 0)
  }

  /**
   * `handleReset`: the result, the error, both previews and the heatmap are
   * cleared; the mode, the loading flag and any request in flight are kept.
   */
  function Reset(s: PageState): (r: PageState)
    ensures Cleared(r)
    ensures r.mode == s.mode && r.isLoading == s.isLoading
    ensures r.imageInFlight == s.imageInFlight && r.videoInFlight == s.videoInFlight
  {
    s.(result := None, error := "", imagePreview := None, videoPreview := None,
       gradcamHeatmap := None)
  }

  /** `handleModeChange`: the new mode, then everything `handleReset` clears. */
  function ModeChange(s: PageState, m: Mode): (r: PageState)
    ensures r.mode == m && Cleared(r)
    ensures r.isLoading == s.isLoading
    ensures r.imageInFlight == s.imageInFlight && r.videoInFlight == s.videoInFlight
  {
    Reset(s).(mode := m)
  }

  /**
   * What `handleImagePredict` does before its request: loading on, the error
   * and the result cleared, and the heatmap cleared too.
   */
  function BeginImage(s: PageState): (r: PageState)
    ensures r.isLoading && r.error == "" && r.result.None? && r.gradcamHeatmap.None?
    ensures r.imageInFlight == s.imageInFlight + 1 && r.videoInFlight == s.videoInFlight
    ensures r.mode == s.mode && r.imagePreview == s.imagePreview && r.videoPreview == s.videoPreview
  {
    s.(isLoading := true, error := "", result := None, gradcamHeatmap := None,
       imageInFlight := s.imageInFlight + 1)
  }

  /** What `handleVideoPredict` does before its request; it leaves the heatmap alone. */
  function BeginVideo(s: PageState): (r: PageState)
    ensures r.isLoading && r.error == "" && r.result.None? && r.gradcamHeatmap == s.gradcamHeatmap
    ensures r.videoInFlight == s.videoInFlight + 1 && r.imageInFlight == s.imageInFlight
    ensures r.mode == s.mode && r.imagePreview == s.imagePreview && r.videoPreview == s.videoPreview
  {
    s.(isLoading := true, error := "", result := None, videoInFlight := s.videoInFlight + 1)
  }

  /** The request each handler sends. */
  function ImageRequest(f: File): Request {
    Request(ImageEndpoint, "POST", FileField, f)
  }

  function VideoRequest(f: File): Request {
    Request(VideoEndpoint, "POST", FileField, f)
  }

  /** Both paths post the file under the same field, to two different endpoints. */
  lemma RequestsDiffer(f: File)
    ensures ImageRequest(f).field == VideoRequest(f).field == "file"
    ensures ImageRequest(f).url == "http://127.0.0.1:8000/predict_image"
    ensures VideoRequest(f).url == "http://127.0.0.1:8000/predict_video"
    ensures ImageRequest(f).url != VideoRequest(f).url
  {
  }

  /**
   * The error message the image handler stores for a failed outcome: the
   * message of the error its `try` block threw, or the fallback when that
   * message is empty. A non-ok response throws "Server error: " + statusText
   * and its body is never read.
   */
  function ImageFailureMessage(o: Outcome): (m: string)
    requires !o.Ok?
    ensures m != ""
    ensures o.HttpError? ==> m == "Server error: " + o.statusText
    ensures o.NetworkError? && o.message != "" ==> m == o.message
    ensures o.NetworkError? && o.message == "" ==> m == ImageFallback
  {
    var thrown := if o.HttpError? then "Server error: " + o.statusText else o.message;
    OrElse(thrown, ImageFallback)
  }

  /**
   * The error message the video handler stores: for a non-ok response, the
   * body's `detail` when it is there and non-empty, else "Server error: " +
   * statusText; for any other failure its own message or the fallback.
   */
  function VideoFailureMessage(o: Outcome): (m: string)
    requires !o.Ok?
    ensures m != ""
    ensures o.HttpError? && TruthyText(o.detail) ==> m == o.detail.value
    ensures o.HttpError? && !TruthyText(o.detail) ==> m == "Server error: " + o.statusText
    ensures o.NetworkError? && o.message != "" ==> m == o.message
    ensures o.NetworkError? && o.message == "" ==> m == VideoFallback
  {
    var thrown :=
      if o.HttpError? then
        OrElse(if o.detail.Some? then o.detail.value else "", "Server error: " + o.statusText)
      else o.message;
    OrElse(thrown, VideoFallback)
  }

  /**
   * The image handler after its request settles: on success the body becomes
   * the result and its heatmap the page's heatmap; on failure the message
   * becomes the error and the image preview is dropped. Loading ends either
   * way. Nothing checks that the session is still the one that sent the
   * request.
   */
  function CompleteImage(s: PageState, o: Outcome): (r: PageState)
    requires s.imageInFlight > 0
    ensures !r.isLoading && r.imageInFlight == s.imageInFlight - 1
    ensures r.videoInFlight == s.videoInFlight
    ensures r.mode == s.mode && r.videoPreview == s.videoPreview
    ensures o.Ok? ==> r.result == Some(o.data) && r.gradcamHeatmap == o.data.gradcamHeatmap
    ensures o.Ok? ==> r.error == s.error && r.imagePreview == s.imagePreview
    ensures !o.Ok? ==> r.error == ImageFailureMessage(o) && r.error != ""
    ensures !o.Ok? ==> r.result == s.result && r.imagePreview.None?
    ensures !o.Ok? ==> r.gradcamHeatmap == s.gradcamHeatmap
  {
    var settled := s.(imageInFlight := s.imageInFlight - 1);
    var after :=
      if o.Ok? then settled.(result := Some(o.data), gradcamHeatmap := o.data.gradcamHeatmap)
      else settled.(error := ImageFailureMessage(o), imagePreview := None);
    after.(isLoading := false)
  }

  /** The video handler after its request settles; it never touches the heatmap. */
  function CompleteVideo(s: PageState, o: Outcome): (r: PageState)
    requires s.videoInFlight > 0
    ensures !r.isLoading && r.videoInFlight == s.videoInFlight - 1
    ensures r.imageInFlight == s.imageInFlight
    ensures r.mode == s.mode && r.imagePreview == s.imagePreview
    ensures r.gradcamHeatmap == s.gradcamHeatmap
    ensures o.Ok? ==> r.result == Some(o.data) && r.error == s.error
    ensures o.Ok? ==> r.videoPreview == s.videoPreview
    ensures !o.Ok? ==> r.error == VideoFailureMessage(o) && r.error != ""
    ensures !o.Ok? ==> r.result == s.result && r.videoPreview.None?
  {
    var settled := s.(videoInFlight := s.videoInFlight - 1);
    var after :=
      if o.Ok? then settled.(result := Some(o.data))
      else settled.(error := VideoFailureMessage(o), videoPreview := None);
    after.(isLoading := false)
  }
}
