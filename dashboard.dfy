/**
 * The dashboard page (app/dashboard/page.js) as an object whose fields are
 * its state variables and whose methods are its handlers. Each asynchronous
 * predict handler is two methods: `Begin…Predict`, which runs up to the
 * `fetch`, and `Complete…Predict`, which runs when the request settles.
 */
module Dashboard {
  import opened Wrappers
  import opened Media
  import opened Urls
  import opened Session

  class DashboardPage {
    var mode: Mode
    var result: Option<AnalysisResult>
    var isLoading: bool
    var error: string
    var imagePreview: Option<Url>
    var videoPreview: Option<Url>
    var gradcamHeatmap: Option<string>
    // Requests each handler has sent that have not settled yet.
    ghost var imageInFlight: nat
    ghost var videoInFlight: nat

    ghost function State(): PageState
      reads this
    {
      PageState(mode, result, isLoading, error, imagePreview, videoPreview, gradcamHeatmap,
                imageInFlight, videoInFlight)
    }

    constructor ()
      ensures State() == Session.Initial()
    {
      mode := Image;
      result := None;
      isLoading := false;
      error := "";
      imagePreview := None;
      videoPreview := None;
      gradcamHeatmap := None;
      imageInFlight, videoInFlight := 0, 0;
    }

    method HandleModeChange(newMode: Mode)
      modifies this
      ensures State() == ModeChange(old(State()), newMode)
    {
      mode := newMode;
      HandleReset();
    }

    method HandleReset()
      modifies this
      ensures State() == Reset(old(State()))
    {
      result := None;
      error := "";
      imagePreview := None;
      videoPreview := None;
      gradcamHeatmap := None;
    }

    method BeginImagePredict(file: File) returns (request: Request)
      modifies this
      ensures State() == BeginImage(old(State()))
      ensures request == ImageRequest(file)
    {
      isLoading := true;
      error := "";
      result := None;
      gradcamHeatmap := None;
      request := Request(ImageEndpoint, "POST", FileField, file);
      imageInFlight := imageInFlight + 1;
    }

    method CompleteImagePredict(outcome: Outcome)
      requires imageInFlight > 0
      modifies this
      ensures State() == CompleteImage(old(State()), outcome)
    {
      imageInFlight := imageInFlight - 1;
      match outcome {
        case Ok(data) =>
          result := Some(data);
          gradcamHeatmap := data.gradcamHeatmap;
        case HttpError(statusText, _) =>
          error := OrElse("Server error: " + statusText, ImageFallback);
          imagePreview := None;
        case NetworkError(message) =>
          error := OrElse(message, ImageFallback);
          imagePreview := None;
      }
      isLoading := false;
    }

    method BeginVideoPredict(file: File) returns (request: Request)
      modifies this
      ensures State() == BeginVideo(old(State()))
      ensures request == VideoRequest(file)
    {
      isLoading := true;
      error := "";
      result := None;
      request := Request(VideoEndpoint, "POST", FileField, file);
      videoInFlight := videoInFlight + 1;
    }

    method CompleteVideoPredict(outcome: Outcome)
      requires videoInFlight > 0
      modifies this
      ensures State() == CompleteVideo(old(State()), outcome)
    {
      videoInFlight := videoInFlight - 1;
      match outcome {
        case Ok(data) =>
          result := Some(data);
        case HttpError(statusText, detail) =>
          var detailText := if detail.Some? then detail.value else "";
          error := OrElse(OrElse(detailText, "Server error: " + statusText), VideoFallback);
          videoPreview := None;
        case NetworkError(message) =>
          error := OrElse(message, VideoFallback);
          videoPreview := None;
      }
      isLoading := false;
    }
  }
}
