/**
 * The values that flow through the dashboard: the analysis mode, the file a
 * user picks, the verdict the inference service returns, the outcome of one
 * request and the request itself.
 */
module Media {
  import opened Wrappers

  /** The dashboard's `mode`: the strings 'image' and 'video' in the source. */
  datatype Mode = Image | Video

  /** A browser `File`: its name, its declared MIME type and its size in bytes. */
  datatype File = File(name: string, mimeType: string, size: nat)

  /** `prediction` of a response body. */
  datatype Prediction = Prediction(predictedClass: string, confidenceStr: string)

  /** `metadata` of a response body; `width` and `height` may be absent. */
  datatype Metadata = Metadata(filename: string, width: Option<int>, height: Option<int>)

  /** The parsed body of a successful response (`data` in the source). */
  datatype AnalysisResult = AnalysisResult(
    prediction: Prediction,
    metadata: Metadata,
    explanation: Option<string>,
    gradcamHeatmap: Option<string>)

  /**
   * How one request ends. `HttpError` is a response whose `ok` is false, with
   * the `detail` string its JSON body carried (None when the body had none or
   * could not be parsed). `NetworkError` is any exception that escapes the
   * request or the parsing of a success body, with its `message`.
   */
  datatype Outcome =
    | Ok(data: AnalysisResult)
    | HttpError(statusText: string, detail: Option<string>)
    | NetworkError(message: string)

  /** A multipart POST carrying one file under one form field. */
  datatype Request = Request(url: string, httpMethod: string, field: string, file: File)

  /** JavaScript truthiness of a string: only the empty string is falsy. */
  predicate Truthy(s: string) {
    s != ""
  }

  /** Truthiness of a string that may be missing. */
  predicate TruthyText(s: Option<string>) {
    s.Some? && s.value != ""
  }

  /** Truthiness of a number that may be missing: missing and 0 are falsy. */
  predicate TruthyNumber(n: Option<int>) {
    n.Some? && n.value != 0
  }

  /** JavaScript's `a || b` on strings. */
  function OrElse(a: string, b: string): (r: string)
    ensures Truthy(a) ==> r == a
    ensures !Truthy(a) ==> r == b
    ensures Truthy(r) <==> Truthy(a) || Truthy(b)
  {
    if a != "" then a else b
  }
}
