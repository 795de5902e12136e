/**
 * The pure part of the report panel (components/ResultDisplay.jsx): which
 * card is shown, which blocks of the report appear, where the rasterised
 * report is placed on the PDF page, and the name of the saved file.
 */
module Report {
  import opened Wrappers
  import opened Media

  /** The blocks of a rendered report that depend on the data. */
  datatype ReportCard = ReportCard(
    fake: bool,                   // FAKE styling rather than REAL
    verdict: string,              // the predicted class, shown as is
    confidence: string,           // the pre-formatted confidence
    explanation: Option<string>,  // the explanation block, when shown
    heatmap: Option<string>,      // the heatmap block, when shown
    metadataTitle: string,
    filename: string,
    dimensions: Option<(int, int)>, // the dimensions row, when shown
    resetLabel: string)

  /** The three things the panel can show. */
  datatype View = ErrorCard(message: string) | Placeholder | Report(card: ReportCard)

  predicate IsFake(p: Prediction) {
    p.predictedClass == "FAKE"
  }

  /** The report for a result; the page's heatmap and mode are passed in as props. */
  function RenderReport(r: AnalysisResult, heatmap: Option<string>, mode: Mode): (c: ReportCard)
    ensures c.fake <==> r.prediction.predictedClass == "FAKE"
    ensures c.verdict == r.prediction.predictedClass && c.confidence == r.prediction.confidenceStr
    ensures c.explanation.Some? <==> TruthyText(r.explanation)
    ensures c.explanation.Some? ==> c.explanation == r.explanation
    ensures c.heatmap.Some? <==> TruthyText(heatmap) && mode == Image
    ensures c.heatmap.Some? ==> c.heatmap == heatmap
    ensures c.dimensions.Some? <==> TruthyNumber(r.metadata.width) && TruthyNumber(r.metadata.height)
    ensures c.dimensions.Some? ==>
      c.dimensions.value == (r.metadata.width.value, r.metadata.height.value)
    ensures c.filename == r.metadata.filename
  {
    var md := r.metadata;
    ReportCard(
      IsFake(r.prediction),
      r.prediction.predictedClass,
      r.prediction.confidenceStr,
      if TruthyText(r.explanation) then r.explanation else None,
      if TruthyText(heatmap) && mode == Image then heatmap else None,
      if mode == Image then "Image Metadata" else "Video Metadata",
      md.filename,
      if TruthyNumber(md.width) && TruthyNumber(md.height) then Some((md.width.value, md.height.value))
      else None,
      if mode == Image then "Check New Image" else "Check New Video")
  }

  /**
   * The panel: a non-empty error wins even over a result, no result gives the
   * placeholder, and otherwise the report is shown.
   */
  function SelectView(result: Option<AnalysisResult>, error: string, heatmap: Option<string>,
                      mode: Mode): (v: View)
    ensures v.ErrorCard? <==> Truthy(error)
    ensures v.ErrorCard? ==> v.message == error
    ensures v.Placeholder? <==> !Truthy(error) && result.None?
    ensures v.Report? <==> !Truthy(error) && result.Some?
    ensures v.Report? ==> v.card == RenderReport(result.value, heatmap, mode)
  {
    if Truthy(error) then ErrorCard(error)
    else if result.None? then Placeholder
    else Report(RenderReport(result.value, heatmap, mode))
  }

  /** The heatmap never appears in video mode, whatever the state holds. */
  lemma NoHeatmapInVideoMode(result: Option<AnalysisResult>, error: string, heatmap: Option<string>)
    ensures var v := SelectView(result, error, heatmap, Video); v.Report? ==> v.card.heatmap.None?
  {
  }

  /** Every predicted class other than the exact string "FAKE" is styled as REAL. */
  lemma OnlyExactFakeIsFake(r: AnalysisResult, heatmap: Option<string>, mode: Mode)
    requires r.prediction.predictedClass in {"fake", "Fake", "REAL", ""}
    ensures !RenderReport(r, heatmap, mode).fake
  {
  }

  /** A FAKE verdict at 92.3% for a.jpg. */
  lemma FakeExample()
    ensures var r := AnalysisResult(Prediction("FAKE", "92.3%"), Metadata("a.jpg", None, None), None, None);
      var v := SelectView(Some(r), "", None, Image);
      v.Report? && v.card.fake && v.card.confidence == "92.3%" && v.card.dimensions.None?
  {
  }

  // ---------------------------------------------------------------------------
  // PDF export geometry and naming

  /** Where the bitmap goes on the page: top-left corner, width and height. */
  datatype Placement = Placement(x: real, y: real, w: real, h: real)

  /**
   * The placement `handleGeneratePdf` computes: compare the canvas's aspect
   * ratio with the page's, pin the relatively wider side to the page, scale
   * the other side by the canvas ratio, then centre on both axes. The result
   * fits on the page, keeps the canvas's aspect ratio, fills one side of the
   * page and is centred.
   */
  function BestFit(canvasW: real, canvasH: real, pageW: real, pageH: real): (p: Placement)
    requires canvasW > 0.0 && canvasH > 0.0 && pageW > 0.0 && pageH > 0.0
    ensures 0.0 < p.w <= pageW && 0.0 < p.h <= pageH
    ensures p.w * canvasH == p.h * canvasW
    ensures p.w == pageW || p.h == pageH
    ensures 2.0 * p.x + p.w == pageW && 2.0 * p.y + p.h == pageH
    ensures p.x >= 0.0 && p.y >= 0.0
  {
    var canvasRatio := canvasW / canvasH;
    var pageRatio := pageW / pageH;
    var w := if canvasRatio > pageRatio then pageW else pageH * canvasRatio;
    var h := if canvasRatio > pageRatio then pageW / canvasRatio else pageH;
    Placement((pageW - w) / 2.0, (pageH - h) / 2.0, w, h)
  }

  /** No larger box with the canvas's aspect ratio fits on the page. */
  lemma BestFitIsLargest(canvasW: real, canvasH: real, pageW: real, pageH: real, w: real, h: real)
    requires canvasW > 0.0 && canvasH > 0.0 && pageW > 0.0 && pageH > 0.0
    requires 0.0 < w <= pageW && 0.0 < h <= pageH && w * canvasH == h * canvasW
    ensures var p := BestFit(canvasW, canvasH, pageW, pageH); w <= p.w && h <= p.h
  {
  }

  const ReportPrefix := "deepfake_report_"
  const ReportSuffix := ".pdf"

  /** The name the report is saved under; the result's filename can be read back out of it. */
  function ReportFilename(filename: string): (r: string)
    ensures |r| == |ReportPrefix| + |filename| + |ReportSuffix|
    ensures r[..|ReportPrefix|] == ReportPrefix && r[|r| - |ReportSuffix|..] == ReportSuffix
    ensures r[|ReportPrefix|..|r| - |ReportSuffix|] == filename
  {
    ReportPrefix + filename + ReportSuffix
  }

  /** The saved document: one A4 portrait page in px units with the PNG placed on it. */
  datatype PdfDocument = PdfDocument(
    orientation: string,
    unit: string,
    format: string,
    imageFormat: string,
    placement: Placement,
    filename: string)
}
