/**
 * `handleGeneratePdf` in components/ResultDisplay.jsx. Rasterising the
 * report is asynchronous, so the handler is three methods: the click, which
 * hides the action buttons and starts the rasterisation, and the two
 * continuations, which both show the buttons again.
 */
module Export {
  import opened Wrappers
  import opened Media
  import opened Report

  class ReportExporter {
    /** The result whose report is on screen (the component's `result` prop). */
    const result: AnalysisResult
    /** Whether the report's root element is mounted (`reportTemplateRef.current`). */
    const mounted: bool
    /** Whether the report holds an `.action-buttons` element. */
    const hasButtons: bool
    /** That element's inline `style.display`; "" leaves the stylesheet's flex layout. */
    var buttonsDisplay: string
    /** Rasterisations started and not yet finished. */
    ghost var rastersPending: nat

    constructor (result: AnalysisResult, mounted: bool, hasButtons: bool)
      ensures this.result == result && this.mounted == mounted && this.hasButtons == hasButtons
      ensures buttonsDisplay == "" && rastersPending == 0
    {
      this.result := result;
      this.mounted := mounted;
      this.hasButtons := hasButtons;
      buttonsDisplay := "";
      rastersPending := 0;
    }

    /** The click: without a mounted report nothing happens; otherwise the buttons are hidden. */
    method GeneratePdf() returns (started: bool)
      modifies this
      ensures started == mounted
      ensures !mounted ==> buttonsDisplay == old(buttonsDisplay) && rastersPending == old(rastersPending)
      ensures mounted ==> rastersPending == old(rastersPending) + 1
      ensures mounted && hasButtons ==> buttonsDisplay == "none"
      ensures !hasButtons ==> buttonsDisplay == old(buttonsDisplay)
    {
      if !mounted {
        return false;
      }
      if hasButtons {
        buttonsDisplay := "none";
      }
      rastersPending := rastersPending + 1;
      started := true;
    }

    /**
     * The canvas is ready: the buttons come back, and the document is one A4
     * portrait page in px with the canvas placed by `BestFit`, saved under
     * `ReportFilename`. The page size is what the PDF library reports.
     */
    method CanvasReady(canvasWidth: nat, canvasHeight: nat, pageWidth: real, pageHeight: real)
      returns (doc: PdfDocument)
      requires rastersPending > 0
      requires canvasWidth > 0 && canvasHeight > 0 && pageWidth > 0.0 && pageHeight > 0.0
      modifies this
      ensures rastersPending == old(rastersPending) - 1
      ensures buttonsDisplay == if hasButtons then "flex" else old(buttonsDisplay)
      ensures doc.orientation == "p" && doc.unit == "px" && doc.format == "a4"
      ensures doc.imageFormat == "PNG"
      ensures doc.placement == BestFit(canvasWidth as real, canvasHeight as real, pageWidth, pageHeight)
      ensures doc.filename == ReportFilename(result.metadata.filename)
    {
      if hasButtons {
        buttonsDisplay := "flex";
      }
      rastersPending := rastersPending - 1;
      var canvasRatio := (canvasWidth as real) / (canvasHeight as real);
      var pageRatio := pageWidth / pageHeight;
      var w, h;
      if canvasRatio > pageRatio {
        w := pageWidth;
        h := pageWidth / canvasRatio;
      } else {
        h := pageHeight;
        w := pageHeight * canvasRatio;
      }
      var x := (pageWidth - w) / 2.0;
      var y := (pageHeight - h) / 2.0;
      doc := PdfDocument("p", "px", "a4", "PNG", Placement(x, y, w, h),
                         "deepfake_report_" + result.metadata.filename + ".pdf");
    }

    /** Rasterising failed: the buttons come back and nothing is saved. */
    method CanvasFailed()
      requires rastersPending > 0
      modifies this
      ensures rastersPending == old(rastersPending) - 1
      ensures buttonsDisplay == if hasButtons then "flex" else old(buttonsDisplay)
    {
      if hasButtons {
        buttonsDisplay := "flex";
      }
      rastersPending := rastersPending - 1;
    }
  }

  /**
   * A whole export of a report with its buttons, ending either way: the
   * buttons are hidden while the report is rasterised and are shown (with
   * display "flex") once it ends, whether a document was produced or not.
   */
  method ExportRestoresButtons(result: AnalysisResult, rasterised: bool,
                               canvasWidth: nat, canvasHeight: nat, pageWidth: real, pageHeight: real)
    returns (hiddenDuring: bool, displayAfter: string, doc: Option<PdfDocument>)
    requires rasterised ==> canvasWidth > 0 && canvasHeight > 0 && pageWidth > 0.0 && pageHeight > 0.0
    ensures hiddenDuring && displayAfter == "flex"
    ensures doc.Some? <==> rasterised
    ensures doc.Some? ==> doc.value.filename == ReportFilename(result.metadata.filename)
  {
    var exporter := new ReportExporter(result, true, true);
    var started := exporter.GeneratePdf();
    hiddenDuring := exporter.buttonsDisplay == "none";
    if rasterised {
      var d := exporter.CanvasReady(canvasWidth, canvasHeight, pageWidth, pageHeight);
      doc := Some(d);
    } else {
      exporter.CanvasFailed();
      doc := None;
    }
    displayAfter := exporter.buttonsDisplay;
  }
}
