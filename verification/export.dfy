/** The two export operators of operators/export_operators.py: the JSON
    results record (its identical copy in ui_components.py is modelled by
    the same members) and the HTML report's table rows. Both are
    projections of the camera list kept in `scene.rc_metrics`; writing the
    files, the report's styling and its time stamp are not modelled. */
module Export {
  import opened Wrappers
  import opened Seqs
  import opened Strings
  import opened Scene
  import opened CameraUtils
  import opened MetricsOperators
  import opened FileUtils

  /** The rows that carry metrics, in list order. */
  function WithResults(cams: seq<CameraItem>): seq<CameraItem> {
    Filter(cams, (c: CameraItem) => c.hasResults)
  }

  /** `[cam.psnr for cam in cameras if cam.has_results]`. */
  function PsnrColumn(cams: seq<CameraItem>): (xs: seq<real>)
    ensures |xs| == |WithResults(cams)|
    ensures forall k :: 0 <= k < |xs| ==> xs[k] == WithResults(cams)[k].psnr
  {
    var w := WithResults(cams);
    seq(|w|, k requires 0 <= k < |w| => w[k].psnr)
  }

  /** `[cam.ssim for cam in cameras if cam.has_results]`. */
  function SsimColumn(cams: seq<CameraItem>): (xs: seq<real>)
    ensures |xs| == |WithResults(cams)|
    ensures forall k :: 0 <= k < |xs| ==> xs[k] == WithResults(cams)[k].ssim
  {
    var w := WithResults(cams);
    seq(|w|, k requires 0 <= k < |w| => w[k].ssim)
  }

  /** `min(xs, default=0)`: the smallest value, or 0 for an empty list. */
  function MinOrZero(xs: seq<real>): (r: real)
    ensures xs == [] ==> r == 0.0
    ensures xs != [] ==> r in xs && forall k :: 0 <= k < |xs| ==> r <= xs[k]
    decreases |xs|
  {
    if xs == [] then 0.0
    else if |xs| == 1 then xs[0]
    else
      var m := MinOrZero(xs[..|xs| - 1]);
      assert m in xs[..|xs| - 1];
      if xs[|xs| - 1] < m then xs[|xs| - 1] else m
  }

  /** `max(xs, default=0)`: the largest value, or 0 for an empty list. */
  function MaxOrZero(xs: seq<real>): (r: real)
    ensures xs == [] ==> r == 0.0
    ensures xs != [] ==> r in xs && forall k :: 0 <= k < |xs| ==> xs[k] <= r
    decreases |xs|
  {
    if xs == [] then 0.0
    else if |xs| == 1 then xs[0]
    else
      var m := MaxOrZero(xs[..|xs| - 1]);
      assert m in xs[..|xs| - 1];
      if xs[|xs| - 1] > m then xs[|xs| - 1] else m
  }

  lemma WithResultsMembership(cams: seq<CameraItem>)
    ensures forall c :: c in WithResults(cams) <==> c in cams && c.hasResults
  {
    forall c ensures c in WithResults(cams) <==> c in cams && c.hasResults {
      FilterMembership(cams, (c: CameraItem) => c.hasResults, c);
    }
  }

  /** The exported minimum and maximum PSNR range over the rows with
      results only: they are the values of such rows and bound all of them;
      with no such row both are 0. */
  lemma PsnrBoundsOverResults(cams: seq<CameraItem>)
    ensures (forall c :: c in cams ==> !c.hasResults) ==>
              MinOrZero(PsnrColumn(cams)) == 0.0 && MaxOrZero(PsnrColumn(cams)) == 0.0
    ensures forall c :: c in cams && c.hasResults ==>
              MinOrZero(PsnrColumn(cams)) <= c.psnr <= MaxOrZero(PsnrColumn(cams))
    ensures (exists c :: c in cams && c.hasResults) ==>
              (exists c :: c in cams && c.hasResults && c.psnr == MinOrZero(PsnrColumn(cams))) &&
              (exists c :: c in cams && c.hasResults && c.psnr == MaxOrZero(PsnrColumn(cams)))
  {
    var w := WithResults(cams);
    var xs := PsnrColumn(cams);
    WithResultsMembership(cams);
    forall c | c in cams && c.hasResults
      ensures MinOrZero(xs) <= c.psnr <= MaxOrZero(xs)
    {
      var k :| 0 <= k < |w| && w[k] == c;
      assert xs[k] == c.psnr;
    }
    if exists c :: c in cams && c.hasResults {
      var c :| c in cams && c.hasResults;
      assert c in w;
      var i :| 0 <= i < |xs| && xs[i] == MinOrZero(xs);
      assert w[i] in w;
      var j :| 0 <= j < |xs| && xs[j] == MaxOrZero(xs);
      assert w[j] in w;
    }
  }

  /** The same for SSIM. */
  lemma SsimBoundsOverResults(cams: seq<CameraItem>)
    ensures (forall c :: c in cams ==> !c.hasResults) ==>
              MinOrZero(SsimColumn(cams)) == 0.0 && MaxOrZero(SsimColumn(cams)) == 0.0
    ensures forall c :: c in cams && c.hasResults ==>
              MinOrZero(SsimColumn(cams)) <= c.ssim <= MaxOrZero(SsimColumn(cams))
    ensures (exists c :: c in cams && c.hasResults) ==>
              (exists c :: c in cams && c.hasResults && c.ssim == MinOrZero(SsimColumn(cams))) &&
              (exists c :: c in cams && c.hasResults && c.ssim == MaxOrZero(SsimColumn(cams)))
  {
    var w := WithResults(cams);
    var xs := SsimColumn(cams);
    WithResultsMembership(cams);
    forall c | c in cams && c.hasResults
      ensures MinOrZero(xs) <= c.ssim <= MaxOrZero(xs)
    {
      var k :| 0 <= k < |w| && w[k] == c;
      assert xs[k] == c.ssim;
    }
    if exists c :: c in cams && c.hasResults {
      var c :| c in cams && c.hasResults;
      assert c in w;
      var i :| 0 <= i < |xs| && xs[i] == MinOrZero(xs);
      assert w[i] in w;
      var j :| 0 <= j < |xs| && xs[j] == MaxOrZero(xs);
      assert w[j] in w;
    }
  }

  /** One element of the record's `cameras` array. */
  datatype ExportEntry = ExportEntry(camera: string, psnr: real, ssim: real, isProblematic: bool)

  function EntryOf(c: CameraItem): ExportEntry {
    ExportEntry(c.name, c.psnr, c.ssim, c.isProblematic)
  }

  function EntriesOf(cs: seq<CameraItem>): (es: seq<ExportEntry>)
    ensures |es| == |cs|
    ensures forall k :: 0 <= k < |cs| ==> es[k] == EntryOf(cs[k])
  {
    seq(|cs|, k requires 0 <= k < |cs| => EntryOf(cs[k]))
  }

  /** The loop that fills the record's `cameras` array: one entry per row
      with results, in list order. */
  method ExportCameras(cams: seq<CameraItem>) returns (entries: seq<ExportEntry>)
    ensures entries == EntriesOf(WithResults(cams))
  {
    entries := [];
    var i := 0;
    while i < |cams|
      invariant 0 <= i <= |cams|
      invariant entries == EntriesOf(WithResults(cams[..i]))
    {
      FilterSnoc(cams, i, (c: CameraItem) => c.hasResults);
      var cam := cams[i];
      if cam.hasResults {
        entries := entries + [EntryOf(cam)];
      }
      i := i + 1;
    }
    assert cams[..i] == cams;
  }

  /** Exactly the rows with results are exported, each with its own
      metrics and problem flag; an exported list is never longer than the
      camera list. */
  lemma ExportedExactlyResults(cams: seq<CameraItem>, e: ExportEntry)
    ensures |EntriesOf(WithResults(cams))| <= |cams|
    ensures e in EntriesOf(WithResults(cams)) <==> exists c :: c in cams && c.hasResults && e == EntryOf(c)
  {
    var w := WithResults(cams);
    WithResultsMembership(cams);
    if e in EntriesOf(w) {
      var k :| 0 <= k < |w| && EntriesOf(w)[k] == e;
      assert w[k] in w;
    }
    if exists c :: c in cams && c.hasResults && e == EntryOf(c) {
      var c :| c in cams && c.hasResults && e == EntryOf(c);
      assert c in w;
      var k :| 0 <= k < |w| && w[k] == c;
      assert EntriesOf(w)[k] == e;
    }
  }

  /** The JSON results dictionary. */
  datatype ResultsRecord = ResultsRecord(
    meshName: string,
    averagePsnr: real,
    averageSsim: real,
    minPsnr: real,
    minSsim: real,
    maxPsnr: real,
    maxSsim: real,
    cameras: seq<ExportEntry>)

  /** `RCMETRICS_OT_ExportResults.execute`: the record of the current
      state and the path it is written to. The record names a missing
      active object `Unknown`, the file name `unknown`. */
  method ExportResults(rc: RcMetrics, activeObject: Option<SceneObject>)
    returns (status: Status, filepath: string, record: ResultsRecord)
    ensures status == Finished
    ensures filepath == Join(OutputFolder(rc.rcFolder, rc.metricsOutput),
                             "metrics_" + (if activeObject.Some? then activeObject.value.name else "unknown") + ".json")
    ensures record.meshName == if activeObject.Some? then activeObject.value.name else "Unknown"
    ensures record.averagePsnr == rc.averagePsnr && record.averageSsim == rc.averageSsim
    ensures record.minPsnr == MinOrZero(PsnrColumn(rc.cameras)) && record.maxPsnr == MaxOrZero(PsnrColumn(rc.cameras))
    ensures record.minSsim == MinOrZero(SsimColumn(rc.cameras)) && record.maxSsim == MaxOrZero(SsimColumn(rc.cameras))
    ensures record.cameras == EntriesOf(WithResults(rc.cameras))
  {
    var meshName := if activeObject.Some? then activeObject.value.name else "Unknown";
    var entries := ExportCameras(rc.cameras);
    record := ResultsRecord(meshName, rc.averagePsnr, rc.averageSsim,
                            MinOrZero(PsnrColumn(rc.cameras)), MinOrZero(SsimColumn(rc.cameras)),
                            MaxOrZero(PsnrColumn(rc.cameras)), MaxOrZero(SsimColumn(rc.cameras)),
                            entries);
    var outputDir := rc.metricsOutput;
    if outputDir == "" {
      outputDir := Join(rc.rcFolder, "metrics_output");
    }
    filepath := Join(outputDir, "metrics_" + (if activeObject.Some? then activeObject.value.name else "unknown") + ".json");
    status := Finished;
  }

  /** With an RC folder set, the exporters' fallback folder is the one
      `get_default_output_path` computes without a subfolder. */
  lemma OutputFolderIsDefaultPath(rcFolder: string, blendDir: string, tempDir: string)
    requires rcFolder != ""
    ensures OutputFolder(rcFolder, "") == GetDefaultOutputPath(rcFolder, None, blendDir, tempDir)
  {
  }

  /** One `<tr>` of the report's camera table, by its CSS classes, cells and status text. */
  datatype HtmlRow = HtmlRow(
    rowClass: string,
    camera: string,
    psnrClass: string,
    psnr: real,
    ssimClass: string,
    ssim: real,
    status: string)

  /** The styling of one row: a metric cell is low exactly when it is below
      the current threshold; the row is a problem exactly when the camera
      is flagged. */
  function RowOf(c: CameraItem, psnrThreshold: real, ssimThreshold: real): (r: HtmlRow)
    ensures r.camera == c.name && r.psnr == c.psnr && r.ssim == c.ssim
    ensures r.psnrClass in {"psnr-low", "psnr-good"} && (r.psnrClass == "psnr-low" <==> c.psnr < psnrThreshold)
    ensures r.ssimClass in {"ssim-low", "ssim-good"} && (r.ssimClass == "ssim-low" <==> c.ssim < ssimThreshold)
    ensures r.rowClass in {"problematic", "good"} && (r.rowClass == "problematic" <==> c.isProblematic)
    ensures r.status in {"Problem", "Good"} && (r.status == "Problem" <==> c.isProblematic)
  {
    HtmlRow(if c.isProblematic then "problematic" else "good",
            c.name,
            if c.psnr < psnrThreshold then "psnr-low" else "psnr-good", c.psnr,
            if c.ssim < ssimThreshold then "ssim-low" else "ssim-good", c.ssim,
            if c.isProblematic then "Problem" else "Good")
  }

  /** A row recorded under the thresholds the report uses says `Problem`
      exactly when one of its cells is marked low. */
  lemma RowStatusMatchesCells(c: CameraItem, psnr: real, ssim: real, psnrThreshold: real, ssimThreshold: real)
    ensures var r := RowOf(Recorded(c, psnr, ssim, psnrThreshold, ssimThreshold), psnrThreshold, ssimThreshold);
            r.status == "Problem" <==> r.psnrClass == "psnr-low" || r.ssimClass == "ssim-low"
  {
  }

  function RowsOf(cs: seq<CameraItem>, psnrThreshold: real, ssimThreshold: real): (rows: seq<HtmlRow>)
    ensures |rows| == |cs|
    ensures forall k :: 0 <= k < |cs| ==> rows[k] == RowOf(cs[k], psnrThreshold, ssimThreshold)
  {
    seq(|cs|, k requires 0 <= k < |cs| => RowOf(cs[k], psnrThreshold, ssimThreshold))
  }

  /** The loop of `generate_html_report` that appends the table rows: one
      per row with results, in list order. */
  method ReportRows(cams: seq<CameraItem>, psnrThreshold: real, ssimThreshold: real) returns (rows: seq<HtmlRow>)
    ensures rows == RowsOf(WithResults(cams), psnrThreshold, ssimThreshold)
  {
    rows := [];
    var i := 0;
    while i < |cams|
      invariant 0 <= i <= |cams|
      invariant rows == RowsOf(WithResults(cams[..i]), psnrThreshold, ssimThreshold)
    {
      FilterSnoc(cams, i, (c: CameraItem) => c.hasResults);
      var cam := cams[i];
      if cam.hasResults {
        rows := rows + [RowOf(cam, psnrThreshold, ssimThreshold)];
      }
      i := i + 1;
    }
    assert cams[..i] == cams;
  }

  /** `RCMETRICS_OT_ExportMetricsReport.execute`: refused without results;
      otherwise the table rows and the report path under `report/` in the
      output folder. */
  method ExportReport(rc: RcMetrics) returns (status: Status, reportPath: Option<string>, rows: seq<HtmlRow>)
    ensures !rc.hasResults ==> status == Cancelled && reportPath == None && rows == []
    ensures rc.hasResults ==>
              && status == Finished
              && reportPath == Some(Join(Join(OutputFolder(rc.rcFolder, rc.metricsOutput), "report"), "metrics_report.html"))
              && rows == RowsOf(WithResults(rc.cameras), rc.psnrThreshold, rc.ssimThreshold)
  {
    if !rc.hasResults {
      return Cancelled, None, [];
    }
    var outputDir := rc.metricsOutput;
    if outputDir == "" {
      outputDir := Join(rc.rcFolder, "metrics_output");
    }
    var reportDir := Join(outputDir, "report");
    rows := ReportRows(rc.cameras, rc.psnrThreshold, rc.ssimThreshold);
    reportPath := Some(Join(reportDir, "metrics_report.html"));
    status := Finished;
  }
}
