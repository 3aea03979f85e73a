/** The blocking calculation operator of rc_metrics.py (`execute`): one pass
    over the scene objects, measuring every camera that has a background
    image and an existing reference photograph, then a summary written only
    when at least one camera was measured. The file system is the set of
    existing paths; rendering always reports success there, and
    `measure(reference, render)` is the PSNR/SSIM computation, `None` when
    it fails. */
module RcMetricsExecute {
  import opened Wrappers
  import opened Seqs
  import opened Strings
  import opened Scene
  import opened CameraUtils
  import opened RenderUtils
  import opened RcFolder
  import opened MetricsOperators

  /** The reference photograph of a camera: the file named like it in the RC folder. */
  function ReferencePath(rcFolder: string, o: SceneObject): string {
    Join(rcFolder, o.name)
  }

  function RenderPath(renderOutput: string, o: SceneObject): string {
    Join(renderOutput, RenderFileName(o.name))
  }

  /** Whether an object adds an entry to the summary. */
  predicate Contributes(o: SceneObject, rcFolder: string, renderOutput: string, existing: set<string>,
                        measure: (string, string) -> Option<Metrics>) {
    && o.kind == Camera
    && o.hasBackground
    && ReferencePath(rcFolder, o) in existing
    && measure(ReferencePath(rcFolder, o), RenderPath(renderOutput, o)).Some?
  }

  /** The entries the pass records, in scene order. */
  function Measured(objects: seq<SceneObject>, rcFolder: string, renderOutput: string, existing: set<string>,
                    measure: (string, string) -> Option<Metrics>): seq<CameraEntry>
  {
    if objects == [] then []
    else
      var o := objects[|objects| - 1];
      Measured(objects[..|objects| - 1], rcFolder, renderOutput, existing, measure) +
      if Contributes(o, rcFolder, renderOutput, existing, measure)
      then
        var m := measure(ReferencePath(rcFolder, o), RenderPath(renderOutput, o)).value;
        [CameraEntry(o.name, m.psnr, m.ssim)]
      else []
  }

  /** Every recorded entry comes from a contributing object, with that
      object's measurement; an object that does not contribute adds nothing. */
  lemma {:induction false} MeasuredFromContributors(objects: seq<SceneObject>, rcFolder: string, renderOutput: string,
                                                    existing: set<string>, measure: (string, string) -> Option<Metrics>)
    ensures |Measured(objects, rcFolder, renderOutput, existing, measure)| <= |objects|
    ensures forall e :: e in Measured(objects, rcFolder, renderOutput, existing, measure) ==>
              exists o :: o in objects && o.name == e.camera && Contributes(o, rcFolder, renderOutput, existing, measure) &&
                          measure(ReferencePath(rcFolder, o), RenderPath(renderOutput, o)) == Some(Metrics(e.psnr, e.ssim))
    decreases |objects|
  {
    if objects != [] {
      var init := objects[..|objects| - 1];
      MeasuredFromContributors(init, rcFolder, renderOutput, existing, measure);
      forall o | o in init ensures o in objects {
      }
    }
  }

  /** The summary dictionary as written to the metrics file. */
  datatype SummaryRecord = SummaryRecord(
    meshName: string,
    cameras: seq<CameraEntry>,
    averagePsnr: real,
    averageSsim: real,
    minPsnr: Bound,
    minSsim: Bound,
    maxPsnr: Bound,
    maxSsim: Bound)

  /** One more object of the scan adds its entry exactly when it contributes. */
  lemma MeasuredStep(objects: seq<SceneObject>, i: nat, rcFolder: string, renderOutput: string,
                     existing: set<string>, measure: (string, string) -> Option<Metrics>)
    requires i < |objects|
    ensures Measured(objects[..i + 1], rcFolder, renderOutput, existing, measure) ==
            Measured(objects[..i], rcFolder, renderOutput, existing, measure) +
            if Contributes(objects[i], rcFolder, renderOutput, existing, measure)
            then
              var m := measure(ReferencePath(rcFolder, objects[i]), RenderPath(renderOutput, objects[i])).value;
              [CameraEntry(objects[i].name, m.psnr, m.ssim)]
            else []
  {
    assert objects[..i + 1][..i] == objects[..i];
  }

  /** The body of the scan for one object: only a camera with a background
      image whose reference photograph exists is rendered and measured. */
  method MeasureOne(obj: SceneObject, rcFolder: string, renderOutput: string,
                    existing: set<string>, measure: (string, string) -> Option<Metrics>)
    returns (m: Option<Metrics>)
    ensures m.Some? <==> Contributes(obj, rcFolder, renderOutput, existing, measure)
    ensures m.Some? ==> m == measure(ReferencePath(rcFolder, obj), RenderPath(renderOutput, obj))
  {
    m := None;
    if obj.kind == Camera && obj.hasBackground {
      var referencePath := Join(rcFolder, obj.name);
      if referencePath in existing {
        var renderPath := Join(renderOutput, RenderFileName(obj.name));
        m := measure(referencePath, renderPath);
      }
    }
  }

  /** The scan of `execute` over the scene objects: skip everything but
      cameras with a background image whose reference photograph exists,
      render each such camera (rendering reports success), measure it, and
      accumulate the running totals, count, minima (from `inf`) and maxima
      (from `0.0`) of the cameras whose measurement succeeded. */
  method MeasureCameras(objects: seq<SceneObject>, rcFolder: string, renderOutput: string,
                        existing: set<string>, measure: (string, string) -> Option<Metrics>)
    returns (cameras: seq<CameraEntry>, validCameras: nat, totalPsnr: real, totalSsim: real,
             minPsnr: Bound, minSsim: Bound, maxPsnr: Bound, maxSsim: Bound)
    ensures cameras == Measured(objects, rcFolder, renderOutput, existing, measure)
    ensures validCameras == |cameras|
    ensures totalPsnr == Sum(Psnrs(cameras)) && totalSsim == Sum(Ssims(cameras))
    ensures minPsnr == FoldMin(Infinity, Psnrs(cameras)) && minSsim == FoldMin(Infinity, Ssims(cameras))
    ensures maxPsnr == FoldMax(Finite(0.0), Psnrs(cameras)) && maxSsim == FoldMax(Finite(0.0), Ssims(cameras))
  {
    cameras := [];
    minPsnr, minSsim := Infinity, Infinity;
    maxPsnr, maxSsim := Finite(0.0), Finite(0.0);
    totalPsnr, totalSsim := 0.0, 0.0;
    validCameras := 0;
    var i := 0;
    while i < |objects|
      invariant 0 <= i <= |objects|
      invariant cameras == Measured(objects[..i], rcFolder, renderOutput, existing, measure)
      invariant validCameras == |cameras|
      invariant totalPsnr == Sum(Psnrs(cameras)) && totalSsim == Sum(Ssims(cameras))
      invariant minPsnr == FoldMin(Infinity, Psnrs(cameras)) && minSsim == FoldMin(Infinity, Ssims(cameras))
      invariant maxPsnr == FoldMax(Finite(0.0), Psnrs(cameras)) && maxSsim == FoldMax(Finite(0.0), Ssims(cameras))
    {
      MeasuredStep(objects, i, rcFolder, renderOutput, existing, measure);
      var m := MeasureOne(objects[i], rcFolder, renderOutput, existing, measure);
      if m.Some? {
        var entry := CameraEntry(objects[i].name, m.value.psnr, m.value.ssim);
        FoldedStep(cameras, entry, Infinity, Finite(0.0));
        SumSnoc(Psnrs(cameras), entry.psnr);
        SumSnoc(Ssims(cameras), entry.ssim);
        totalPsnr := totalPsnr + m.value.psnr;
        totalSsim := totalSsim + m.value.ssim;
        validCameras := validCameras + 1;
        minPsnr := TightenMin(minPsnr, m.value.psnr);
        minSsim := TightenMin(minSsim, m.value.ssim);
        maxPsnr := TightenMax(maxPsnr, m.value.psnr);
        maxSsim := TightenMax(maxSsim, m.value.ssim);
        cameras := cameras + [entry];
      }
      i := i + 1;
    }
    assert objects[..i] == objects;
  }

  /** `execute`: refuse without an active mesh; default the output folder;
      set up preview-quality rendering; measure the cameras in scene order;
      cancel when none was measured, otherwise write the summary with the
      averages over the measured cameras. Directory creation and the JSON
      file write are taken to succeed. */
  method Execute(activeObject: Option<SceneObject>, rcFolder: string, metricsOutput: string,
                 objects: seq<SceneObject>, existing: set<string>, measure: (string, string) -> Option<Metrics>,
                 settings: RenderSettings)
    returns (status: Status, metricsFile: Option<string>, summary: Option<SummaryRecord>)
    modifies settings
    ensures !IsMesh(activeObject) ==> status == Cancelled && metricsFile == None && summary == None && unchanged(settings)
    ensures IsMesh(activeObject) ==>
              && settings.engine == "CYCLES" && settings.samples == 32
              && settings.resolutionPercentage == 100 && !settings.filmTransparent
    ensures IsMesh(activeObject) ==>
              var output := OutputFolder(rcFolder, metricsOutput);
              var es := Measured(objects, rcFolder, Join(output, "renders"), existing, measure);
              && (status == Finished <==> es != [])
              && (es == [] ==> status == Cancelled && metricsFile == None && summary == None)
              && (es != [] ==>
                    && metricsFile == Some(Join(output, "metrics_" + activeObject.value.name + ".json"))
                    && summary.Some?
                    && summary.value.meshName == activeObject.value.name
                    && summary.value.cameras == es
                    && summary.value.averagePsnr == Average(Psnrs(es))
                    && summary.value.averageSsim == Average(Ssims(es))
                    && summary.value.minPsnr == FoldMin(Infinity, Psnrs(es))
                    && summary.value.minSsim == FoldMin(Infinity, Ssims(es))
                    && summary.value.maxPsnr == FoldMax(Finite(0.0), Psnrs(es))
                    && summary.value.maxSsim == FoldMax(Finite(0.0), Ssims(es)))
  {
    if activeObject.None? || activeObject.value.kind != Mesh {
      return Cancelled, None, None;
    }
    settings.Setup("preview");
    var output := metricsOutput;
    if output == "" {
      output := Join(rcFolder, "metrics_output");
    }
    assert output == OutputFolder(rcFolder, metricsOutput);
    var renderOutput := Join(output, "renders");
    var mesh := activeObject.value;

    var cameras, validCameras, totalPsnr, totalSsim, minPsnr, minSsim, maxPsnr, maxSsim :=
      MeasureCameras(objects, rcFolder, renderOutput, existing, measure);

    if validCameras > 0 {
      var averagePsnr := totalPsnr / (validCameras as real);
      var averageSsim := totalSsim / (validCameras as real);
      summary := Some(SummaryRecord(mesh.name, cameras, averagePsnr, averageSsim, minPsnr, minSsim, maxPsnr, maxSsim));
      metricsFile := Some(Join(output, "metrics_" + mesh.name + ".json"));
      status := Finished;
    } else {
      return Cancelled, None, None;
    }
  }

  /** What a written summary guarantees: the minima are measured values no
      greater than any entry, the maxima are at least every entry and never
      below zero. */
  lemma WrittenSummaryBounds(r: SummaryRecord)
    requires r.cameras != []
    requires r.minPsnr == FoldMin(Infinity, Psnrs(r.cameras)) && r.minSsim == FoldMin(Infinity, Ssims(r.cameras))
    requires r.maxPsnr == FoldMax(Finite(0.0), Psnrs(r.cameras)) && r.maxSsim == FoldMax(Finite(0.0), Ssims(r.cameras))
    ensures r.minPsnr.Finite? && r.minSsim.Finite? && r.maxPsnr.Finite? && r.maxSsim.Finite?
    ensures forall k :: 0 <= k < |r.cameras| ==>
              r.minPsnr.v <= r.cameras[k].psnr <= r.maxPsnr.v && r.minSsim.v <= r.cameras[k].ssim <= r.maxSsim.v
    ensures exists k :: 0 <= k < |r.cameras| && r.cameras[k].psnr == r.minPsnr.v
    ensures exists k :: 0 <= k < |r.cameras| && r.cameras[k].ssim == r.minSsim.v
    ensures 0.0 <= r.maxPsnr.v && 0.0 <= r.maxSsim.v
  {
    FoldMinIsMinimum(Infinity, Psnrs(r.cameras));
    FoldMinIsMinimum(Infinity, Ssims(r.cameras));
    FoldMaxFromZero(Psnrs(r.cameras));
    FoldMaxFromZero(Ssims(r.cameras));
    var ps := Psnrs(r.cameras);
    var k :| 0 <= k < |ps| && ps[k] == r.minPsnr.v;
    var ss := Ssims(r.cameras);
    var j :| 0 <= j < |ss| && ss[j] == r.minSsim.v;
  }
}
