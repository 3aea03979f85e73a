/** The manual workflow of operators/manual_render_operators.py: prepare
    one camera for an interactive render, then compute the metrics of the
    render result for that camera. The render result is a Blender image
    (width, height, flat RGBA float buffer); fetching it, the reference
    image, the resize to the reference's shape and the PSNR/SSIM
    computation are an oracle `measure` applied to the converted image. */
module ManualRender {
  import opened Wrappers
  import opened Seqs
  import opened Strings
  import opened Scene
  import opened CameraUtils
  import opened RenderUtils
  import opened RcFolder
  import opened MetricsOperators
  import opened RcMetricsExecute
  import opened UiComponents

  /** The two fields of the Blender scene these operators set: the active
      camera and the render output path. */
  class SceneState {
    var camera: Option<SceneObject>
    var renderFilepath: string

    constructor (camera: Option<SceneObject>, renderFilepath: string)
      ensures this.camera == camera && this.renderFilepath == renderFilepath
    {
      this.camera := camera;
      this.renderFilepath := renderFilepath;
    }
  }

  /** With only row `index` enabled, the enabled cameras are that row's
      camera object when it resolves to one, and nothing otherwise. */
  lemma {:induction false} EnabledOnlySelected(cams: seq<CameraItem>, index: int, objects: seq<SceneObject>, n: nat)
    requires n <= |cams|
    ensures EnabledCameras(OnlySelected(cams, index)[..n], objects) ==
            if 0 <= index < n then Resolve(cams[index].(enabled := true), objects) else []
    decreases n
  {
    var sel := OnlySelected(cams, index);
    if n > 0 {
      assert sel[..n][..n - 1] == sel[..n - 1];
      EnabledOnlySelected(cams, index, objects, n - 1);
      assert sel[..n][n - 1] == cams[n - 1].(enabled := n - 1 == index);
    }
  }

  /** Whether the manual workflow falls back to the active row: no camera
      is enabled and the active index is in range. */
  predicate TakesFallback(cams: seq<CameraItem>, index: int, objects: seq<SceneObject>) {
    EnabledCameras(cams, objects) == [] && 0 <= index < |cams|
  }

  /** The camera list once the manual workflow has chosen its camera. */
  function ManualCameraList(cams: seq<CameraItem>, index: int, objects: seq<SceneObject>): seq<CameraItem> {
    if TakesFallback(cams, index, objects) then OnlySelected(cams, index) else cams
  }

  /** The cameras the manual workflow picks from: the enabled ones, or after
      the fallback those of the rewritten list, looked up again only when
      the selected row has a name. */
  function ManualCandidates(cams: seq<CameraItem>, index: int, objects: seq<SceneObject>): seq<SceneObject> {
    if TakesFallback(cams, index, objects) && cams[index].name != "" then
      EnabledCameras(OnlySelected(cams, index), objects)
    else
      EnabledCameras(cams, objects)
  }

  /** The camera choice of `RCMETRICS_OT_PrepareManualRender.execute`: the
      enabled cameras, or, when none is enabled, the active row selected
      alone and the enabled cameras looked up again. */
  method ChooseManualCamera(rc: RcMetrics, objects: seq<SceneObject>) returns (enabled: seq<SceneObject>)
    modifies rc`cameras, rc`activeCameraIndex
    ensures rc.cameras == ManualCameraList(old(rc.cameras), old(rc.activeCameraIndex), objects)
    ensures rc.activeCameraIndex == old(rc.activeCameraIndex)
    ensures enabled == ManualCandidates(old(rc.cameras), old(rc.activeCameraIndex), objects)
  {
    enabled := rc.GetEnabledCameras(objects);
    if enabled == [] {
      var activeIndex := rc.activeCameraIndex;
      if 0 <= activeIndex < |rc.cameras| {
        var cameraName := rc.SelectSingleCamera(activeIndex);
        if cameraName.Some? && cameraName.value != "" {
          enabled := rc.GetEnabledCameras(objects);
        }
      }
    }
  }

  /** `RCMETRICS_OT_PrepareManualRender.execute`: with an active mesh, take
      the first camera `ChooseManualCamera` yields; make it the scene's
      camera with the quality's render settings and, when renders are
      saved, default the output folder and point the render output at the
      camera's render file. Switching the workspace is not modelled. */
  method PrepareManualRender(rc: RcMetrics, activeObject: Option<SceneObject>, objects: seq<SceneObject>,
                             settings: RenderSettings, scene: SceneState)
    returns (status: Status)
    modifies rc`cameras, rc`activeCameraIndex, rc`metricsOutput, settings, scene
    ensures !IsMesh(activeObject) ==> status == Cancelled && unchanged(rc, settings, scene)
    ensures IsMesh(activeObject) ==>
              && rc.cameras == ManualCameraList(old(rc.cameras), old(rc.activeCameraIndex), objects)
              && rc.activeCameraIndex == old(rc.activeCameraIndex)
    ensures IsMesh(activeObject) ==>
              var enabled := ManualCandidates(old(rc.cameras), old(rc.activeCameraIndex), objects);
              && (status == Finished <==> enabled != [])
              && (enabled == [] ==>
                    status == Cancelled && unchanged(settings, scene) && rc.metricsOutput == old(rc.metricsOutput))
              && (enabled != [] ==>
                    && scene.camera == Some(enabled[0])
                    && settings.engine == "CYCLES" && settings.samples == SamplesFor(rc.renderQuality)
                    && settings.resolutionPercentage == 100 && !settings.filmTransparent
                    && (rc.saveRenders ==>
                          rc.metricsOutput == OutputFolder(rc.rcFolder, old(rc.metricsOutput)) &&
                          scene.renderFilepath == Join(Join(rc.metricsOutput, "renders"), RenderFileName(enabled[0].name)))
                    && (!rc.saveRenders ==>
                          rc.metricsOutput == old(rc.metricsOutput) && scene.renderFilepath == old(scene.renderFilepath)))
  {
    if activeObject.None? || activeObject.value.kind != Mesh {
      return Cancelled;
    }
    var enabled := ChooseManualCamera(rc, objects);
    if enabled == [] {
      return Cancelled;
    }
    var camera := enabled[0];
    settings.Setup(rc.renderQuality);
    scene.camera := Some(camera);
    if rc.saveRenders {
      if rc.metricsOutput == "" {
        rc.metricsOutput := Join(rc.rcFolder, "metrics_output");
      }
      var renderOutput := Join(rc.metricsOutput, "renders");
      scene.renderFilepath := Join(renderOutput, RenderFileName(camera.name));
    }
    status := Finished;
  }

  /** The fallback prepares the active row's own camera: after selecting
      row `index` alone, the first enabled camera is the object that row
      names, provided it is a camera of the scene. */
  lemma FallbackPicksActiveRow(cams: seq<CameraItem>, index: int, objects: seq<SceneObject>)
    requires 0 <= index < |cams|
    ensures var enabled := EnabledCameras(OnlySelected(cams, index), objects);
            && |enabled| <= 1
            && (enabled != [] <==> Lookup(objects, cams[index].name).Some? &&
                                   Lookup(objects, cams[index].name).value.kind == Camera)
            && (enabled != [] ==> enabled[0] == Lookup(objects, cams[index].name).value)
  {
    EnabledOnlySelected(cams, index, objects, |cams|);
    assert OnlySelected(cams, index)[..|cams|] == OnlySelected(cams, index);
  }

  /** A render result: its size and its flat RGBA buffer, row by row. */
  datatype RenderImage = RenderImage(width: nat, height: nat, pixels: seq<real>)

  /** One pixel of an OpenCV image: blue, green, red. */
  datatype Bgr = Bgr(b: int, g: int, r: int)

  /** `(v * 255).astype(np.uint8)` for a channel value. */
  function ToByte(v: real): int {
    TruncateToInt(v * 255.0)
  }

  /** A channel value in [0, 1] becomes a byte, 1 becoming 255. */
  lemma ToByteRange(v: real)
    requires 0.0 <= v <= 1.0
    ensures 0 <= ToByte(v) <= 255
    ensures v == 1.0 ==> ToByte(v) == 255
    ensures v == 0.0 ==> ToByte(v) == 0
  {
  }

  /** The buffer holds exactly one RGBA quadruple per pixel, which is what
      the length check and the reshape together let through. */
  predicate WellSized(img: RenderImage) {
    |img.pixels| == img.width * img.height * 4
  }

  /** Pixel `(y, x)` has its four channels inside the buffer. */
  lemma PixelInBuffer(width: nat, height: nat, y: nat, x: nat)
    requires y < height && x < width
    ensures (y * width + x) * 4 + 3 < width * height * 4
  {
    assert y * width + x < (y + 1) * width;
    assert (y + 1) * width <= height * width;
  }

  function PixelAt(img: RenderImage, y: nat, x: nat): Bgr
    requires WellSized(img) && y < img.height && x < img.width
  {
    PixelInBuffer(img.width, img.height, y, x);
    var base := (y * img.width + x) * 4;
    Bgr(ToByte(img.pixels[base + 2]), ToByte(img.pixels[base + 1]), ToByte(img.pixels[base]))
  }

  /** The reshape to `(height, width, 4)`, the drop of alpha, the reversal
      of the colour channels and the byte conversion. */
  function ToBgrImage(img: RenderImage): (rows: seq<seq<Bgr>>)
    requires WellSized(img)
    ensures |rows| == img.height
    ensures forall y :: 0 <= y < img.height ==> |rows[y]| == img.width
  {
    seq(img.height, y requires 0 <= y < img.height =>
      seq(img.width, x requires 0 <= x < img.width => PixelAt(img, y, x)))
  }

  /** The alpha channel does not affect the converted image: two buffers
      of the same size that agree on every colour channel convert equally. */
  lemma AlphaIgnored(a: RenderImage, b: RenderImage)
    requires WellSized(a) && a.width == b.width && a.height == b.height && |b.pixels| == |a.pixels|
    requires forall i :: 0 <= i < |a.pixels| && i % 4 != 3 ==> a.pixels[i] == b.pixels[i]
    ensures ToBgrImage(a) == ToBgrImage(b)
  {
    forall y, x | 0 <= y < a.height && 0 <= x < a.width
      ensures PixelAt(a, y, x) == PixelAt(b, y, x)
    {
      PixelInBuffer(a.width, a.height, y, x);
      var base := (y * a.width + x) * 4;
      assert base % 4 == 0;
      assert (base + 1) % 4 == 1 && (base + 2) % 4 == 2;
    }
    forall y | 0 <= y < a.height ensures ToBgrImage(a)[y] == ToBgrImage(b)[y] {
    }
  }

  /** The channel order: a converted pixel's blue is the buffer's third
      channel, its red the first. */
  lemma ChannelsReversed(img: RenderImage, y: nat, x: nat)
    requires WellSized(img) && y < img.height && x < img.width
    ensures var base := (y * img.width + x) * 4;
            base + 3 < |img.pixels| &&
            ToBgrImage(img)[y][x] == Bgr(ToByte(img.pixels[base + 2]), ToByte(img.pixels[base + 1]),
                                         ToByte(img.pixels[base]))
  {
    PixelInBuffer(img.width, img.height, y, x);
  }

  /** The summary a manual calculation writes: the one camera, with its
      values as averages, minima and maxima. */
  function ManualSummary(meshName: string, camera: string, psnr: real, ssim: real): SummaryRecord {
    SummaryRecord(meshName, [CameraEntry(camera, psnr, ssim)], psnr, ssim,
                  Finite(psnr), Finite(ssim), Finite(psnr), Finite(ssim))
  }

  /** The manual summary is the batch summary of a single measured camera:
      averages and minima always, maxima whenever the metrics are not
      negative (the batch maxima start from 0). */
  lemma ManualSummaryIsSingleCameraSummary(meshName: string, camera: string, psnr: real, ssim: real)
    ensures var r := ManualSummary(meshName, camera, psnr, ssim);
            var es := [CameraEntry(camera, psnr, ssim)];
            && r.cameras == es
            && r.averagePsnr == Average(Psnrs(es)) && r.averageSsim == Average(Ssims(es))
            && r.minPsnr == FoldMin(Infinity, Psnrs(es)) && r.minSsim == FoldMin(Infinity, Ssims(es))
            && r.maxPsnr == FoldMax(Missing, Psnrs(es)) && r.maxSsim == FoldMax(Missing, Ssims(es))
            && (0.0 <= psnr ==> r.maxPsnr == FoldMax(Finite(0.0), Psnrs(es)))
            && (0.0 <= ssim ==> r.maxSsim == FoldMax(Finite(0.0), Ssims(es)))
  {
    var es := [CameraEntry(camera, psnr, ssim)];
    assert Psnrs(es) == [psnr] && Ssims(es) == [ssim];
    assert [psnr][..0] == [] && [ssim][..0] == [];
    SumSnoc([], psnr);
    SumSnoc([], ssim);
    assert [] + [psnr] == [psnr] && [] + [ssim] == [ssim];
    assert FoldMin(Infinity, [psnr]) == TightenMin(Infinity, psnr);
    assert FoldMin(Infinity, [ssim]) == TightenMin(Infinity, ssim);
    assert FoldMax(Missing, [psnr]) == TightenMax(Missing, psnr);
    assert FoldMax(Missing, [ssim]) == TightenMax(Missing, ssim);
    assert FoldMax(Finite(0.0), [psnr]) == TightenMax(Finite(0.0), psnr);
    assert FoldMax(Finite(0.0), [ssim]) == TightenMax(Finite(0.0), ssim);
  }

  /** What `execute` needs before it measures: a render result and an
      active camera with a reference image, a non-empty size and a buffer
      of exactly the expected length. */
  predicate Measurable(render: Option<RenderImage>, sceneCamera: Option<SceneObject>, hasReference: bool) {
    && render.Some?
    && sceneCamera.Some?
    && hasReference
    && render.value.width != 0 && render.value.height != 0
    && WellSized(render.value)
  }

  /** `RCMETRICS_OT_CalculateMetricsFromRender.execute`: check the inputs in
      order, convert the render, measure it, record the results on the
      camera's row, set the scene's averages to this camera's values and,
      when renders are saved to a configured folder, write the summary. A
      buffer shorter than expected is refused with a message, a longer one
      by the failing reshape; both cancel. */
  method CalculateMetricsFromRender(rc: RcMetrics, activeObject: Option<SceneObject>, render: Option<RenderImage>,
                                    sceneCamera: Option<SceneObject>, hasReference: bool,
                                    measure: seq<seq<Bgr>> -> Option<Metrics>)
    returns (status: Status, summary: Option<SummaryRecord>, metricsFile: Option<string>)
    modifies rc`cameras, rc`activeCameraIndex, rc`averagePsnr, rc`averageSsim, rc`hasResults
    ensures status == Finished <==>
              Measurable(render, sceneCamera, hasReference) && measure(ToBgrImage(render.value)).Some?
    ensures status != Finished ==>
              status == Cancelled && summary == None && metricsFile == None && unchanged(rc)
    ensures status == Finished ==>
              var m := measure(ToBgrImage(render.value)).value;
              var camera := sceneCamera.value.name;
              var meshName := if activeObject.Some? then activeObject.value.name else "Unknown";
              && rc.cameras == RecordedList(old(rc.cameras), camera, m.psnr, m.ssim, rc.psnrThreshold, rc.ssimThreshold)
              && rc.activeCameraIndex == RecordedIndex(old(rc.cameras), camera, old(rc.activeCameraIndex))
              && rc.averagePsnr == m.psnr && rc.averageSsim == m.ssim && rc.hasResults
              && summary == Some(ManualSummary(meshName, camera, m.psnr, m.ssim))
              && metricsFile == if rc.saveRenders && rc.metricsOutput != ""
                                then Some(Join(rc.metricsOutput, "metrics_manual_" + meshName + ".json"))
                                else None
  {
    if render.None? || sceneCamera.None? || !hasReference {
      return Cancelled, None, None;
    }
    var img := render.value;
    var camera := sceneCamera.value;
    if img.width == 0 || img.height == 0 {
      return Cancelled, None, None;
    }
    var expectedPixels := img.width * img.height * 4;
    if |img.pixels| < expectedPixels || |img.pixels| != expectedPixels {
      return Cancelled, None, None;
    }
    var rendered := ToBgrImage(img);
    var measured := measure(rendered);
    if measured.None? {
      return Cancelled, None, None;
    }
    var psnr, ssim := measured.value.psnr, measured.value.ssim;
    var _ := rc.UpdateCameraResults(camera.name, psnr, ssim, rc.psnrThreshold, rc.ssimThreshold);
    var meshName := if activeObject.Some? then activeObject.value.name else "Unknown";
    summary := Some(ManualSummary(meshName, camera.name, psnr, ssim));
    rc.averagePsnr := psnr;
    rc.averageSsim := ssim;
    rc.hasResults := true;
    if rc.saveRenders && rc.metricsOutput != "" {
      metricsFile := Some(Join(rc.metricsOutput, "metrics_manual_" + meshName + ".json"));
    } else {
      metricsFile := None;
    }
    status := Finished;
  }
}
