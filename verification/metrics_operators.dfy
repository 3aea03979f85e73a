/** The modal calculation operator: `invoke` fills a queue with the enabled
    cameras and starts a timer; every timer tick pops the front camera,
    advances the progress and measures that camera; a tick on the empty
    queue finishes, and a cleared `is_calculating` flag cancels. Rendering
    and the PSNR/SSIM computation are an oracle: the `measured` argument of
    a tick is what they produced for the popped camera, `None` when either
    failed. */
module MetricsOperators {
  import opened Wrappers
  import opened Strings
  import opened Scene
  import opened CameraUtils
  import opened RenderUtils
  import opened RcFolder

  /** Blender's operator return sets that occur here. */
  datatype Status = RunningModal | Finished | Cancelled

  datatype Event = Timer | OtherEvent

  /** The pair of metrics computed for one camera. */
  datatype Metrics = Metrics(psnr: real, ssim: real)

  /** Percentage of the cameras popped so far. */
  function Progress(remaining: nat, total: nat): (p: real)
    requires remaining <= total && total > 0
    ensures 0.0 <= p <= 100.0
    ensures p == 100.0 <==> remaining == 0
    ensures p == 0.0 <==> remaining == total
  {
    var fraction := (remaining as real) / (total as real);
    assert fraction * (total as real) == remaining as real;
    assert fraction == 1.0 ==> remaining == total;
    100.0 * (1.0 - fraction)
  }

  lemma DivNonNegative(a: real, t: real)
    requires a >= 0.0 && t > 0.0
    ensures a / t >= 0.0
  {
  }

  lemma DivSub(a: real, b: real, t: real)
    requires t > 0.0
    ensures a / t - b / t == (a - b) / t
  {
  }

  /** Fewer remaining cameras never means less progress. */
  lemma ProgressGrows(remaining: nat, fewer: nat, total: nat)
    requires fewer <= remaining <= total && total > 0
    ensures Progress(remaining, total) <= Progress(fewer, total)
  {
    var t := total as real;
    DivSub(remaining as real, fewer as real, t);
    DivNonNegative((remaining - fewer) as real, t);
  }

  /** `RCMETRICS_OT_CancelCalculation.execute`: only clears the flag; the
      running operator notices it on its next event. */
  method CancelCalculation(rc: RcMetrics) returns (status: Status)
    modifies rc`isCalculating
    ensures !rc.isCalculating && status == Finished
  {
    rc.isCalculating := false;
    status := Finished;
  }

  /** One instance of `RCMETRICS_OT_CalculateMetrics`. The ghost fields
      record the queue as `invoke` built it, the cameras popped since, and
      whether the operator is between a successful `invoke` and its end. */
  class CalculateMetrics {
    var queue: seq<SceneObject>
    var totalCameras: nat
    var summary: MetricsSummary
    var timerActive: bool
    var renderOutput: Option<string>
    ghost var started: seq<SceneObject>
    ghost var processed: seq<SceneObject>
    ghost var running: bool

    /** Cameras are popped in queue order, each once. */
    ghost predicate InOrder()
      reads this
    {
      processed + queue == started
    }

    /** `InOrder`, and while running: the summary is the fold of the
        measured cameras (at most one entry per popped camera), the scene's
        progress matches the queue, and the scene's result flag and averages
        mirror the summary. */
    ghost predicate Valid(rc: RcMetrics)
      reads this, summary, rc
    {
      && InOrder()
      && (running ==>
            && totalCameras == |started|
            && started != []
            && timerActive
            && summary.meshName.Some?
            && summary.Folded(Infinity, Finite(0.0))
            && |summary.Entries()| <= |processed|
            && rc.calculationProgress == Progress(|queue|, totalCameras)
            && (rc.saveRenders <==> renderOutput.Some?)
            && (rc.hasResults <==> summary.Entries() != [])
            && (summary.Entries() != [] ==>
                  Some(rc.averagePsnr) == summary.averagePsnr &&
                  Some(rc.averageSsim) == summary.averageSsim))
    }

    /** The class-level defaults: no queue, empty summary, no timer. */
    constructor ()
      ensures queue == [] && totalCameras == 0 && !timerActive && renderOutput == None
      ensures fresh(summary) && summary.Entries() == []
      ensures started == [] && processed == [] && !running
    {
      queue := [];
      totalCameras := 0;
      summary := new MetricsSummary.Empty();
      timerActive := false;
      renderOutput := None;
      started, processed, running := [], [], false;
    }

    /** `invoke`: refuse without an active mesh; default the output folder
        when renders are saved; queue the enabled cameras, refusing an empty
        queue; otherwise start the summary, set up rendering, start the
        timer and mark the scene as calculating. Directory creation is
        taken to succeed. */
    method Invoke(rc: RcMetrics, activeObject: Option<SceneObject>, objects: seq<SceneObject>,
                  settings: RenderSettings) returns (status: Status)
      requires !running && InOrder()
      modifies this, rc`metricsOutput, rc`isCalculating, rc`calculationProgress, rc`hasResults, settings
      ensures Valid(rc)
      ensures !IsMesh(activeObject) ==> status == Cancelled && unchanged(this, rc, settings)
      ensures IsMesh(activeObject) ==>
                && queue == EnabledCameras(rc.cameras, objects)
                && rc.metricsOutput == if old(rc.metricsOutput) == "" && rc.saveRenders
                                       then Join(rc.rcFolder, "metrics_output") else old(rc.metricsOutput)
      ensures IsMesh(activeObject) && queue == [] ==>
                && status == Cancelled && !running && timerActive == old(timerActive)
                && summary == old(summary) && renderOutput == old(renderOutput) && totalCameras == old(totalCameras)
                && rc.isCalculating == old(rc.isCalculating) && rc.calculationProgress == old(rc.calculationProgress)
                && rc.hasResults == old(rc.hasResults) && unchanged(settings)
      ensures IsMesh(activeObject) && queue != [] ==>
                && status == RunningModal && running && timerActive
                && started == queue && processed == [] && totalCameras == |queue|
                && fresh(summary) && summary.meshName == Some(activeObject.value.name) && summary.Entries() == []
                && summary.averagePsnr == Some(0.0) && summary.averageSsim == Some(0.0)
                && summary.minPsnr == Infinity && summary.minSsim == Infinity
                && summary.maxPsnr == Finite(0.0) && summary.maxSsim == Finite(0.0)
                && settings.engine == "CYCLES" && settings.samples == SamplesFor(rc.renderQuality)
                && settings.resolutionPercentage == 100 && !settings.filmTransparent
                && renderOutput == (if rc.saveRenders then Some(Join(rc.metricsOutput, "renders")) else None)
                && rc.isCalculating && rc.calculationProgress == 0.0 && !rc.hasResults
    {
      if activeObject.None? || activeObject.value.kind != Mesh {
        return Cancelled;
      }
      if rc.metricsOutput == "" && rc.saveRenders {
        rc.metricsOutput := Join(rc.rcFolder, "metrics_output");
      }
      var enabled := rc.GetEnabledCameras(objects);
      queue := enabled;
      started := enabled;
      processed := [];
      if queue == [] {
        assert Valid(rc);
        return Cancelled;
      }
      status := StartCalculation(rc, activeObject.value.name, settings);
    }

    /** The second half of `invoke`, once the queue is known to be
        non-empty: render settings for the chosen quality, a fresh summary
        for the mesh, the render folder, the timer, and the scene flags. */
    method StartCalculation(rc: RcMetrics, meshName: string, settings: RenderSettings) returns (status: Status)
      requires !running && queue != [] && processed == [] && started == queue
      modifies this, rc`isCalculating, rc`calculationProgress, rc`hasResults, settings
      ensures Valid(rc)
      ensures && status == RunningModal && running && timerActive
              && queue == old(queue) && started == queue && processed == [] && totalCameras == |queue|
              && fresh(summary) && summary.meshName == Some(meshName)
              && summary.Entries() == [] && summary.averagePsnr == Some(0.0) && summary.averageSsim == Some(0.0)
              && summary.minPsnr == Infinity && summary.minSsim == Infinity
              && summary.maxPsnr == Finite(0.0) && summary.maxSsim == Finite(0.0)
              && settings.engine == "CYCLES" && settings.samples == SamplesFor(rc.renderQuality)
              && settings.resolutionPercentage == 100 && !settings.filmTransparent
              && renderOutput == (if rc.saveRenders then Some(Join(rc.metricsOutput, "renders")) else None)
              && rc.isCalculating && rc.calculationProgress == 0.0 && !rc.hasResults
    {
      settings.Setup(rc.renderQuality);
      if rc.saveRenders {
        renderOutput := Some(Join(rc.metricsOutput, "renders"));
      } else {
        renderOutput := None;
      }
      timerActive := true;
      BeginRun(rc, meshName);
      status := RunningModal;
    }

    /** The scene flags and the fresh summary that start a run. */
    method BeginRun(rc: RcMetrics, meshName: string)
      requires !running && queue != [] && processed == [] && started == queue
      requires timerActive && (rc.saveRenders <==> renderOutput.Some?)
      modifies this`totalCameras, this`summary, this`running, rc`isCalculating, rc`calculationProgress, rc`hasResults
      ensures Valid(rc)
      ensures && running && totalCameras == |queue|
              && fresh(summary) && summary.meshName == Some(meshName) && summary.Entries() == []
              && summary.averagePsnr == Some(0.0) && summary.averageSsim == Some(0.0)
              && summary.minPsnr == Infinity && summary.minSsim == Infinity
              && summary.maxPsnr == Finite(0.0) && summary.maxSsim == Finite(0.0)
              && rc.isCalculating && rc.calculationProgress == 0.0 && !rc.hasResults
    {
      totalCameras := |queue|;
      rc.isCalculating := true;
      rc.calculationProgress := 0.0;
      rc.hasResults := false;
      running := true;
      assert rc.calculationProgress == Progress(|queue|, totalCameras);
      summary := new MetricsSummary.Start(meshName);
    }

    /** `process_camera`: with a background image and a measurement, append
        the camera to the summary, record its row in the camera list and
        copy the averages to the scene; otherwise change nothing. `target`
        is where the render is saved, when renders are saved. */
    method ProcessCamera(rc: RcMetrics, camera: SceneObject, measured: Option<Metrics>)
      returns (ok: bool, target: Option<string>)
      requires summary.Folded(Infinity, Finite(0.0))
      requires rc.saveRenders ==> renderOutput.Some?
      modifies summary, rc`cameras, rc`activeCameraIndex, rc`averagePsnr, rc`averageSsim, rc`hasResults
      ensures target == if rc.saveRenders then Some(Join(renderOutput.value, RenderFileName(camera.name))) else None
      ensures ok <==> camera.hasBackground && measured.Some?
      ensures ok ==>
                && summary.Entries() == old(summary.Entries()) + [CameraEntry(camera.name, measured.value.psnr, measured.value.ssim)]
                && summary.meshName == old(summary.meshName)
                && summary.Folded(Infinity, Finite(0.0))
                && rc.hasResults
                && Some(rc.averagePsnr) == summary.averagePsnr && Some(rc.averageSsim) == summary.averageSsim
                && rc.cameras == RecordedList(old(rc.cameras), camera.name, measured.value.psnr, measured.value.ssim,
                                              rc.psnrThreshold, rc.ssimThreshold)
                && rc.activeCameraIndex == RecordedIndex(old(rc.cameras), camera.name, old(rc.activeCameraIndex))
      ensures !ok ==> unchanged(summary, rc)
    {
      if rc.saveRenders {
        target := Some(Join(renderOutput.value, RenderFileName(camera.name)));
      } else {
        target := None;
      }
      if camera.hasBackground && measured.Some? {
        var psnr, ssim := measured.value.psnr, measured.value.ssim;
        summary.Update(camera.name, psnr, ssim);
        var _ := rc.UpdateCameraResults(camera.name, psnr, ssim, rc.psnrThreshold, rc.ssimThreshold);
        rc.averagePsnr := summary.averagePsnr.value;
        rc.averageSsim := summary.averageSsim.value;
        rc.hasResults := true;
        return true, target;
      }
      ok := false;
    }

    /** `finish_calculation`: the metrics file is written only when there
        are results and renders are saved; the scene leaves the calculating
        state at 100%. The timer is not removed on this path. */
    method FinishCalculation(rc: RcMetrics) returns (metricsFile: Option<string>)
      requires summary.meshName.Some?
      modifies this`running, rc`isCalculating, rc`calculationProgress, rc`currentCamera
      ensures metricsFile == if rc.hasResults && rc.saveRenders
                             then Some(Join(rc.metricsOutput, "metrics_" + summary.meshName.value + ".json"))
                             else None
      ensures !rc.isCalculating && rc.calculationProgress == 100.0 && rc.currentCamera == ""
      ensures !running
    {
      if rc.hasResults && rc.saveRenders {
        metricsFile := Some(Join(rc.metricsOutput, "metrics_" + summary.meshName.value + ".json"));
      } else {
        metricsFile := None;
      }
      rc.isCalculating := false;
      rc.calculationProgress := 100.0;
      rc.currentCamera := "";
      running := false;
    }

    /** `cancel`: remove the timer if there is one and leave the
        calculating state; progress and results stay as they are. */
    method Cancel(rc: RcMetrics)
      modifies this`timerActive, this`running, rc`isCalculating, rc`currentCamera
      ensures !timerActive && !running && !rc.isCalculating && rc.currentCamera == ""
    {
      if timerActive {
        timerActive := false;
      }
      rc.isCalculating := false;
      rc.currentCamera := "";
      running := false;
    }

    /** A timer event with cameras left: pop the front camera, show it as
        the current camera, advance the progress and process the camera. */
    method PopCamera(rc: RcMetrics, measured: Option<Metrics>)
      requires running && Valid(rc) && queue != []
      modifies this`queue, this`processed, summary, rc`currentCamera, rc`calculationProgress,
               rc`cameras, rc`activeCameraIndex, rc`averagePsnr, rc`averageSsim, rc`hasResults
      ensures Valid(rc) && running
      ensures rc.calculationProgress >= old(rc.calculationProgress)
      ensures && queue == old(queue)[1..]
              && processed == old(processed) + [old(queue)[0]]
              && rc.currentCamera == old(queue)[0].name
              && rc.calculationProgress == Progress(|queue|, totalCameras)
      ensures old(queue)[0].hasBackground && measured.Some? ==>
                && summary.Entries() == old(summary.Entries()) +
                     [CameraEntry(old(queue)[0].name, measured.value.psnr, measured.value.ssim)]
                && rc.cameras == RecordedList(old(rc.cameras), old(queue)[0].name, measured.value.psnr,
                                              measured.value.ssim, rc.psnrThreshold, rc.ssimThreshold)
                && rc.activeCameraIndex == RecordedIndex(old(rc.cameras), old(queue)[0].name, old(rc.activeCameraIndex))
                && rc.hasResults
      ensures !(old(queue)[0].hasBackground && measured.Some?) ==>
                && summary.Entries() == old(summary.Entries())
                && rc.cameras == old(rc.cameras) && rc.activeCameraIndex == old(rc.activeCameraIndex)
                && rc.averagePsnr == old(rc.averagePsnr) && rc.averageSsim == old(rc.averageSsim)
                && rc.hasResults == old(rc.hasResults)
    {
      var camera := Advance(rc);
      var _, _ := ProcessCamera(rc, camera, measured);
    }

    /** Pop the front camera, show it as the current camera and set the
        progress from the cameras left. */
    method Advance(rc: RcMetrics) returns (camera: SceneObject)
      requires running && Valid(rc) && queue != []
      modifies this`queue, this`processed, rc`currentCamera, rc`calculationProgress
      ensures Valid(rc) && |summary.Entries()| < |processed|
      ensures camera == old(queue)[0] && queue == old(queue)[1..] && processed == old(processed) + [camera]
      ensures rc.currentCamera == camera.name
      ensures rc.calculationProgress == Progress(|queue|, totalCameras)
      ensures rc.calculationProgress >= old(rc.calculationProgress)
    {
      camera := queue[0];
      queue := queue[1..];
      processed := processed + [camera];
      rc.currentCamera := camera.name;
      rc.calculationProgress := 100.0 * (1.0 - (|queue| as real) / (totalCameras as real));
      ProgressGrows(|queue| + 1, |queue|, totalCameras);
    }

    /** `modal`: one event while the operator runs. */
    method Modal(rc: RcMetrics, event: Event, measured: Option<Metrics>)
      returns (status: Status, metricsFile: Option<string>)
      requires running && Valid(rc)
      modifies this`queue, this`processed, this`timerActive, this`running, summary,
               rc`isCalculating, rc`currentCamera, rc`calculationProgress,
               rc`cameras, rc`activeCameraIndex, rc`averagePsnr, rc`averageSsim, rc`hasResults
      ensures Valid(rc)
      ensures rc.calculationProgress >= old(rc.calculationProgress)
      ensures !old(rc.isCalculating) || (event == Timer && old(queue) == []) ==>
                && queue == old(queue) && processed == old(processed) && unchanged(summary)
                && rc.cameras == old(rc.cameras) && rc.activeCameraIndex == old(rc.activeCameraIndex)
                && rc.averagePsnr == old(rc.averagePsnr) && rc.averageSsim == old(rc.averageSsim)
                && rc.hasResults == old(rc.hasResults)
      ensures !old(rc.isCalculating) ==>
                && status == Cancelled && !running && !timerActive && !rc.isCalculating && rc.currentCamera == ""
                && rc.calculationProgress == old(rc.calculationProgress)
      ensures old(rc.isCalculating) && event == OtherEvent ==>
                status == RunningModal && unchanged(this, summary, rc)
      ensures old(rc.isCalculating) && event == Timer && old(queue) != [] ==>
                && status == RunningModal && running && timerActive == old(timerActive)
                && queue == old(queue)[1..]
                && processed == old(processed) + [old(queue)[0]]
                && rc.currentCamera == old(queue)[0].name
                && rc.calculationProgress == Progress(|queue|, totalCameras)
                && rc.isCalculating
      ensures old(rc.isCalculating) && event == Timer && old(queue) != [] &&
              old(queue)[0].hasBackground && measured.Some? ==>
                && summary.Entries() == old(summary.Entries()) +
                     [CameraEntry(old(queue)[0].name, measured.value.psnr, measured.value.ssim)]
                && rc.cameras == RecordedList(old(rc.cameras), old(queue)[0].name, measured.value.psnr,
                                              measured.value.ssim, rc.psnrThreshold, rc.ssimThreshold)
                && rc.activeCameraIndex == RecordedIndex(old(rc.cameras), old(queue)[0].name, old(rc.activeCameraIndex))
                && rc.hasResults
      ensures old(rc.isCalculating) && event == Timer && old(queue) != [] &&
              !(old(queue)[0].hasBackground && measured.Some?) ==>
                && summary.Entries() == old(summary.Entries())
                && rc.cameras == old(rc.cameras) && rc.activeCameraIndex == old(rc.activeCameraIndex)
                && rc.averagePsnr == old(rc.averagePsnr) && rc.averageSsim == old(rc.averageSsim)
                && rc.hasResults == old(rc.hasResults)
      ensures old(rc.isCalculating) && event == Timer && old(queue) == [] ==>
                && status == Finished && !running && timerActive == old(timerActive)
                && !rc.isCalculating && rc.calculationProgress == 100.0 && rc.currentCamera == ""
                && metricsFile == (if rc.hasResults && rc.saveRenders
                                   then Some(Join(rc.metricsOutput, "metrics_" + summary.meshName.value + ".json"))
                                   else None)
      ensures !(old(rc.isCalculating) && event == Timer && old(queue) == []) ==> metricsFile == None
    {
      metricsFile := None;
      if !rc.isCalculating {
        Cancel(rc);
        return Cancelled, None;
      }
      if event == Timer {
        if queue != [] {
          PopCamera(rc, measured);
          return RunningModal, None;
        } else {
          metricsFile := FinishCalculation(rc);
          return Finished, metricsFile;
        }
      }
      return RunningModal, None;
    }
  }
}
