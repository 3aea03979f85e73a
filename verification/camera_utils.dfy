/** The add-on's per-scene state (`scene.rc_metrics`) and the camera-list
    operations of utils/camera_utils.py and of its older copy camera_utils.py.
    The two copies differ in three places, each kept apart below: the
    initial `enabled` flag of a rebuilt list, `select_single_camera` versus
    `select_all_cameras`, and whether `update_camera_results` reports a match. */
module CameraUtils {
  import opened Wrappers
  import opened Strings
  import opened Seqs
  import opened Scene

  /** One row of the camera list (`RCCamera`). */
  datatype CameraItem = CameraItem(
    name: string,
    enabled: bool,
    psnr: real,
    ssim: real,
    hasResults: bool,
    isProblematic: bool)

  /** A row added by `cameras.add()`: every field at its default except the
      name and the `enabled` flag the caller writes. */
  function NewItem(name: string, enabled: bool): CameraItem {
    CameraItem(name, enabled, 0.0, 0.0, false, false)
  }

  /** RealityCapture names its cameras after the photographs: `C...`,
      containing `_DSC`, ending in `.png`. */
  predicate IsRcCameraName(name: string) {
    StartsWith(name, "C") && Contains(name, "_DSC") && EndsWith(name, ".png")
  }

  /** Membership in the collection passed to `find_rc_cameras`, which is
      only consulted when a non-empty collection name is given. */
  predicate InCollection(o: SceneObject, collection: Option<string>) {
    collection.Some? && collection.value != "" && collection.value in o.collections
  }

  predicate IsRcCamera(o: SceneObject, collection: Option<string>) {
    o.kind == Camera && (IsRcCameraName(o.name) || InCollection(o, collection))
  }

  /** The objects `find_rc_cameras` keeps, in object order. */
  function RcCameras(objects: seq<SceneObject>, collection: Option<string>): seq<SceneObject> {
    Filter(objects, (o: SceneObject) => IsRcCamera(o, collection))
  }

  lemma {:induction false} RcCamerasMembership(objects: seq<SceneObject>, collection: Option<string>, o: SceneObject)
    ensures o in RcCameras(objects, collection) <==>
            o in objects && o.kind == Camera &&
            ((StartsWith(o.name, "C") && Contains(o.name, "_DSC") && EndsWith(o.name, ".png")) ||
             (collection.Some? && collection.value != "" && collection.value in o.collections))
  {
    FilterMembership(objects, (o: SceneObject) => IsRcCamera(o, collection), o);
  }

  /** `find_rc_cameras`: scan the scene's objects once, keeping RC cameras. */
  method FindRcCameras(objects: seq<SceneObject>, collection: Option<string>) returns (found: seq<SceneObject>)
    ensures found == RcCameras(objects, collection)
  {
    found := [];
    var i := 0;
    while i < |objects|
      invariant 0 <= i <= |objects|
      invariant found == RcCameras(objects[..i], collection)
    {
      FilterSnoc(objects, i, (o: SceneObject) => IsRcCamera(o, collection));
      if IsRcCamera(objects[i], collection) {
        found := found + [objects[i]];
      }
      i := i + 1;
    }
    assert objects[..i] == objects;
  }

  /** What the list holds for an enabled row: the scene object it names,
      when that object exists and is a camera. */
  function Resolve(c: CameraItem, objects: seq<SceneObject>): seq<SceneObject> {
    if !c.enabled then []
    else match Lookup(objects, c.name)
      case Some(o) => if o.kind == Camera then [o] else []
      case None => []
  }

  /** The cameras `get_enabled_cameras` returns, in list order. */
  function EnabledCameras(cams: seq<CameraItem>, objects: seq<SceneObject>): seq<SceneObject> {
    if cams == [] then []
    else EnabledCameras(cams[..|cams| - 1], objects) + Resolve(cams[|cams| - 1], objects)
  }

  /** Row `c` contributes `o`: it is enabled and names `o`, a camera of the scene. */
  predicate Yields(c: CameraItem, objects: seq<SceneObject>, o: SceneObject) {
    c.enabled && Lookup(objects, c.name) == Some(o) && o.kind == Camera
  }

  /** An object is returned exactly when some enabled row names it and it is a camera. */
  lemma {:induction false} EnabledCamerasMembership(cams: seq<CameraItem>, objects: seq<SceneObject>, o: SceneObject)
    ensures o in EnabledCameras(cams, objects) <==>
            exists i :: 0 <= i < |cams| && Yields(cams[i], objects, o)
    decreases |cams|
  {
    if cams != [] {
      var init, last := cams[..|cams| - 1], cams[|cams| - 1];
      EnabledCamerasMembership(init, objects, o);
      assert EnabledCameras(cams, objects) == EnabledCameras(init, objects) + Resolve(last, objects);
      assert o in Resolve(last, objects) <==> Yields(last, objects, o);
      if exists i :: 0 <= i < |init| && Yields(init[i], objects, o) {
        var i :| 0 <= i < |init| && Yields(init[i], objects, o);
        assert cams[i] == init[i];
      }
      if exists i :: 0 <= i < |cams| && Yields(cams[i], objects, o) {
        var i :| 0 <= i < |cams| && Yields(cams[i], objects, o);
        if i < |init| {
          assert init[i] == cams[i];
        }
      }
    }
  }

  /** Every returned object is a camera of the scene. */
  lemma {:induction false} EnabledCamerasAreCameras(cams: seq<CameraItem>, objects: seq<SceneObject>)
    ensures |EnabledCameras(cams, objects)| <= |cams|
    ensures forall o :: o in EnabledCameras(cams, objects) ==> o in objects && o.kind == Camera
    decreases |cams|
  {
    if cams != [] {
      EnabledCamerasAreCameras(cams[..|cams| - 1], objects);
    }
  }

  /** The threshold rule: a camera is problematic when either metric is below its threshold. */
  predicate IsProblematic(psnr: real, ssim: real, thresholdPsnr: real, thresholdSsim: real) {
    psnr < thresholdPsnr || ssim < thresholdSsim
  }

  /** A row after `update_camera_results` wrote its fields. */
  function Recorded(c: CameraItem, psnr: real, ssim: real, thresholdPsnr: real, thresholdSsim: real): (r: CameraItem)
    ensures r.name == c.name && r.enabled == c.enabled
    ensures r.psnr == psnr && r.ssim == ssim && r.hasResults
    ensures r.isProblematic <==> psnr < thresholdPsnr || ssim < thresholdSsim
  {
    c.(psnr := psnr, ssim := ssim, hasResults := true,
       isProblematic := IsProblematic(psnr, ssim, thresholdPsnr, thresholdSsim))
  }

  /** Position of the first row with the given name, or `|cams|` when there is none. */
  function IndexOfName(cams: seq<CameraItem>, name: string): (k: nat)
    ensures k <= |cams|
    ensures k < |cams| ==> cams[k].name == name
    ensures forall j :: 0 <= j < k ==> cams[j].name != name
  {
    FirstIndex(cams, (c: CameraItem) => c.name == name)
  }

  /** The camera list after `select_single_camera(index)`: every row
      disabled except row `index`, when there is one. */
  function OnlySelected(cams: seq<CameraItem>, index: int): (r: seq<CameraItem>)
    ensures |r| == |cams|
    ensures forall j :: 0 <= j < |cams| ==> r[j] == cams[j].(enabled := j == index)
  {
    seq(|cams|, j requires 0 <= j < |cams| => cams[j].(enabled := j == index))
  }

  /** The camera list after recording results for `name`: its first row
      is rewritten, and a list without the name is kept. */
  function RecordedList(cams: seq<CameraItem>, name: string, psnr: real, ssim: real,
                        thresholdPsnr: real, thresholdSsim: real): seq<CameraItem> {
    var k := IndexOfName(cams, name);
    if k < |cams| then cams[k := Recorded(cams[k], psnr, ssim, thresholdPsnr, thresholdSsim)] else cams
  }

  /** The active row after recording results for `name`: its first row, or
      `index` unchanged when no row has the name. */
  function RecordedIndex(cams: seq<CameraItem>, name: string, index: int): int {
    var k := IndexOfName(cams, name);
    if k < |cams| then k else index
  }

  /** The output folder every operator falls back to: the configured
      `metrics_output`, or `metrics_output` inside the RC folder when it is empty. */
  function OutputFolder(rcFolder: string, metricsOutput: string): (folder: string)
    ensures metricsOutput != "" ==> folder == metricsOutput
    ensures metricsOutput == "" ==> EndsWith(folder, "metrics_output")
  {
    if metricsOutput == "" then
      JoinEnds(rcFolder, "metrics_output");
      Join(rcFolder, "metrics_output")
    else metricsOutput
  }

  /** `scene.rc_metrics`: the camera list, the active row, the progress
      flags of a running calculation, the latest averages and the settings. */
  class RcMetrics {
    var cameras: seq<CameraItem>
    var activeCameraIndex: int
    var isCalculating: bool
    var calculationProgress: real
    var currentCamera: string
    var hasResults: bool
    var averagePsnr: real
    var averageSsim: real
    var psnrThreshold: real
    var ssimThreshold: real
    var rcFolder: string
    var metricsOutput: string
    var saveRenders: bool
    var renderQuality: string

    /** A scene with an empty camera list, idle, with the given settings. */
    constructor (rcFolder: string, metricsOutput: string, saveRenders: bool, renderQuality: string,
                 psnrThreshold: real, ssimThreshold: real)
      ensures this.cameras == [] && this.activeCameraIndex == -1
      ensures !this.isCalculating && this.calculationProgress == 0.0 && this.currentCamera == ""
      ensures !this.hasResults && this.averagePsnr == 0.0 && this.averageSsim == 0.0
      ensures this.rcFolder == rcFolder && this.metricsOutput == metricsOutput
      ensures this.saveRenders == saveRenders && this.renderQuality == renderQuality
      ensures this.psnrThreshold == psnrThreshold && this.ssimThreshold == ssimThreshold
    {
      this.cameras := [];
      this.activeCameraIndex := -1;
      this.isCalculating := false;
      this.calculationProgress := 0.0;
      this.currentCamera := "";
      this.hasResults := false;
      this.averagePsnr := 0.0;
      this.averageSsim := 0.0;
      this.rcFolder := rcFolder;
      this.metricsOutput := metricsOutput;
      this.saveRenders := saveRenders;
      this.renderQuality := renderQuality;
      this.psnrThreshold := psnrThreshold;
      this.ssimThreshold := ssimThreshold;
    }

    /** `update_camera_list`: clear the list, add one row per RC camera found
        by name (no collection is passed), and point the active index at the
        first row, or at -1 for an empty list. The utils/ copy starts every
        row disabled, the top-level copy enabled: `initiallyEnabled`. */
    method UpdateCameraList(objects: seq<SceneObject>, initiallyEnabled: bool) returns (count: nat)
      modifies this`cameras, this`activeCameraIndex
      ensures |cameras| == |RcCameras(objects, None)|
      ensures forall i :: 0 <= i < |cameras| ==>
                cameras[i] == NewItem(RcCameras(objects, None)[i].name, initiallyEnabled)
      ensures activeCameraIndex == if |cameras| > 0 then 0 else -1
      ensures count == |cameras|
    {
      cameras := [];
      var found := FindRcCameras(objects, None);
      var i := 0;
      while i < |found|
        invariant 0 <= i <= |found|
        invariant |cameras| == i
        invariant forall j :: 0 <= j < i ==> cameras[j] == NewItem(found[j].name, initiallyEnabled)
      {
        cameras := cameras + [NewItem(found[i].name, initiallyEnabled)];
        i := i + 1;
      }
      if |cameras| > 0 {
        activeCameraIndex := 0;
      } else {
        activeCameraIndex := -1;
      }
      count := |cameras|;
    }

    /** `select_single_camera` (utils/ copy): disable every row, then enable
        row `index` and make it active when it is in range. */
    method SelectSingleCamera(index: int) returns (name: Option<string>)
      modifies this`cameras, this`activeCameraIndex
      ensures cameras == OnlySelected(old(cameras), index)
      ensures 0 <= index < |cameras| ==>
                name == Some(cameras[index].name) && activeCameraIndex == index
      ensures !(0 <= index < |cameras|) ==>
                name == None && activeCameraIndex == old(activeCameraIndex)
    {
      var i := 0;
      while i < |cameras|
        invariant 0 <= i <= |cameras| == |old(cameras)|
        invariant forall j :: 0 <= j < i ==> cameras[j] == old(cameras)[j].(enabled := false)
        invariant forall j :: i <= j < |cameras| ==> cameras[j] == old(cameras)[j]
        invariant activeCameraIndex == old(activeCameraIndex)
      {
        cameras := cameras[i := cameras[i].(enabled := false)];
        i := i + 1;
      }
      if 0 <= index < |cameras| {
        cameras := cameras[index := cameras[index].(enabled := true)];
        activeCameraIndex := index;
        name := Some(cameras[index].name);
      } else {
        name := None;
      }
    }

    /** `select_all_cameras` (top-level copy): set every row's `enabled` flag. */
    method SelectAllCameras(select: bool) returns (count: nat)
      modifies this`cameras
      ensures |cameras| == |old(cameras)| == count
      ensures forall j :: 0 <= j < |cameras| ==> cameras[j] == old(cameras)[j].(enabled := select)
    {
      var i := 0;
      while i < |cameras|
        invariant 0 <= i <= |cameras| == |old(cameras)|
        invariant forall j :: 0 <= j < i ==> cameras[j] == old(cameras)[j].(enabled := select)
        invariant forall j :: i <= j < |cameras| ==> cameras[j] == old(cameras)[j]
      {
        cameras := cameras[i := cameras[i].(enabled := select)];
        i := i + 1;
      }
      count := |cameras|;
    }

    /** `get_enabled_cameras`: the enabled rows' camera objects, in list order. */
    method GetEnabledCameras(objects: seq<SceneObject>) returns (enabled: seq<SceneObject>)
      ensures enabled == EnabledCameras(cameras, objects)
    {
      enabled := [];
      var i := 0;
      while i < |cameras|
        invariant 0 <= i <= |cameras|
        invariant enabled == EnabledCameras(cameras[..i], objects)
      {
        assert cameras[..i + 1][..i] == cameras[..i];
        var item := cameras[i];
        if item.enabled {
          var obj := Lookup(objects, item.name);
          if obj.Some? && obj.value.kind == Camera {
            enabled := enabled + [obj.value];
          }
        }
        i := i + 1;
      }
      assert cameras[..i] == cameras;
    }

    /** `update_camera_results` (utils/ copy): write the results into the
        first row with the given name, flag it by the threshold rule and make
        it active; report whether a row matched. */
    method UpdateCameraResults(cameraName: string, psnr: real, ssim: real,
                               thresholdPsnr: real, thresholdSsim: real) returns (found: bool)
      modifies this`cameras, this`activeCameraIndex
      ensures found <==> IndexOfName(old(cameras), cameraName) < |old(cameras)|
      ensures found ==>
                var k := IndexOfName(old(cameras), cameraName);
                cameras == old(cameras)[k := Recorded(old(cameras)[k], psnr, ssim, thresholdPsnr, thresholdSsim)] &&
                activeCameraIndex == k
      ensures !found ==> cameras == old(cameras) && activeCameraIndex == old(activeCameraIndex)
    {
      found := false;
      var i := 0;
      while i < |cameras|
        invariant 0 <= i <= |cameras|
        invariant cameras == old(cameras) && activeCameraIndex == old(activeCameraIndex)
        invariant forall j :: 0 <= j < i ==> cameras[j].name != cameraName
      {
        if cameras[i].name == cameraName {
          assert IndexOfName(cameras, cameraName) == i;
          cameras := cameras[i := Recorded(cameras[i], psnr, ssim, thresholdPsnr, thresholdSsim)];
          activeCameraIndex := i;
          found := true;
          break;
        }
        i := i + 1;
      }
    }

    /** `update_camera_results` (top-level copy): the same update, with no
        return value, so callers learn nothing about whether a row matched. */
    method RecordCameraResults(cameraName: string, psnr: real, ssim: real,
                               thresholdPsnr: real, thresholdSsim: real)
      modifies this`cameras, this`activeCameraIndex
      ensures var k := IndexOfName(old(cameras), cameraName);
              if k < |old(cameras)| then
                cameras == old(cameras)[k := Recorded(old(cameras)[k], psnr, ssim, thresholdPsnr, thresholdSsim)] &&
                activeCameraIndex == k
              else
                cameras == old(cameras) && activeCameraIndex == old(activeCameraIndex)
    {
      var _ := UpdateCameraResults(cameraName, psnr, ssim, thresholdPsnr, thresholdSsim);
    }
  }
}
