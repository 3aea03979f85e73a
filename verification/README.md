# RC Metrics bookkeeping, modelled in Dafny

RC Metrics is a Blender add-on that checks a RealityCapture reconstruction. It
imports the Alembic mesh and the cameras of a RealityCapture result folder.
It then renders the mesh from every camera and compares each render with the
camera's photograph by PSNR and SSIM. This project models the bookkeeping
around those numbers; the numbers themselves are opaque reals produced by an
oracle.

- `CameraUtils`: the per-scene state `scene.rc_metrics` as a class. It holds
  the camera list, the active row, the calculation flags and the averages.
  Its methods rebuild the list, select rows, collect the enabled cameras and
  record one camera's results. Both copies of the camera helpers are modelled,
  with their three differences kept apart.
- `RenderUtils`: the metrics-summary dictionary as a class. `Update` models
  `update_metrics_summary`; the min/max keys are `Bound`s, where `Missing` is
  an absent key and `Infinity` is `float('inf')`. It also holds the
  quality-to-samples mapping of `setup_render_settings`.
- `MetricsOperators`: the modal calculation operator as a queue state
  machine: `invoke`, one `modal` call per event, `process_camera`,
  `finish_calculation` and `cancel`. The ghost predicate `Valid` is kept by
  every step. It says that cameras are popped in queue order, that the
  summary is the fold of the measured cameras, and that the scene's progress
  and averages mirror the queue and the summary.
- `RcMetricsExecute`: the blocking calculation of rc_metrics.py, one pass over
  the scene objects.
- `RcFolder`: the result-folder check, its standalone test twin and the
  render file name.
- `ImportOperators`: the import operator's collection choice, geometry lookup,
  texture and camera setup, and its `execute`.
- `FileUtils`: collision-free file names, extension listing and the default
  output path.
- `Export`: the JSON results record and the HTML report rows.
- `UiComponents`: the panel counts and the 20-block progress bar.
- `ManualRender`: the manual workflow, meaning the camera-selection fallback,
  the render-buffer checks and conversion, and the single-camera summary.

The file system is a set of existing paths or a directory listing. Paths are
joined with POSIX rules (`Strings.Join`). Rendering, image loading and the
PSNR/SSIM computation are parameters of the operations that use them.

## Model

| member | source | states |
|---|---|---|
| CameraUtils.RcCamerasMembership | utils/camera_utils.py:10-23 | an object is kept iff it is a camera named `C…` containing `_DSC` and ending `.png`, or a camera in the given non-empty collection |
| CameraUtils.FindRcCameras | camera_utils.py:85-98 | the scan keeps exactly the accepted objects, in object order; the rule is the same as in the utils copy |
| CameraUtils.RcMetrics.UpdateCameraList | utils/camera_utils.py:25-48 | the list is replaced by one fresh row per found camera, in order, with no results; the utils copy starts rows disabled and the top-level copy (camera_utils.py:100-123) enabled; the active index is 0 for a non-empty list and -1 otherwise; the count is returned |
| CameraUtils.OnlySelected | utils/camera_utils.py:50-60 | the list after `select_single_camera`: same length, every row disabled except row `index`, other fields kept |
| CameraUtils.RcMetrics.SelectSingleCamera | utils/camera_utils.py:50-64 | the new list is `OnlySelected` of the old one (every row disabled except row `index`); only when `index` is in range are the active index set and the name returned; out of range nothing is returned and the index is kept; no other field changes |
| CameraUtils.RcMetrics.SelectAllCameras | camera_utils.py:125-132 | every row's `enabled` becomes `select`, nothing else changes, and the list length is returned |
| CameraUtils.RcMetrics.GetEnabledCameras | utils/camera_utils.py:66-78 | returns `EnabledCameras`, the enabled rows' camera objects in list order |
| CameraUtils.EnabledCamerasMembership | utils/camera_utils.py:71-76 | an object is returned iff some enabled row names it, `objects.get` finds it and it is a camera |
| CameraUtils.EnabledCamerasAreCameras | camera_utils.py:134-146 | at most one object per row, and every returned object is a camera of the scene |
| CameraUtils.Recorded | utils/camera_utils.py:90-96 | a recorded row keeps its name and flag, takes both metrics, has results, and is problematic iff psnr < t_psnr or ssim < t_ssim |
| CameraUtils.IndexOfName | utils/camera_utils.py:89-90 | the position of the first row with the name, or the length when there is none |
| CameraUtils.RcMetrics.UpdateCameraResults | utils/camera_utils.py:80-112 | only the first matching row is rewritten and made active; the result is true iff a row matched; with no match list and index are untouched |
| CameraUtils.RcMetrics.RecordCameraResults | camera_utils.py:148-163 | the same update, returning nothing, so a missing camera cannot be told apart |
| CameraUtils.OutputFolder | operators/export_operators.py:44-46 | an empty `metrics_output` falls back to a path ending in `metrics_output`; a set one is kept |
| RenderUtils.TightenMin | utils/render_utils.py:107-115 | the key becomes finite and at most the new value; it never rises; it is either kept or set to the value |
| RenderUtils.TightenMax | render_utils.py:132-140 | the key is at least the new value and never falls; `inf` stays `inf`; it is either kept or set to the value |
| RenderUtils.FoldMinIsMinimum | render_utils.py:132-135 | from an absent or `inf` key, the min after any non-empty run of updates is one of the values and at most all of them |
| RenderUtils.FoldMaxIsMaximum | utils/render_utils.py:109-110 | from an absent key, the max after any non-empty run of updates is one of the values and at least all of them |
| RenderUtils.FoldMaxFromZero | rc_metrics.py:324-333 | from the starting `0.0`, the max is at least every value and never below 0, and is 0 or one of the values |
| RenderUtils.FoldedStep | render_utils.py:121-140 | appending one entry extends each metric column by that value and folds it into the min and max |
| RenderUtils.FoldOfSnoc | utils/render_utils.py:94-125 | one more update keeps every min/max key the fold of the recorded values and each average sum over count, now with the new entry |
| RenderUtils.MetricsSummary.Update | render_utils.py:119-150 | exactly one entry is appended, and the list is created when absent; each bound is tightened; both averages become sum over count of all entries; the mesh name is kept; a summary that was the fold of its entries stays one |
| RenderUtils.MetricsSummary.Start | operators/metrics_operators.py:96-105 | the starting summary has no cameras, averages 0, minima `inf` and maxima 0, and is already `Folded` |
| RenderUtils.SamplesFor | utils/render_utils.py:17-24 | 32, 64 and 128 samples exactly for `preview`, `medium` and `high`; 256 for anything else |
| RenderUtils.RenderSettings.Setup | render_utils.py:14-34 | Cycles at the quality's samples, resolution 100%, opaque film |
| MetricsOperators.Progress | operators/metrics_operators.py:39-40 | the progress lies in [0, 100]; it is 100 iff nothing remains and 0 iff nothing was popped |
| MetricsOperators.ProgressGrows | operators/metrics_operators.py:36-40 | fewer remaining cameras never gives less progress |
| MetricsOperators.CancelCalculation | operators/metrics_operators.py:228-238 | only clears `is_calculating` and finishes |
| MetricsOperators.CalculateMetrics.Invoke | operators/metrics_operators.py:64-132 | without a mesh it cancels and changes nothing; the queue is the enabled cameras; the output folder is defaulted only when renders are saved; an empty queue cancels and keeps the summary, timer, render folder, progress and result flags; a non-empty one starts the run with the quality's render settings, the render folder iff renders are saved, a fresh summary with averages 0, minima `inf` and maxima 0, the timer on and the scene calculating at 0% without results; `Valid` holds afterwards |
| MetricsOperators.CalculateMetrics.StartCalculation | operators/metrics_operators.py:94-132 | fresh summary, render settings for the quality, render folder iff renders are saved, timer on; calculating, progress 0, no results |
| MetricsOperators.CalculateMetrics.BeginRun | operators/metrics_operators.py:96-129 | the run starts with the total set to the queue length, a fresh summary for the mesh, the scene calculating at 0% without results, and `Valid` established |
| MetricsOperators.CalculateMetrics.ProcessCamera | operators/metrics_operators.py:134-181 | with a background image and both metrics, exactly one entry is appended, the folded invariant is kept, the camera's first row is recorded and made the active row (a missing name keeps list and index), and the scene averages copy the summary; otherwise nothing changes |
| MetricsOperators.CalculateMetrics.FinishCalculation | operators/metrics_operators.py:183-214 | the metrics file is written iff there are results and renders are saved; the scene stops calculating at 100% with an empty current camera |
| MetricsOperators.CalculateMetrics.Cancel | operators/metrics_operators.py:216-226 | the timer is removed and calculating and current camera are reset |
| MetricsOperators.CalculateMetrics.Advance | operators/metrics_operators.py:32-40 | exactly the front camera is popped into the processed list and shown as current; the progress is that of the remaining queue and does not decrease; `Valid` is kept |
| MetricsOperators.CalculateMetrics.PopCamera | operators/metrics_operators.py:30-50 | a tick with cameras left pops the front camera and processes it; when it had a background image and was measured, the summary grows by it, its row is recorded and made active and the scene has results; otherwise the summary, camera list, active row, averages and result flag are kept; only the queue, progress, current camera and those fields can change; `Valid` is kept |
| MetricsOperators.CalculateMetrics.Modal | operators/metrics_operators.py:21-62 | changes only the queue, timer, run flag, summary and the scene's calculating flag, current camera, progress, camera list, active row, averages and result flag; a cleared flag cancels and keeps progress; other events change nothing; a tick pops exactly the front camera in order, sets a progress that never decreases, and records the camera as `PopCamera` does; a tick on the empty queue finishes at 100% and returns the `metrics_<mesh>.json` path exactly when there are results and renders are saved (no file on any other branch); cancel and finish keep the camera list, active row, averages and results; `Valid` is kept |
| RcMetricsExecute.MeasuredFromContributors | rc_metrics.py:340-389 | every summary entry comes from a camera with a background image, an existing reference photograph and both metrics, carrying that camera's name and values; there are never more entries than objects |
| RcMetricsExecute.MeasureCameras | rc_metrics.py:335-389 | the loop's list, count, totals, minima from `inf` and maxima from 0 are those of `Measured`, the contributing cameras in scene order |
| RcMetricsExecute.Execute | rc_metrics.py:289-410 | no mesh cancels; the output folder defaults to `rc_folder/metrics_output`; preview Cycles settings at 100% with opaque film, and no mesh leaves the settings untouched; finished iff some camera was measured, with averages total/count, the folds as minima and maxima, and the file `metrics_<mesh>.json`; otherwise cancelled with nothing written |
| RcMetricsExecute.WrittenSummaryBounds | rc_metrics.py:380-397 | in a written summary every minimum is a measured value at most every entry, and every maximum is at least every entry and never below 0 |
| RcMetricsExecute.MeasuredStep | rc_metrics.py:340-389 | one more object adds its entry exactly when it contributes |
| RcMetricsExecute.MeasureOne | rc_metrics.py:340-375 | one object is measured iff it is a camera with a background image, its reference photograph exists, and the oracle measures it from the reference and render paths |
| RcFolder.AbcIsNotImage | rc_metrics.py:51-60 | an `.abc` name is never counted as an image or a texture |
| RcFolder.CheckRcFolderStructure | rc_metrics.py:43-67 | a success has an `.abc` file, at least two images and, if any texture, a `_diffuse.png` one |
| RcFolder.CheckRcFolderStructureAccepts | operators/import_operators.py:16-40 | success iff the folder exists, some name ends in `.abc`, and two listed names are images |
| RcFolder.CheckRcFolderStructureContents | operators/import_operators.py:24-40 | on success: the first `.abc` name; the images are exactly the listed `.png` names that are not textures, without the `.abc`; the texture is absent iff there is none, else it is the first |
| RcFolder.AnalyzeRcFolder | test_standalone.py:43-77 | a missing folder, no `.abc` or fewer than two images fail |
| RcFolder.AnalyzeAgreesWithCheck | test_standalone.py:48-77 | the standalone analysis accepts exactly the listings the operator's check accepts, so a missing texture never fails |
| RcFolder.AnalyzeIgnoresTextures | test_standalone.py:65-77 | removing every `_diffuse.png` name from the listing does not change the verdict |
| RcFolder.RenderFileName | rc_metrics.py:356 | the name ends in `_render.png` after a stem that is a prefix of the camera name and contains no `.` |
| RcFolder.RenderFileNameOfPhoto | operators/metrics_operators.py:143 | a camera named `<stem>.<ext>`, or just `<stem>`, renders to `<stem>_render.png` |
| ImportOperators.ImportAbcCollection | operators/import_operators.py:42-49 | the first collection that is neither `Collection` nor `Scene Collection`; none iff none qualifies |
| ImportOperators.FindGeometryObject | operators/import_operators.py:108-113 | the first object whose lowered name equals the lowered geometry name or contains `geom`; none iff none matches |
| ImportOperators.GeometryByName | operators/import_operators.py:111 | an object whose name equals the geometry name up to ASCII letter case is a geometry match |
| ImportOperators.GeometryIgnoresCase | operators/import_operators.py:111 | changing the letter case of the object name or of the geometry name never changes whether the object matches |
| ImportOperators.GeometryByInfix | operators/import_operators.py:111 | any `geom` occurrence in any letter case is a geometry match |
| ImportOperators.ApplyTexture | operators/import_operators.py:103-125 | applied iff a non-empty texture is given, a geometry object exists and the texture loads; the load path is `folder/texture` |
| ImportOperators.SetupCameras | operators/import_operators.py:51-101 | fails iff the first photograph is unreadable; only cameras named like a listed photograph that loads get a background; other objects are unchanged |
| ImportOperators.ImportRc | operators/import_operators.py:165-207 | cancels without OpenCV, without a folder or on a failed check; the `.abc` path is `folder/<abc>`; finished iff camera setup succeeds; the texture is applied only when the folder has one; the rc_metrics.py copy (rc_metrics.py:186-221) is this with OpenCV present |
| FileUtils.CandidateInjective | utils/file_utils.py:75-80 | different counters give different candidate names |
| FileUtils.TriedExactly | utils/file_utils.py:78-81 | the first n candidates are n distinct names, and no later candidate is among them |
| FileUtils.GetValidFilepath | utils/file_utils.py:72-83 | the result is not an existing path; it is the first candidate `base.ext`, `base_1.ext`, … that is not taken; the loop ends for any finite existing set |
| FileUtils.FindFileByExtension | utils/file_utils.py:85-90 | a missing directory gives none; otherwise exactly the listed names ending in `.ext` |
| FileUtils.FindFileByExtensionInOrder | utils/file_utils.py:90 | the matches keep listing order: those of `a + b` are those of `a` followed by those of `b`, and a single name is kept iff it ends in `.ext` |
| FileUtils.GetDefaultOutputPath | utils/file_utils.py:49-70 | with an RC folder the path is `rc_folder/metrics_output`, and the subfolder is appended under it when one is given |
| FileUtils.DefaultOutputPathWithSubfolder | utils/file_utils.py:51-65 | with a non-empty subfolder the path is exactly the subfolder joined onto `rc_folder/metrics_output`, the blend-dir fallback or the temp-dir fallback |
| Export.MinOrZero | operators/export_operators.py:26-27 | `min(…, default=0)`: 0 for no values, otherwise a value at most all values |
| Export.MaxOrZero | operators/export_operators.py:28-29 | `max(…, default=0)`: 0 for no values, otherwise a value at least all values |
| Export.PsnrBoundsOverResults | operators/export_operators.py:26-29 | the exported PSNR min and max are taken only over rows with results, bound all of them and are attained, and are 0 when there are none |
| Export.SsimBoundsOverResults | ui_components.py:195-198 | the same for SSIM |
| Export.ExportCameras | operators/export_operators.py:34-41 | the loop yields one entry per row with results, in list order, with its `is_problematic` |
| Export.ExportedExactlyResults | ui_components.py:203-210 | an entry is exported iff some row with results has exactly those values |
| Export.ExportResults | operators/export_operators.py:18-55 | the record copies the averages, has the min/max and the camera entries above, and is written to `metrics_<name>.json` in the output folder; a missing object is `Unknown` in the record but `unknown` in the file name; ui_components.py:184-224 is the same |
| Export.OutputFolderIsDefaultPath | ui_components.py:213-216 | with an RC folder, the exporters' fallback equals `get_default_output_path` without a subfolder |
| Export.RowOf | operators/export_operators.py:153-156 | a cell is `*-low` iff its value is below the threshold; the row is `problematic`/`Problem` iff flagged, else `good`/`Good` |
| Export.RowStatusMatchesCells | operators/export_operators.py:153-156 | for a row recorded under the report's thresholds, `Problem` iff some cell is low |
| Export.ReportRows | operators/export_operators.py:150-171 | exactly one row per camera with results, in list order |
| Export.ExportReport | operators/export_operators.py:63-88 | cancels without results; otherwise the rows and `report/metrics_report.html` in the output folder |
| UiComponents.CountsBounded | ui_components.py:41-50 | the enabled count is at most the list length, and problematic ≤ calculated ≤ length |
| UiComponents.ProblematicCountMatchesReport | ui_components.py:50 | the panel's problem count equals the number of report rows marked `Problem` |
| UiComponents.CameraPanelStatsShown | ui_components.py:37-52 | stats are shown iff the list is non-empty, the calculated count iff some row has results, and the problem count iff a row with results is flagged |
| UiComponents.TruncateToInt | ui_components.py:92 | `int(x)`: truncation toward zero |
| UiComponents.FilledBlocksRange | ui_components.py:92-97 | for progress in [0, 100]: between 0 and 20 blocks, 20 iff at 100%, 0 iff below 5%, monotone in progress |
| UiComponents.ProgressBlocks | ui_components.py:92-97 | 20 blocks, block i filled iff i < int(progress / 5) |
| ManualRender.EnabledOnlySelected | operators/manual_render_operators.py:39-43 | with one row enabled, the enabled cameras are that row's camera, if it resolves |
| ManualRender.FallbackPicksActiveRow | operators/manual_render_operators.py:35-50 | the fallback prepares exactly the active row's camera when that row names a scene camera, and cancels otherwise |
| ManualRender.ChooseManualCamera | operators/manual_render_operators.py:33-50 | the camera list is rewritten only when the fallback is taken; the active index is kept; the cameras picked from are the enabled ones, or after the fallback those of the rewritten list when the row has a name |
| ManualRender.PrepareManualRender | operators/manual_render_operators.py:22-94 | no mesh cancels and changes nothing; the camera choice is that of `ChooseManualCamera`; no camera cancels without touching settings or output; otherwise the first enabled camera is the scene camera, with the Cycles engine, the quality's samples, 100% resolution and opaque film; when saving, the output folder is defaulted and the render path is `renders/<stem>_render.png` |
| ManualRender.ToByteRange | operators/manual_render_operators.py:178 | a channel in [0, 1] becomes a byte; 0 gives 0 and 1 gives 255 |
| ManualRender.PixelInBuffer | operators/manual_render_operators.py:168-174 | every pixel's four channels lie within a buffer of `width*height*4` |
| ManualRender.ToBgrImage | operators/manual_render_operators.py:174-178 | a `height × width` image |
| ManualRender.AlphaIgnored | operators/manual_render_operators.py:176 | the alpha channel does not affect the converted image |
| ManualRender.ChannelsReversed | operators/manual_render_operators.py:176 | a converted pixel is (B, G, R) from the buffer's third, second and first channels |
| ManualRender.ManualSummaryIsSingleCameraSummary | operators/manual_render_operators.py:213-226 | the one-camera summary has average = min = max, is what the batch summary of that single camera gives, and for non-negative metrics also matches its zero-based maxima |
| ManualRender.CalculateMetricsFromRender | operators/manual_render_operators.py:124-252 | finished iff there are a render, a camera, a reference, a non-zero size, a buffer of exactly `width*height*4` (a longer one fails in `reshape`) and both metrics; otherwise cancelled with nothing changed; on success the camera's first row is recorded and made active, the scene averages are this camera's, and the summary is written iff saving to a set folder |
| Scene.Lookup | utils/camera_utils.py:74 | the object with the name, if any exists |

## Left out

- PSNR and SSIM computation, image loading and resizing (`skimage`, `cv2`): these are oracles.
- The values those oracles compare are not modelled either. An infinite PSNR from identical images, and NaN, are not modelled.
- Rendering (`render_from_camera`) always succeeds in the blocking calculation; that is where the source's render call lives. In the modal operator, a failed render or measurement arrives as `None` metrics.
- Floating point: metrics, averages and progress are exact reals, without rounding.
- `os.makedirs` always succeeds, so the directory-creation error paths are not modelled. JSON and HTML files are not modelled beyond their paths and contents: there is no serialisation and no write errors.
- The HTML report's markup, styling and time stamp are not modelled.
- `Strings.ToLower` folds ASCII letters only. Python's `str.lower` also folds other scripts.
- `Strings.Join` follows POSIX `os.path.join` for two parts. Windows drive and separator rules are not modelled.
- Blender scene and UI plumbing is not modelled:
  - material and shader node construction in `apply_texture`;
  - the camera resolution set in `setup_cameras`;
  - workspace switching;
  - redraws;
  - reports;
  - panel layout;
  - registration;
  - the side-by-side view operator;
  - the `get_render_result_image` search.
- ManualRender.ToBgrImage: row order follows the buffer. Blender's bottom-up pixel rows are not modelled.
- ManualRender.ToByte: this is truncation of `v * 255`. It is only shown to give a byte for values in [0, 1]. numpy's conversion of out-of-range floats is platform-dependent and not modelled.
- The resize of a rendered image to the reference shape is not modelled; it is part of the `measure` oracle.
- The import operator's Alembic import is not modelled; its effect is the `collections` and `objects` given to `ImportRc`.
- MetricsOperators.CalculateMetrics.Invoke: render settings, `metrics_output`, `save_renders` and `render_quality` are taken not to change while a calculation runs. In particular, switching `save_renders` on during a run would make the source join a missing render folder and raise TypeError; the invariant `Valid` excludes this. It is also taken that no other operator writes `has_results` or the averages during a run; `RCMETRICS_OT_CalculateMetricsFromRender` could do so between ticks, and `Valid`, which ties those fields to the run's summary, excludes it.
- MetricsOperators.CalculateMetrics.FinishCalculation: the timer stays registered on the finish path. The source removes it only in `cancel`, and the model keeps that behaviour.
- RcMetricsExecute.Execute: the per-camera `metrics_results` dictionary is built but never read, so it is not modelled.
- RcFolder.AnalyzeRcFolder: the source returns `None` on failure and `True` on success. The model returns false and true.
- ImportOperators.ImportRc: it states only that a reported collection qualifies, not that it is the first. `ImportAbcCollection` states the first-match rule.
- UiComponents: the `Calculated: r/e` label is not modelled beyond its counts.
- FileUtils.FindFileByExtension: `dirExists` is taken to mean a listable directory. The exceptions `os.listdir` raises for an existing path that is a regular file or unreadable (NotADirectoryError, PermissionError) are not modelled.
- RcFolder.CheckRcFolderStructure: `folderExists` is taken to mean a listable directory. The exceptions `os.listdir` raises for an existing path that is a regular file or unreadable (NotADirectoryError, PermissionError) are not modelled.
- RcFolder.AnalyzeRcFolder: `folderExists` is taken to mean a listable directory. The exceptions `os.listdir` raises for an existing path that is a regular file or unreadable (NotADirectoryError, PermissionError) are not modelled.
- ImportOperators.ImportRc: `folderExists` is taken to mean a listable directory. The exceptions `os.listdir` raises for an existing path that is a regular file or unreadable (NotADirectoryError, PermissionError) are not modelled.
- CameraUtils.RcMetrics.UpdateCameraResults: the default threshold arguments (30.0 and 0.9) are not modelled, because every caller passes the scene's thresholds.
