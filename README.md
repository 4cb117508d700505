# Person-presence alert pipeline — Dafny model

This project models the sequential core of a person-alert server. A camera is read with
a frame stride. A detection model reports person boxes for each frame. A presence
detector decides, frame by frame, whether to emit an event: it always emits on a new
appearance, emits again when the person moves and emits a keepalive after 5 seconds. It
resets on a frame with no person. A snapshot of the frame is taken at most once every
`snap_every_s` seconds. Around the detector sits a lifecycle controller with
start/stop/restart/switch-source/update-params/status, and a WebSocket broadcaster that
fans events out and drops the clients whose send failed.

Modules, one per file:

- `Geometry` (geometry.dfy): boxes and the IoU ratio `_iou_xyxy`. It is an exact
  `real`, not an IEEE float.
- `Detections` (detections.dfy): the model's detections, the person filter, Python's
  `int()` truncation and the first-maximum choice of `max(persons, key=score)`.
- `Presence` (presence.dfy): the tracking fields `had_person`, `last_bbox`,
  `last_emit_ts` and the per-frame decision `Step`.
- `Detector` (detector.dfy): the class `PersonDetector` with `_read`,
  `_maybe_snapshot`, the loop body and `run`. The class is proved against pure
  specifications (`Iterate`, `Observations`, `Replay`), and the lemmas about events and
  snapshots are proved on those specifications.
- `Service` (service.dfy): the class `DetectorService` with its two config sections as
  maps, a `LoopTask` object standing for the asyncio task, and a ghost set of every task
  started. Its invariant shows that at most one detection loop is live.
- `Broadcast` (broadcast.dfy): the class `WSManager` over a `set` of clients.
- `Wrappers` (wrappers.dfy): `Option`.

Outside inputs are parameters:

- the camera is a `Camera` object that replays a list of grabs;
- the detection model is a function from images to detections;
- each loop iteration gets a `Tick`: the two `time.time()` readings (line 88, and line 59
  inside `_maybe_snapshot`) and the two `uuid4().hex[:8]` strings;
- WebSocket handshake and send failures are an argument and an oracle function.

The model follows the code as written:

- Exceptions from the detection model are not caught inside the loop (lines 77-83). An
  inference error ends `run`; the model has no error path there.
- `update_params` overwrites any key already present in `cfg["camera"]` (first) or
  `cfg["yolo"]`. There is no fixed list of recognised keys.
- The event's `source` tag is always `"webcam"`, and `snapshot_url` is
  `"/static/snapshots/person_<hex>.jpg"`.
- `_open` is called before the `try` of `run` (lines 69-70). A camera that fails to open
  is therefore never released (`Detector.PersonDetector.Run`).
- `start` tests only the `running` flag. A loop task that has died on its own still
  leaves the service "running", so `start` does nothing and `status` reports
  `running = true` until `stop` or `restart`.
- `stop` awaits the cancelled task under `except Exception` (lines 26-29). `run` has no
  handler for the cancellation, so the await re-raises `asyncio.CancelledError`. That is
  a `BaseException`, so it escapes the handler and `stop` raises before lines 30-31.
  `restart`, `switch_source` and `update_params` raise with it, before any new task is
  started (see Findings).
- `last_emit_ts` is kept across an absent frame (it is not reset at lines 116-118). The
  tracker therefore keeps the source's three fields rather than an Absent/Present sum.

## Model

| member | source | states |
|---|---|---|
| `Geometry.Iou` | detector/person_detector.py:8-18 | the IoU ratio is at least 0 and strictly below 1, because of the `1e-6` in the union |
| `Geometry.InterWithinAreas` | detector/person_detector.py:11-16 | the clamped intersection area is at most the area of each box, so the union is never smaller than the intersection |
| `Geometry.IouSymmetric` | detector/person_detector.py:8-18 | `iou(a, b) == iou(b, a)` |
| `Geometry.IouZeroIff` | detector/person_detector.py:11-18 | the ratio is 0 exactly when the intersection width or height is clamped to 0 |
| `Geometry.IouDisjoint` | detector/person_detector.py:11-14 | boxes separated along an axis have IoU 0 |
| `Geometry.IouSelf` | detector/person_detector.py:15-18 | a box of area at least 1 has IoU with itself in `[1 - 1e-6, 1)` |
| `Detections.Trunc` | detector/person_detector.py:91 | `int(x)` truncates toward zero: within one of `x`, on the side of zero |
| `Detections.ToBox` | detector/person_detector.py:91 | bare definition: `[int(x) for x in xyxy]` through `Trunc` |
| `Detections.PersonsOf` | detector/person_detector.py:85-86 | the person list holds `(xyxy, score)` of class-0 detections only, and is empty exactly when no detection has class 0 |
| `Detections.PersonsOfExactly` | detector/person_detector.py:85-86 | the person list holds every class-0 detection, in the order of the model's output, and nothing else: entry `k` is the detection at the `k`-th class-0 position |
| `Detections.BestIndex` | detector/person_detector.py:90 | the chosen entry has the highest score, and every earlier entry scores strictly lower, so it is the first maximal one |
| `Detections.BestDetection` | detector/person_detector.py:85-91 | over the model's raw output: the tracked box is the truncated corners of a class-0 detection whose score no class-0 detection exceeds, and every earlier class-0 detection scores strictly lower |
| `Presence.MovedOrStale` | detector/person_detector.py:97-98 | bare definition: the IoU against the last box, `0.0` without one, is below `iou_same`, or `keepalive_s` has passed since the last emission |
| `Presence.Step` | detector/person_detector.py:89-118 | a frame emits only if it has a person |
| `Presence.ConsistentInitially` | detector/person_detector.py:41-42 | initially `had_person` is false and `last_bbox` is None |
| `Presence.StepKeepsConsistent` | detector/person_detector.py:94-118 | every frame keeps `had_person` true exactly when `last_bbox` is set, so the `else 0.0` of line 97 is never used |
| `Presence.NoPersonFrame` | detector/person_detector.py:116-118 | a frame without persons never emits, clears `had_person` and `last_bbox` and keeps `last_emit_ts` |
| `Presence.FirstAppearanceEmits` | detector/person_detector.py:94-95 | the first person frame after absence always emits, whatever the overlap |
| `Presence.PresentEmitsIff` | detector/person_detector.py:96-99 | while present, a frame emits if and only if IoU < `iou_same` or `now - last_emit_ts >= keepalive_s` |
| `Presence.PersonFrameUpdates` | detector/person_detector.py:101-115 | on a person frame `had_person` becomes true and `last_bbox` the chosen box whether or not it emits; `last_emit_ts` becomes `now` exactly when it emits |
| `Presence.PresenceNeverStale` | detector/person_detector.py:96-115 | after any person frame the last emission is less than `keepalive_s` ago (for a positive keepalive) |
| `Detector.ReadsPerCall` | detector/person_detector.py:53-56 | `_read` calls the backend `max(1, stride)` times: `stride - 1` discards plus one |
| `Detector.StridedGrab` | detector/person_detector.py:53-56 | bare definition: the grab `_read` returns is the `max(1, stride)`-th pending one, or no frame when fewer are pending |
| `Detector.Camera.Read` | detector/person_detector.py:54-56 | stands for `cam.read()`: the next pending grab, or no frame once none is pending; counts the call |
| `Detector.Camera.Release` | detector/person_detector.py:121-123 | stands for `cam.release()`: marks the camera released and changes nothing else |
| `Detector.MakeEvent` | detector/person_detector.py:105-113 | bare definition of the event dict; its fields are stated by `Detector.IterateEmits` and `Detector.IterateSnapshot` |
| `Detector.Iterate` | detector/person_detector.py:85-118 | bare definition of one processed frame; what it promises is stated by `Detector.IterateEmits`, `Detector.IterateSnapshot` and the Presence lemmas |
| `Detector.SnapshotPath` | detector/person_detector.py:62-65 | the returned relative path is never empty, so the `if snap_rel` of line 111 is taken exactly when a snapshot was taken |
| `Detector.Observations` | detector/person_detector.py:71-75 | a run processes at most one frame per iteration; failed reads are skipped |
| `Detector.Replay` | detector/person_detector.py:71-120 | a run emits at most one event per processed frame, and writes at most one snapshot per event |
| `Detector.IterateEmits` | detector/person_detector.py:103-113 | an event is emitted exactly when the presence decision says so, with the frame's time, camera id, tag `"webcam"`, chosen box, `person` None and id `"evt_" + hex` |
| `Detector.IterateSnapshot` | detector/person_detector.py:58-66 | a snapshot is taken only for an emitted event, exactly when `now - last_snap_ts >= snap_every_s`; it moves `last_snap_ts` to its time; the event's `snapshot_url` is `"/static/" + rel` exactly when one was taken |
| `Detector.ShotsSpaced` | detector/person_detector.py:58-66 | over a run, the first snapshot is at least `snap_every_s` after the start value of `last_snap_ts`, and each later one at least `snap_every_s` after the previous one |
| `Detector.ShotsAfter` | detector/person_detector.py:58-66 | for a non-negative `snap_every_s`, every snapshot of a run comes at least that long after the start value of `last_snap_ts` |
| `Detector.ShotsPairwiseSpaced` | detector/person_detector.py:58-66 | for a non-negative `snap_every_s`, no two snapshots of a run are less than `snap_every_s` apart |
| `Detector.ScenarioAppears` | detector/person_detector.py:89-95 | t=0: a fresh detector emits for the higher-scoring of two persons, without a snapshot (`last_snap_ts` 0 is not 3 s old) |
| `Detector.ScenarioStill` | detector/person_detector.py:96-101 | t=1: a box with IoU ~0.97 emits nothing, but `last_bbox` takes the new truncated box |
| `Detector.ScenarioKeepalive` | detector/person_detector.py:96-115 | t=5.1: the same box emits by keepalive, with a snapshot |
| `Detector.ScenarioLeaves` | detector/person_detector.py:116-118 | t=6: a frame with only a non-person detection resets the tracker and emits nothing |
| `Detector.ScenarioReappears` | detector/person_detector.py:94-95 | t=7: a new appearance emits, without a snapshot (the last one is 1.9 s old) |
| `Detector.ScenarioTrace` | detector/person_detector.py:85-118 | the whole five-frame run emits exactly the t=0, t=5.1 and t=7 events in order, and writes one snapshot |
| `Detector.PersonDetector.constructor` | detector/person_detector.py:39-45 | initial state: no person, no box, `last_emit_ts = last_snap_ts = 0`, `keepalive_s = 5`, `iou_same = 0.6` |
| `Detector.PersonDetector.ReadStrided` | detector/person_detector.py:53-56 | `_read` reads `max(1, stride)` grabs and returns only the last; the camera is left past them |
| `Detector.PersonDetector.MaybeSnapshot` | detector/person_detector.py:58-66 | when `now - last_snap_ts >= snap_every_s`: writes the frame, sets `last_snap_ts = now` and returns the path; otherwise returns None and changes nothing |
| `Detector.PersonDetector.HandleFrame` | detector/person_detector.py:85-118 | the loop body after a good read changes the state and produces the event and snapshot exactly as `Iterate` specifies |
| `Detector.PersonDetector.Iteration` | detector/person_detector.py:72-120 | one pass: a strided read, then either `Iterate` on the frame or no change when the read failed |
| `Detector.PersonDetector.Loop` | detector/person_detector.py:71-120 | after any number of iterations, the emitted events, the snapshots and the state are those `Replay` gives for the frames `Observations` reads |
| `Detector.PersonDetector.Run` | detector/person_detector.py:68-123 | an unopened camera produces nothing and is not released; otherwise the loop runs as `Loop` and the camera is released at the end |
| `Service.Get` | app/detector_service.py:57-63 | `dict.get`: a value exactly when the key is present, and then that key's value |
| `Service.DetectorService.constructor` | app/detector_service.py:8-13 | a new service is stopped with no task |
| `Service.DetectorService.AtMostOneLiveTask` | app/detector_service.py:15-31 | of all tasks ever started, only the one held may still be running; none while stopped |
| `Service.DetectorService.Start` | app/detector_service.py:15-21 | a no-op when running; otherwise a fresh task built from the current config, and `running` true |
| `Service.DetectorService.Stop` | app/detector_service.py:23-31 | as written: a held task that is not done is cancelled and awaited, and `stop` raises exactly then, keeping that task (now cancelled and done) and `running`; otherwise it ends with no task and not running; from the stopped state nothing changes |
| `Service.DetectorService.StopQuietly` | app/detector_service.py:23-31 | as evidently intended, the cancellation absorbed too: always ends with no task and not running, a live task having been cancelled and finished |
| `Service.DetectorService.Restart` | app/detector_service.py:33-35 | raises exactly when `stop` does, and then keeps the finished task with `running` true and starts nothing; otherwise ends running on a fresh task built from the current config |
| `Service.DetectorService.RestartQuietly` | app/detector_service.py:33-35 | over `StopQuietly`: always ends running on a fresh task built from the current config; the previous task has finished |
| `Service.DetectorService.SwitchSource` | app/detector_service.py:37-39 | only `camera["source"]` changes, also when the restart raises; without a raise the new task runs with the new source |
| `Service.DetectorService.UpdateParams` | app/detector_service.py:41-49 | each key overwrites an existing camera entry, else an existing yolo entry, else is ignored; no key added; camera keys win; other entries kept; also when the restart raises; without a raise the new task runs with the new config |
| `Service.DetectorService.Status` | app/detector_service.py:51-64 | read-only; `running` is the field, `camera_id` is `"cam01"`, and each of the seven config fields is the entry of that name in its section (`source`, `imgsz`, `conf`, `stride`, `max_fps` from camera; `device`, `model` from yolo), present exactly when the key is |
| `Service.LoopTask.Cancel` | app/detector_service.py:25 | `task.cancel()`: marks the task cancelled; it finishes later |
| `Service.LoopTask.Join` | app/detector_service.py:26-29 | `await task` on the loop: the task is done afterwards, and the exception escapes `except Exception` exactly when the task was cancelled |
| `Service.RestartWhileRunningStalls` | app/detector_service.py:15-35 | start, restart, start: the restart raises, the service reports running, and no loop is live |
| `Service.RestartQuietlyRuns` | app/detector_service.py:15-35 | the same run over `RestartQuietly` ends with a live loop behind a running service |
| `Broadcast.WSManager.constructor` | app/ws_manager.py:6-7 | no clients at first |
| `Broadcast.WSManager.Connect` | app/ws_manager.py:9-11 | after a successful handshake the socket is a client and the others are unchanged; a failed handshake changes nothing |
| `Broadcast.WSManager.Disconnect` | app/ws_manager.py:13-14 | removes the socket if present, leaves the others; idempotent |
| `Broadcast.WSManager.Broadcast` | app/ws_manager.py:17-26 | every client present at the start is sent to exactly once, whatever fails; afterwards the clients are the old ones minus exactly those whose send failed |

## Left out

- YOLO inference and OpenCV (`VideoCapture`, `imwrite`) are foreign libraries. Detection is a function parameter, the camera is a `Camera` object that replays grabs, and writing a snapshot is recorded as a `Snapshot` value.
- asyncio is not modelled: task scheduling, `asyncio.sleep` (lines 74 and 120), and interleaving with other coroutines. Control operations run one at a time, and the task's completion is the `LoopTask.Join` call.
- A set that changes size while `broadcast` iterates it (a `connect` during an `await`) raises in Python. This is concurrency, which is not modelled.
- `time.time()` and `uuid.uuid4()` are per-iteration inputs. Ids are not claimed unique: 8 hex characters are not.
- IEEE floating point is not modelled. Scores, timestamps and IoU are exact reals, and a NaN score is not represented.
- Exceptions that end `run` are not modelled: from the model, from `emit_async` (which would leave `last_emit_ts` unchanged) and from `imwrite`.
- `PersonDetector.__init__` config parsing (`isdigit`, `get` defaults, `mkdir`) is not modelled. The detector takes `stride` and `snap_every_s` already parsed. In `DetectorService.start`, a constructor that raises is not modelled.
- The WebSocket payload and the `print` after each send are left out. `Broadcast.WSManager.Broadcast` takes only the failure oracle.
- `Detector.PersonDetector.Run`: the source loops until cancelled. The model runs one iteration per given tick, then ends as a cancellation would.
- `Presence.PresenceNeverStale` assumes a positive keepalive; the source fixes it at 5.0.
- `Detector.ShotsAfter` and `Detector.ShotsPairwiseSpaced` assume `snap_every_s >= 0`. For a negative value only the consecutive spacing of `Detector.ShotsSpaced` holds.
- `_maybe_snapshot` writes to `paths.snapshot_dir / fn` (line 63) but returns `"snapshots/" + fn` (line 65). The URL is right only when that directory is the one served as `/static/snapshots`. `Snapshot.path` holds the returned relative path for both.
- app/snapshot_worker.py, app/api_min.py, app/models.py, app/db.py and client/ws_test.py are not part of this model. They are transport, persistence and test glue; the worker's max-score choice is the same as line 90.

## Findings

| source | as written | input that shows it | evidently intended | confidence | as-written member | corrected member |
|---|---|---|---|---|---|---|
| app/detector_service.py:23-31 | `except Exception` around `await self.task` does not catch the `asyncio.CancelledError` that a cancelled `run` task re-raises, so `stop` raises before clearing `task` and `running`; `restart` never reaches `start` | `start()`, then `restart()`, then `start()` | `stop` always ends with no task and `running` false, so that `restart` starts a new loop | not executed; high (CancelledError derives from BaseException since Python 3.8) | `Service.RestartWhileRunningStalls` | `Service.DetectorService.StopQuietly` |

