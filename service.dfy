/**
 * The lifecycle controller `DetectorService` (app/detector_service.py): it owns the
 * nested configuration (`cfg["camera"]`, `cfg["yolo"]`), at most one background task
 * running the detection loop, and the `running` flag.
 *
 * The asyncio task is an object with a `done` flag and a `cancelled` flag; the loop it
 * runs is the subject of module Detector and is not re-modelled here. The task keeps the
 * configuration it was started with, as `PersonDetector.__init__` reads it once.
 *
 * `stop` cancels a live task and awaits it under `except Exception`. The loop has no
 * handler for the cancellation, so the await re-raises `asyncio.CancelledError`, which
 * is a `BaseException` and passes through that handler. `stop` then raises before
 * lines 30-31, and `restart` raises before it reaches `start`. The methods below return
 * `raised` for this outcome. `StopQuietly` and `RestartQuietly` model the evidently
 * intended code that also absorbs the cancellation.
 */
module Service {
  import opened Wrappers

  /** A configuration value. */
  datatype Value = Int(i: int) | Num(r: real) | Text(s: string)

  /** A section of the configuration, such as `cfg["camera"]`. */
  type Section = map<string, Value>

  /** The task created by `asyncio.create_task(self.det.run(...))`. */
  class LoopTask {
    const camera: Section
    const yolo: Section
    const cameraId: string
    var done: bool
    var cancelled: bool

    constructor (camera: Section, yolo: Section, cameraId: string)
      ensures this.camera == camera && this.yolo == yolo && this.cameraId == cameraId
      ensures !done && !cancelled
    {
      this.camera := camera;
      this.yolo := yolo;
      this.cameraId := cameraId;
      done := false;
      cancelled := false;
    }

    /** `task.cancel()`: requests cancellation; the task finishes later. */
    method Cancel()
      modifies this
      ensures cancelled && done == old(done)
    {
      cancelled := true;
    }

    /**
     * `await task` on the detection loop. The loop never returns normally, so the await
     * raises once the task is done. A cancelled task raises `CancelledError`, which
     * `except Exception` does not catch (`escapes`); a task that was not cancelled ended
     * on an error of its own, which that handler catches.
     */
    method Join() returns (escapes: bool)
      modifies this
      ensures done && cancelled == old(cancelled)
      ensures escapes == cancelled
    {
      done := true;
      escapes := cancelled;
    }
  }

  /** The dict `status()` returns. */
  datatype StatusView = StatusView(
    running: bool, cameraId: string,
    source: Option<Value>, imgsz: Option<Value>, conf: Option<Value>, stride: Option<Value>, maxFps: Option<Value>,
    device: Option<Value>, model: Option<Value>)

  /** `d.get(k)`: the value under `k`, or `None` when there is none. */
  function Get(m: Section, k: string): (r: Option<Value>)
    ensures r.Some? <==> k in m
    ensures r.Some? ==> r.value == m[k]
  {
    if k in m then Some(m[k]) else None
  }

  class DetectorService {
    var camera: Section
    var yolo: Section
    const cameraId: string := "cam01"
    var task: LoopTask?
    var running: bool
    /** Every task this service has started. */
    ghost var launched: set<LoopTask>

    /**
     * `running` is set exactly when a task is held, and every task started earlier has
     * finished: at most one detection loop is live at any time.
     */
    ghost predicate Valid()
      reads this, launched
    {
      && (running <==> task != null)
      && (task != null ==> task in launched)
      && (forall t :: t in launched && t != task ==> t.done)
    }

    /** `__init__` (lines 8-13): stopped, no task. */
    constructor (camera: Section, yolo: Section)
      ensures Valid() && !running && task == null && launched == {}
      ensures this.camera == camera && this.yolo == yolo
    {
      this.camera := camera;
      this.yolo := yolo;
      task := null;
      running := false;
      launched := {};
    }

    /** The only task that may still be running is the one the service holds. */
    lemma AtMostOneLiveTask()
      requires Valid()
      ensures forall t :: t in launched && !t.done ==> t == task
      ensures !running ==> forall t :: t in launched ==> t.done
    {
    }

    /**
     * `start` (lines 15-21): nothing when already running; otherwise a new task built
     * from the current configuration, and `running` set.
     */
    method Start()
      requires Valid()
      modifies this
      ensures Valid() && running
      ensures camera == old(camera) && yolo == old(yolo)
      ensures old(running) ==> task == old(task) && launched == old(launched)
      ensures !old(running) ==>
        task != null && fresh(task) && !task.done && !task.cancelled &&
        task.camera == camera && task.yolo == yolo && task.cameraId == cameraId &&
        launched == old(launched) + {task}
    {
      if running {
        return;
      }
      var t := new LoopTask(camera, yolo, cameraId);
      task := t;
      launched := launched + {t};
      running := true;
    }

    /**
     * `stop` (lines 23-31) as written. A task that is already done is left alone, and
     * the service ends with no task and `running` false. A task that is not done is
     * cancelled and awaited; the await raises `CancelledError` past `except Exception`,
     * so `stop` raises with the cancelled, finished task still held and `running`
     * unchanged. From the stopped state nothing changes.
     */
    method Stop() returns (raised: bool)
      requires Valid()
      modifies this, task
      ensures Valid()
      ensures raised <==> old(task) != null && !old(task.done)
      ensures raised ==> task == old(task) && running && task.cancelled && task.done
      ensures !raised ==> task == null && !running
      ensures camera == old(camera) && yolo == old(yolo) && launched == old(launched)
      ensures old(task) != null && old(task.done) ==> old(task).cancelled == old(task.cancelled)
      ensures old(task) == null ==> unchanged(this)
    {
      raised := false;
      if task != null && !task.done {
        task.Cancel();
        raised := task.Join();
        if raised {
          return;
        }
      }
      task := null;
      running := false;
    }

    /**
     * `stop` as evidently intended: the cancellation is absorbed as well, so the
     * service always ends with no task and `running` false.
     */
    method StopQuietly()
      requires Valid()
      modifies this, task
      ensures Valid() && task == null && !running
      ensures camera == old(camera) && yolo == old(yolo) && launched == old(launched)
      ensures old(task) != null && !old(task.done) ==> old(task).cancelled && old(task).done
      ensures old(task) != null && old(task.done) ==> old(task).cancelled == old(task.cancelled)
      ensures old(task) == null ==> unchanged(this)
    {
      if task != null && !task.done {
        task.Cancel();
        var escapes := task.Join();
      }
      task := null;
      running := false;
    }

    /**
     * `restart` (lines 33-35) as written. When `stop` raises, `start` is never reached:
     * the cancelled task stays held, `running` stays true and no loop is live. Otherwise
     * the service ends running on a fresh task built from the current configuration.
     */
    method Restart() returns (raised: bool)
      requires Valid()
      modifies this, task
      ensures Valid() && running && task != null
      ensures raised <==> old(task) != null && !old(task.done)
      ensures raised ==> task == old(task) && task.done && task.cancelled && launched == old(launched)
      ensures !raised ==>
        fresh(task) && !task.done && task.camera == camera && task.yolo == yolo && task.cameraId == cameraId &&
        launched == old(launched) + {task}
      ensures camera == old(camera) && yolo == old(yolo)
      ensures old(task) != null ==> old(task).done
    {
      raised := Stop();
      if !raised {
        Start();
      }
    }

    /**
     * `restart` over `StopQuietly`: always ends running, on a fresh task built from the
     * current configuration; the previous task, if any, has finished.
     */
    method RestartQuietly()
      requires Valid()
      modifies this, task
      ensures Valid() && running && task != null && fresh(task) && !task.done
      ensures task.camera == camera && task.yolo == yolo && task.cameraId == cameraId
      ensures camera == old(camera) && yolo == old(yolo)
      ensures launched == old(launched) + {task}
      ensures old(task) != null ==> old(task).done
      ensures old(task) != null && !old(task.done) ==> old(task).cancelled
    {
      StopQuietly();
      Start();
    }

    /**
     * `switch_source` (lines 37-39): only `camera["source"]` changes, then a restart
     * picks it up; when that restart raises, the new source is stored but no loop runs.
     */
    method SwitchSource(source: Value) returns (raised: bool)
      requires Valid()
      modifies this, task
      ensures camera == old(camera)[ "source" := source] && yolo == old(yolo)
      ensures Valid() && running && task != null
      ensures raised <==> old(task) != null && !old(task.done)
      ensures raised ==> task == old(task) && task.done && launched == old(launched)
      ensures !raised ==> fresh(task) && !task.done && task.camera == camera && task.yolo == yolo
      ensures !raised ==> "source" in task.camera && task.camera["source"] == source
      ensures old(task) != null ==> old(task).done
    {
      camera := camera["source" := source];
      raised := Restart();
    }

    /**
     * `update_params` (lines 41-49): each given key overwrites the camera entry of that
     * name if there is one, else the yolo entry if there is one, else is ignored. No key
     * is added, camera keys take precedence, other entries keep their values, and a
     * restart picks the new configuration up; when that restart raises, the new
     * configuration is stored but no loop runs.
     */
    method UpdateParams(kw: map<string, Value>) returns (raised: bool)
      requires Valid()
      modifies this, task
      ensures camera.Keys == old(camera).Keys && yolo.Keys == old(yolo).Keys
      ensures forall k :: k in camera ==> camera[k] == if k in kw then kw[k] else old(camera)[k]
      ensures forall k :: k in yolo ==> yolo[k] == if k in kw && k !in old(camera) then kw[k] else old(yolo)[k]
      ensures Valid() && running && task != null
      ensures raised <==> old(task) != null && !old(task.done)
      ensures raised ==> task == old(task) && task.done && launched == old(launched)
      ensures !raised ==> fresh(task) && !task.done && task.camera == camera && task.yolo == yolo
      ensures old(task) != null ==> old(task).done
    {
      var todo := kw.Keys;
      while todo != {}
        modifies this
        invariant todo <= kw.Keys
        invariant camera.Keys == old(camera).Keys && yolo.Keys == old(yolo).Keys
        invariant forall k :: k in camera ==> camera[k] == if k in kw && k !in todo then kw[k] else old(camera)[k]
        invariant forall k :: k in yolo ==>
          yolo[k] == if k in kw && k !in todo && k !in old(camera) then kw[k] else old(yolo)[k]
        invariant task == old(task) && running == old(running) && launched == old(launched)
        decreases todo
      {
        var k :| k in todo;
        if k in camera {
          camera := camera[k := kw[k]];
        } else if k in yolo {
          yolo := yolo[k := kw[k]];
        }
        todo := todo - {k};
      }
      raised := Restart();
    }

    /**
     * `status` (lines 51-64): reads the state without changing it. `running` is the flag
     * and the camera id is always "cam01"; each config field is the entry of that name,
     * or `None` when the section has none.
     */
    function Status(): (r: StatusView)
      reads this
      ensures r.running == running && r.cameraId == "cam01"
      ensures r.source.Some? <==> "source" in camera
      ensures r.source.Some? ==> r.source.value == camera["source"]
      ensures r.imgsz.Some? <==> "imgsz" in camera
      ensures r.imgsz.Some? ==> r.imgsz.value == camera["imgsz"]
      ensures r.conf.Some? <==> "conf" in camera
      ensures r.conf.Some? ==> r.conf.value == camera["conf"]
      ensures r.stride.Some? <==> "stride" in camera
      ensures r.stride.Some? ==> r.stride.value == camera["stride"]
      ensures r.maxFps.Some? <==> "max_fps" in camera
      ensures r.maxFps.Some? ==> r.maxFps.value == camera["max_fps"]
      ensures r.device.Some? <==> "device" in yolo
      ensures r.device.Some? ==> r.device.value == yolo["device"]
      ensures r.model.Some? <==> "model" in yolo
      ensures r.model.Some? ==> r.model.value == yolo["model"]
    {
      StatusView(running, cameraId,
             Get(camera, "source"), Get(camera, "imgsz"), Get(camera, "conf"), Get(camera, "stride"),
             Get(camera, "max_fps"), Get(yolo, "device"), Get(yolo, "model"))
    }
  }

  /**
   * The discrepancy of `stop` on a concrete run: start a service, then restart it. The
   * restart raises, the service still reports running, and no detection loop is live;
   * a following `start` does nothing, so none is started either.
   */
  method RestartWhileRunningStalls() returns (raised: bool, reportsRunning: bool, loopLive: bool)
    ensures raised && reportsRunning && !loopLive
  {
    var svc := new DetectorService(map[], map[]);
    svc.Start();
    raised := svc.Restart();
    svc.Start();
    reportsRunning := svc.Status().running;
    loopLive := svc.task != null && !svc.task.done;
  }

  /** The same run over `RestartQuietly` leaves a live loop behind a running service. */
  method RestartQuietlyRuns() returns (reportsRunning: bool, loopLive: bool)
    ensures reportsRunning && loopLive
  {
    var svc := new DetectorService(map[], map[]);
    svc.Start();
    svc.RestartQuietly();
    reportsRunning := svc.Status().running;
    loopLive := svc.task != null && !svc.task.done;
  }
}
