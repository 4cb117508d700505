/**
 * The detection loop of `PersonDetector` (detector/person_detector.py): strided camera
 * reads (`_read`), the snapshot rate limiter (`_maybe_snapshot`), event assembly and
 * the `run` loop that ties them to the presence decision of module Presence.
 *
 * The camera, the detection model, the clock and the id generator are inputs: the
 * camera is a `Camera` object that replays a list of grabs, the model is a function
 * from images to detections, and each loop iteration receives a `Tick` carrying the two
 * clock readings and the two random hex strings the iteration would draw.
 */
module Detector {
  import opened Wrappers
  import opened Geometry
  import opened Detections
  import opened Presence

  /** A raw camera image. */
  type Image = seq<bv8>

  /** The pair `(ok, frame)` returned by the camera's `read()`. */
  datatype Grab = Grabbed(frame: Image) | NoFrame

  /** Outside inputs of one loop iteration: `time.time()` at line 88 and at line 59, and the hex ids of lines 106 and 62. */
  datatype Tick = Tick(now: real, snapNow: real, evtHex: string, snapHex: string)

  /** A snapshot written to disk: its relative path, the time it was taken and the image. */
  datatype Snapshot = Snapshot(path: string, at: real, image: Image)

  /** The event dict assembled at lines 105-113. `person` is always `None`. */
  datatype Event = Event(
    id: string, ts: real, cameraId: string, source: string, bbox: Box,
    snapshotUrl: Option<string>, person: Option<string>)

  /** The detector's configuration as used by the loop. */
  datatype Params = Params(stride: int, snapEveryS: real, th: Thresholds)

  /** All mutable state of the detector: the tracker fields and `last_snap_ts`. */
  datatype DetState = DetState(tracker: Tracker, lastSnapTs: real)

  /** A frame the loop actually processes: the image, the model's detections on it, and the iteration's tick. */
  datatype Observation = Observation(image: Image, dets: seq<Detection>, tick: Tick)

  datatype FrameOutcome = FrameOutcome(next: DetState, event: Option<Event>, shot: Option<Snapshot>)

  datatype RunOutcome = RunOutcome(final: DetState, events: seq<Event>, shots: seq<Snapshot>)

  /** The camera backend. `pending` is what its successive `read()` calls will return. */
  class Camera {
    const isOpened: bool
    var pending: seq<Grab>
    var readCount: nat
    var released: bool

    constructor (isOpened: bool, feed: seq<Grab>)
      ensures this.isOpened == isOpened && pending == feed && readCount == 0 && !released
    {
      this.isOpened := isOpened;
      pending := feed;
      readCount := 0;
      released := false;
    }

    /** `cam.read()`: the next grab, or no frame once the stream is exhausted. */
    method Read() returns (g: Grab)
      modifies this
      ensures g == (if old(pending) == [] then NoFrame else old(pending)[0])
      ensures pending == (if old(pending) == [] then [] else old(pending)[1..])
      ensures readCount == old(readCount) + 1 && released == old(released)
    {
      if pending == [] {
        g := NoFrame;
      } else {
        g, pending := pending[0], pending[1..];
      }
      readCount := readCount + 1;
    }

    /** `cam.release()`. */
    method Release()
      modifies this
      ensures released && pending == old(pending) && readCount == old(readCount)
    {
      released := true;
    }
  }

  /** How many times `_read` calls the backend: `stride - 1` discards plus one, at least once. */
  function ReadsPerCall(stride: int): (n: nat)
    ensures n >= 1 && n - 1 == Geometry.Max(0, stride - 1)
  {
    if stride > 1 then stride else 1
  }

  /** The grabs left after `n` reads. */
  function Drop(s: seq<Grab>, n: nat): seq<Grab>
  {
    if n <= |s| then s[n..] else []
  }

  /** The grab `_read` returns: the last of its reads. */
  function StridedGrab(pending: seq<Grab>, stride: int): Grab
  {
    var n := ReadsPerCall(stride);
    if n <= |pending| then pending[n - 1] else NoFrame
  }

  /** The relative path `_maybe_snapshot` returns for a snapshot named with `hex`. */
  function SnapshotPath(hex: string): (path: string)
    ensures |path| > 0
  {
    "snapshots/person_" + hex + ".jpg"
  }

  /** The condition of line 60. */
  predicate SnapshotDue(lastSnapTs: real, now: real, snapEveryS: real)
  {
    now - lastSnapTs >= snapEveryS
  }

  /** Lines 105-113: the event dict. `snapshot_url` is set when `snap_rel` is a non-empty string. */
  function MakeEvent(hex: string, now: real, cameraId: string, box: Box, rel: Option<string>): Event
  {
    Event("evt_" + hex, now, cameraId, "webcam", box,
          if rel.Some? && rel.value != "" then Some("/static/" + rel.value) else None,
          None)
  }

  function OptionToSeq<T>(o: Option<T>): seq<T>
  {
    if o.Some? then [o.value] else []
  }

  /** One processed frame: the decision of lines 85-118 followed by the snapshot and the event on emission. */
  function Iterate(p: Params, s: DetState, ob: Observation, cameraId: string): FrameOutcome
  {
    var persons := PersonsOf(ob.dets);
    var d := Step(s.tracker, persons, ob.tick.now, p.th);
    if !d.emit then
      FrameOutcome(DetState(d.next, s.lastSnapTs), None, None)
    else
      var due := SnapshotDue(s.lastSnapTs, ob.tick.snapNow, p.snapEveryS);
      var rel := if due then Some(SnapshotPath(ob.tick.snapHex)) else None;
      FrameOutcome(
        DetState(d.next, if due then ob.tick.snapNow else s.lastSnapTs),
        Some(MakeEvent(ob.tick.evtHex, ob.tick.now, cameraId, BestBox(persons), rel)),
        if due then Some(Snapshot(rel.value, ob.tick.snapNow, ob.image)) else None)
  }

  /** The frames a run processes: one strided read per tick, skipping iterations whose read failed. */
  function Observations(pending: seq<Grab>, stride: int, detect: Image -> seq<Detection>, ticks: seq<Tick>): (obs: seq<Observation>)
    ensures |obs| <= |ticks|
    decreases |ticks|
  {
    if ticks == [] then []
    else
      var g := StridedGrab(pending, stride);
      var more := Observations(Drop(pending, ReadsPerCall(stride)), stride, detect, ticks[1..]);
      if g.Grabbed? then [Observation(g.frame, detect(g.frame), ticks[0])] + more else more
  }

  /** The emitted events and written snapshots of a sequence of processed frames, in order. */
  function Replay(p: Params, s: DetState, obs: seq<Observation>, cameraId: string): (r: RunOutcome)
    ensures |r.shots| <= |r.events| <= |obs|
    decreases |obs|
  {
    if obs == [] then RunOutcome(s, [], [])
    else
      var o := Iterate(p, s, obs[0], cameraId);
      var r := Replay(p, o.next, obs[1..], cameraId);
      RunOutcome(r.final, OptionToSeq(o.event) + r.events, OptionToSeq(o.shot) + r.shots)
  }

  /**
   * What one pass of the loop body does to the state, given the grabs pending before it:
   * on a frame, exactly the step of `Iterate`; on a failed read, nothing.
   */
  ghost predicate Advanced(p: Params, s0: DetState, pending: seq<Grab>, detect: Image -> seq<Detection>, tick: Tick,
                           cameraId: string, s1: DetState, evt: Option<Event>, shot: Option<Snapshot>)
  {
    var g := StridedGrab(pending, p.stride);
    if g.Grabbed? then
      FrameOutcome(s1, evt, shot) == Iterate(p, s0, Observation(g.frame, detect(g.frame), tick), cameraId)
    else
      s1 == s0 && evt == None && shot == None
  }

  /** The events and snapshots produced so far, followed by those of the remaining ticks, are those of the whole run. */
  ghost predicate Continues(total: RunOutcome, events: seq<Event>, shots: seq<Snapshot>, p: Params, s: DetState,
                            pending: seq<Grab>, detect: Image -> seq<Detection>, todo: seq<Tick>, cameraId: string)
  {
    var r := Replay(p, s, Observations(pending, p.stride, detect, todo), cameraId);
    total.events == events + r.events && total.shots == shots + r.shots && total.final == r.final
  }

  /**
   * Regrouping a concatenation. Stated as a lemma so that `ContinuesStep` receives the
   * two instances it needs as plain facts: written as assertions there, the regrouping
   * sends the solver past its resource limit.
   */
  lemma AppendAssoc<T>(a: seq<T>, b: seq<T>, c: seq<T>)
    ensures a + (b + c) == (a + b) + c
  {
  }

  /** One pass of the loop body keeps `Continues`. */
  lemma ContinuesStep(total: RunOutcome, events: seq<Event>, shots: seq<Snapshot>, p: Params, s0: DetState,
                      pending: seq<Grab>, detect: Image -> seq<Detection>, todo: seq<Tick>, cameraId: string,
                      s1: DetState, evt: Option<Event>, shot: Option<Snapshot>)
    requires todo != []
    requires Continues(total, events, shots, p, s0, pending, detect, todo, cameraId)
    requires Advanced(p, s0, pending, detect, todo[0], cameraId, s1, evt, shot)
    ensures Continues(total, events + OptionToSeq(evt), shots + OptionToSeq(shot), p, s1,
                      Drop(pending, ReadsPerCall(p.stride)), detect, todo[1..], cameraId)
  {
    var later := Observations(Drop(pending, ReadsPerCall(p.stride)), p.stride, detect, todo[1..]);
    var r := Replay(p, s1, later, cameraId);
    var whole := Replay(p, s0, Observations(pending, p.stride, detect, todo), cameraId);
    var g := StridedGrab(pending, p.stride);
    ObservationsCons(pending, p.stride, detect, todo);
    if g.Grabbed? {
      ReplayCons(p, s0, Observation(g.frame, detect(g.frame), todo[0]), later, cameraId, s1, evt, shot);
    } else {
      assert whole == r;
    }
    assert whole == RunOutcome(r.final, OptionToSeq(evt) + r.events, OptionToSeq(shot) + r.shots);
    AppendAssoc(events, OptionToSeq(evt), r.events);
    AppendAssoc(shots, OptionToSeq(shot), r.shots);
  }

  /** With no ticks left, the events and snapshots produced so far are those of the whole run. */
  lemma ContinuesDone(total: RunOutcome, events: seq<Event>, shots: seq<Snapshot>, p: Params, s: DetState,
                      pending: seq<Grab>, detect: Image -> seq<Detection>, todo: seq<Tick>, cameraId: string)
    requires todo == [] && Continues(total, events, shots, p, s, pending, detect, todo, cameraId)
    ensures total == RunOutcome(s, events, shots)
  {
    assert events + [] == events && shots + [] == shots;
  }

  /** The frames of a run: the first strided read's frame, if any, then those of the remaining ticks. */
  lemma ObservationsCons(pending: seq<Grab>, stride: int, detect: Image -> seq<Detection>, ticks: seq<Tick>)
    requires ticks != []
    ensures var g := StridedGrab(pending, stride);
      var later := Observations(Drop(pending, ReadsPerCall(stride)), stride, detect, ticks[1..]);
      Observations(pending, stride, detect, ticks)
        == if g.Grabbed? then [Observation(g.frame, detect(g.frame), ticks[0])] + later else later
  {
  }

  /** Replaying a processed frame and then the rest is its step followed by the rest's replay. */
  lemma ReplayCons(p: Params, s0: DetState, ob: Observation, later: seq<Observation>, cameraId: string,
                   s1: DetState, evt: Option<Event>, shot: Option<Snapshot>)
    requires FrameOutcome(s1, evt, shot) == Iterate(p, s0, ob, cameraId)
    ensures var r := Replay(p, s1, later, cameraId);
      Replay(p, s0, [ob] + later, cameraId) == RunOutcome(r.final, OptionToSeq(evt) + r.events, OptionToSeq(shot) + r.shots)
  {
    assert ([ob] + later)[0] == ob && ([ob] + later)[1..] == later;
  }

  /**
   * The event of an emitting frame (lines 103-113): it is emitted exactly when the
   * presence decision says so, and carries the frame's time, the camera id, the tag
   * `"webcam"`, the chosen box and an id made from the drawn hex string.
   */
  lemma IterateEmits(p: Params, s: DetState, ob: Observation, cameraId: string)
    ensures
      var o := Iterate(p, s, ob, cameraId);
      var persons := PersonsOf(ob.dets);
      var d := Step(s.tracker, persons, ob.tick.now, p.th);
      o.next.tracker == d.next && (o.event.Some? <==> d.emit) &&
      (o.event.Some? ==>
        persons != [] && o.event.value.bbox == BestBox(persons) && o.event.value.ts == ob.tick.now &&
        o.event.value.id == "evt_" + ob.tick.evtHex && o.event.value.cameraId == cameraId &&
        o.event.value.source == "webcam" && o.event.value.person == None)
  {
  }

  /**
   * Snapshots (lines 58-66, 103-104, 111): one is taken only for an emitted event, only
   * when `snap_every_s` has passed since `last_snap_ts`, and then it moves `last_snap_ts`
   * to its time; the event's `snapshot_url` is `"/static/" + rel` exactly when one was taken.
   */
  lemma IterateSnapshot(p: Params, s: DetState, ob: Observation, cameraId: string)
    ensures
      var o := Iterate(p, s, ob, cameraId);
      (o.shot.Some? ==>
        o.event.Some? && o.shot.value == Snapshot(SnapshotPath(ob.tick.snapHex), ob.tick.snapNow, ob.image) &&
        ob.tick.snapNow - s.lastSnapTs >= p.snapEveryS && o.next.lastSnapTs == ob.tick.snapNow) &&
      (o.event.Some? && SnapshotDue(s.lastSnapTs, ob.tick.snapNow, p.snapEveryS) ==> o.shot.Some?) &&
      (o.shot.None? ==> o.next.lastSnapTs == s.lastSnapTs) &&
      (o.event.Some? ==>
        o.event.value.snapshotUrl == if o.shot.Some? then Some("/static/" + o.shot.value.path) else None)
  {
  }

  /**
   * The rate limit over a whole run: the first snapshot comes at least `snap_every_s`
   * after the starting `last_snap_ts`, and each later one at least `snap_every_s` after
   * the one before it.
   */
  lemma {:induction false} ShotsSpaced(p: Params, s: DetState, obs: seq<Observation>, cameraId: string)
    ensures
      var shots := Replay(p, s, obs, cameraId).shots;
      (shots != [] ==> shots[0].at - s.lastSnapTs >= p.snapEveryS) &&
      (forall i :: 0 < i < |shots| ==> shots[i].at - shots[i - 1].at >= p.snapEveryS)
    decreases |obs|
  {
    if obs != [] {
      var o := Iterate(p, s, obs[0], cameraId);
      IterateSnapshot(p, s, obs[0], cameraId);
      ShotsSpaced(p, o.next, obs[1..], cameraId);
      var rest := Replay(p, o.next, obs[1..], cameraId).shots;
      assert Replay(p, s, obs, cameraId).shots == OptionToSeq(o.shot) + rest;
      if o.shot.Some? {
        var shots := [o.shot.value] + rest;
        forall i | 0 < i < |shots|
          ensures shots[i].at - shots[i - 1].at >= p.snapEveryS
        {
          assert shots[i] == rest[i - 1];
          if i > 1 {
            assert shots[i - 1] == rest[i - 2];
          }
        }
      }
    }
  }

  /** When `snap_every_s` is not negative, every snapshot of a run comes at least that long after the starting `last_snap_ts`. */
  lemma {:induction false} ShotsAfter(p: Params, s: DetState, obs: seq<Observation>, cameraId: string, k: nat)
    requires p.snapEveryS >= 0.0
    requires k < |Replay(p, s, obs, cameraId).shots|
    ensures Replay(p, s, obs, cameraId).shots[k].at - s.lastSnapTs >= p.snapEveryS
    decreases |obs|
  {
    var o := Iterate(p, s, obs[0], cameraId);
    IterateSnapshot(p, s, obs[0], cameraId);
    var rest := Replay(p, o.next, obs[1..], cameraId).shots;
    assert Replay(p, s, obs, cameraId).shots == OptionToSeq(o.shot) + rest;
    if o.shot.Some? {
      if k > 0 {
        ShotsAfter(p, o.next, obs[1..], cameraId, k - 1);
      }
    } else {
      ShotsAfter(p, o.next, obs[1..], cameraId, k);
    }
  }

  /** When `snap_every_s` is not negative, no two snapshots of a run are less than `snap_every_s` apart. */
  lemma {:induction false} ShotsPairwiseSpaced(p: Params, s: DetState, obs: seq<Observation>, cameraId: string, i: nat, j: nat)
    requires p.snapEveryS >= 0.0
    requires i < j < |Replay(p, s, obs, cameraId).shots|
    ensures
      var shots := Replay(p, s, obs, cameraId).shots;
      shots[j].at - shots[i].at >= p.snapEveryS
    decreases |obs|
  {
    var o := Iterate(p, s, obs[0], cameraId);
    IterateSnapshot(p, s, obs[0], cameraId);
    var rest := Replay(p, o.next, obs[1..], cameraId).shots;
    var shots := Replay(p, s, obs, cameraId).shots;
    assert shots == OptionToSeq(o.shot) + rest;
    if o.shot.Some? {
      assert shots[j] == rest[j - 1];
      if i == 0 {
        assert shots[0].at == o.next.lastSnapTs;
        ShotsAfter(p, o.next, obs[1..], cameraId, j - 1);
      } else {
        assert shots[i] == rest[i - 1];
        ShotsPairwiseSpaced(p, o.next, obs[1..], cameraId, i - 1, j - 1);
      }
    } else {
      assert shots == rest;
      ShotsPairwiseSpaced(p, o.next, obs[1..], cameraId, i, j);
    }
  }


  /** A person detection with the given corners and score. */
  function PersonAt(x1: real, y1: real, x2: real, y2: real, score: real): Detection
  {
    Detection(RawBox(x1, y1, x2, y2), score, PersonClass)
  }

  /** The configuration of the scenario below: stride 1, `snap_every_s` = 3 and the default thresholds. */
  const ScenarioParams: Params := Params(1, 3.0, Defaults)

  /**
   * Five processed frames at t = 0, 1, 5.1, 6 and 7 seconds: a person appears, stays
   * almost still, stays still past the keepalive, leaves (only a chair, class 56, is
   * seen) and a person appears elsewhere. The first frame also holds a weaker person.
   */
  function ScenarioFrame(t: nat): Observation
    requires t < 5
  {
    match t
    case 0 => Observation([], [PersonAt(100.0, 120.0, 260.0, 420.0, 0.9), PersonAt(0.0, 0.0, 20.0, 20.0, 0.3)], Tick(0.0, 0.0, "e0", "s0"))
    case 1 => Observation([], [PersonAt(102.4, 121.0, 259.9, 419.0, 0.8)], Tick(1.0, 1.0, "e1", "s1"))
    case 2 => Observation([], [PersonAt(102.0, 121.0, 259.0, 419.0, 0.8)], Tick(5.1, 5.1, "e2", "s2"))
    case 3 => Observation([], [Detection(RawBox(5.0, 5.0, 9.0, 9.0), 0.7, 56)], Tick(6.0, 6.0, "e3", "s3"))
    case 4 => Observation([], [PersonAt(10.0, 10.0, 50.0, 50.0, 0.6)], Tick(7.0, 7.0, "e4", "s4"))
  }

  const BoxA: Box := Box(100, 120, 260, 420)
  const BoxB: Box := Box(102, 121, 259, 419)
  const BoxC: Box := Box(10, 10, 50, 50)

  lemma ScenarioAppears()
    ensures Iterate(ScenarioParams, DetState(Initial, 0.0), ScenarioFrame(0), "cam01")
      == FrameOutcome(DetState(Tracker(true, Some(BoxA), 0.0), 0.0),
                      Some(Event("evt_e0", 0.0, "cam01", "webcam", BoxA, None, None)), None)
  {
    var ps := PersonsOf(ScenarioFrame(0).dets);
    assert ps == [Person(RawBox(100.0, 120.0, 260.0, 420.0), 0.9), Person(RawBox(0.0, 0.0, 20.0, 20.0), 0.3)];
    assert BestIndex(ps) == 0;
    assert BestBox(ps) == BoxA;
    assert "evt_" + "e0" == "evt_e0";
  }

  lemma ScenarioStill()
    ensures Iterate(ScenarioParams, DetState(Tracker(true, Some(BoxA), 0.0), 0.0), ScenarioFrame(1), "cam01")
      == FrameOutcome(DetState(Tracker(true, Some(BoxB), 0.0), 0.0), None, None)
  {
    var ps := PersonsOf(ScenarioFrame(1).dets);
    assert ps == [Person(RawBox(102.4, 121.0, 259.9, 419.0), 0.8)];
    assert Trunc(102.4) == 102 && Trunc(259.9) == 259;
    assert BestBox(ps) == BoxB;
    assert Inter(BoxB, BoxA) == 46786 && Area(BoxB) == 46786 && Area(BoxA) == 48000;
    assert Iou(BoxB, BoxA) >= 0.6;
  }

  lemma ScenarioKeepalive()
    ensures Iterate(ScenarioParams, DetState(Tracker(true, Some(BoxB), 0.0), 0.0), ScenarioFrame(2), "cam01")
      == FrameOutcome(DetState(Tracker(true, Some(BoxB), 5.1), 5.1),
                      Some(Event("evt_e2", 5.1, "cam01", "webcam", BoxB, Some("/static/snapshots/person_s2.jpg"), None)),
                      Some(Snapshot("snapshots/person_s2.jpg", 5.1, [])))
  {
    var ps := PersonsOf(ScenarioFrame(2).dets);
    assert ps == [Person(RawBox(102.0, 121.0, 259.0, 419.0), 0.8)];
    assert BestBox(ps) == BoxB;
    assert SnapshotPath("s2") == "snapshots/person_s2.jpg";
    assert "/static/" + "snapshots/person_s2.jpg" == "/static/snapshots/person_s2.jpg";
    assert "evt_" + "e2" == "evt_e2";
  }

  lemma ScenarioLeaves()
    ensures Iterate(ScenarioParams, DetState(Tracker(true, Some(BoxB), 5.1), 5.1), ScenarioFrame(3), "cam01")
      == FrameOutcome(DetState(Tracker(false, None, 5.1), 5.1), None, None)
  {
    assert PersonsOf(ScenarioFrame(3).dets) == [];
  }

  lemma ScenarioReappears()
    ensures Iterate(ScenarioParams, DetState(Tracker(false, None, 5.1), 5.1), ScenarioFrame(4), "cam01")
      == FrameOutcome(DetState(Tracker(true, Some(BoxC), 7.0), 5.1),
                      Some(Event("evt_e4", 7.0, "cam01", "webcam", BoxC, None, None)), None)
  {
    var ps := PersonsOf(ScenarioFrame(4).dets);
    assert ps == [Person(RawBox(10.0, 10.0, 50.0, 50.0), 0.6)];
    assert BestBox(ps) == BoxC;
    assert "evt_" + "e4" == "evt_e4";
  }

  /**
   * With the default thresholds (0.6, 5 s) and `snap_every_s` = 3 from a fresh detector,
   * exactly three events are emitted: the appearance at t = 0, the keepalive at t = 5.1
   * and the new appearance at t = 7. Only the t = 5.1 event has a snapshot: at t = 0 the
   * initial `last_snap_ts` of 0 is not yet 3 seconds old, and at t = 7 the t = 5.1
   * snapshot is.
   */
  lemma ScenarioTrace()
    ensures
      var frames := [ScenarioFrame(0), ScenarioFrame(1), ScenarioFrame(2), ScenarioFrame(3), ScenarioFrame(4)];
      var r := Replay(ScenarioParams, DetState(Initial, 0.0), frames, "cam01");
      r.events == [Event("evt_e0", 0.0, "cam01", "webcam", BoxA, None, None),
                   Event("evt_e2", 5.1, "cam01", "webcam", BoxB, Some("/static/snapshots/person_s2.jpg"), None),
                   Event("evt_e4", 7.0, "cam01", "webcam", BoxC, None, None)] &&
      r.shots == [Snapshot("snapshots/person_s2.jpg", 5.1, [])]
  {
    var f := [ScenarioFrame(0), ScenarioFrame(1), ScenarioFrame(2), ScenarioFrame(3), ScenarioFrame(4)];
    ScenarioAppears();
    ScenarioStill();
    ScenarioKeepalive();
    ScenarioLeaves();
    ScenarioReappears();
    assert f[1..] == [ScenarioFrame(1), ScenarioFrame(2), ScenarioFrame(3), ScenarioFrame(4)];
    assert f[1..][1..] == [ScenarioFrame(2), ScenarioFrame(3), ScenarioFrame(4)];
    assert f[1..][1..][1..] == [ScenarioFrame(3), ScenarioFrame(4)];
    assert f[1..][1..][1..][1..] == [ScenarioFrame(4)];
    assert f[1..][1..][1..][1..][1..] == [];
  }

  class PersonDetector {
    const cam: Camera
    const stride: int
    const snapEveryS: real
    const keepaliveS: real
    const iouSame: real

    var lastSnapTs: real
    var hadPerson: bool
    var lastBbox: Option<Box>
    var lastEmitTs: real

    /** The state `__init__` sets up (lines 39-45); the configuration is taken already parsed. */
    constructor (cam: Camera, stride: int, snapEveryS: real)
      ensures this.cam == cam && Settings() == Params(stride, snapEveryS, Defaults)
      ensures State() == DetState(Initial, 0.0)
    {
      this.cam := cam;
      this.stride := stride;
      this.snapEveryS := snapEveryS;
      keepaliveS := 5.0;
      iouSame := 0.6;
      lastSnapTs := 0.0;
      hadPerson := false;
      lastBbox := None;
      lastEmitTs := 0.0;
    }

    function Settings(): Params
    {
      Params(stride, snapEveryS, Thresholds(iouSame, keepaliveS))
    }

    function State(): DetState
      reads this
    {
      DetState(Tracker(hadPerson, lastBbox, lastEmitTs), lastSnapTs)
    }

    /** `_read` (lines 53-56): `stride - 1` discarded reads, then the read whose result is returned. */
    method ReadStrided() returns (g: Grab)
      modifies cam
      ensures g == StridedGrab(old(cam.pending), stride)
      ensures cam.pending == Drop(old(cam.pending), ReadsPerCall(stride))
      ensures cam.readCount == old(cam.readCount) + ReadsPerCall(stride)
      ensures cam.released == old(cam.released)
    {
      var i := 0;
      while i < stride - 1
        invariant 0 <= i <= ReadsPerCall(stride) - 1
        invariant cam.pending == Drop(old(cam.pending), i)
        invariant cam.readCount == old(cam.readCount) + i
        invariant cam.released == old(cam.released)
      {
        var discarded := cam.Read();
        i := i + 1;
      }
      g := cam.Read();
    }

    /**
     * `_maybe_snapshot` (lines 58-66): when at least `snap_every_s` has passed since the
     * last snapshot, write the frame, remember the time and return the relative path.
     */
    method MaybeSnapshot(frame: Image, now: real, hex: string) returns (rel: Option<string>, written: Option<Snapshot>)
      modifies this`lastSnapTs
      ensures SnapshotDue(old(lastSnapTs), now, snapEveryS) ==>
        lastSnapTs == now && rel == Some(SnapshotPath(hex)) && written == Some(Snapshot(rel.value, now, frame))
      ensures !SnapshotDue(old(lastSnapTs), now, snapEveryS) ==>
        lastSnapTs == old(lastSnapTs) && rel == None && written == None
    {
      if now - lastSnapTs >= snapEveryS {
        lastSnapTs := now;
        var path := SnapshotPath(hex);
        written := Some(Snapshot(path, now, frame));
        return Some(path), written;
      }
      return None, None;
    }

    /** The loop body after a successful read (lines 85-118). */
    method HandleFrame(frame: Image, dets: seq<Detection>, tick: Tick, cameraId: string)
      returns (evt: Option<Event>, shot: Option<Snapshot>)
      modifies this
      ensures FrameOutcome(State(), evt, shot) == Iterate(Settings(), old(State()), Observation(frame, dets, tick), cameraId)
    {
      var persons := PersonsOf(dets);
      var now := tick.now;
      evt, shot := None, None;
      if persons != [] {
        var xyxy := BestBox(persons);
        var shouldEmit := false;
        if !hadPerson {
          shouldEmit := true;
        } else {
          var iou := if lastBbox.Some? then Iou(xyxy, lastBbox.value) else 0.0;
          if iou < iouSame || now - lastEmitTs >= keepaliveS {
            shouldEmit := true;
          }
        }
        hadPerson, lastBbox := true, Some(xyxy);
        if shouldEmit {
          var rel;
          rel, shot := MaybeSnapshot(frame, tick.snapNow, tick.snapHex);
          evt := Some(MakeEvent(tick.evtHex, now, cameraId, xyxy, rel));
          lastEmitTs := now;
        }
      } else {
        hadPerson := false;
        lastBbox := None;
      }
    }

    /** One pass of the `while True` body (lines 72-120): read, and on a frame run the model and decide. */
    method Iteration(detect: Image -> seq<Detection>, tick: Tick, cameraId: string)
      returns (evt: Option<Event>, shot: Option<Snapshot>)
      modifies this, cam
      ensures cam.pending == Drop(old(cam.pending), ReadsPerCall(stride)) && cam.released == old(cam.released)
      ensures Advanced(Settings(), old(State()), old(cam.pending), detect, tick, cameraId, State(), evt, shot)
    {
      var g := ReadStrided();
      if g.NoFrame? {
        return None, None;
      }
      var dets := detect(g.frame);
      evt, shot := HandleFrame(g.frame, dets, tick, cameraId);
    }

    /** The `while True` loop of `run` (lines 71-120), one iteration per tick. */
    method Loop(detect: Image -> seq<Detection>, ticks: seq<Tick>, cameraId: string)
      returns (events: seq<Event>, shots: seq<Snapshot>)
      modifies this, cam
      ensures cam.released == old(cam.released)
      ensures
        var r := Replay(Settings(), old(State()), Observations(old(cam.pending), stride, detect, ticks), cameraId);
        events == r.events && shots == r.shots && State() == r.final
    {
      events, shots := [], [];
      ghost var total := Replay(Settings(), State(), Observations(cam.pending, stride, detect, ticks), cameraId);
      ghost var todo := ticks;
      var i := 0;
      while i < |ticks|
        invariant 0 <= i <= |ticks| && todo == ticks[i..]
        invariant cam.released == old(cam.released)
        invariant Continues(total, events, shots, Settings(), State(), cam.pending, detect, todo, cameraId)
      {
        ghost var s0, pend := State(), cam.pending;
        var evt, shot := Iteration(detect, ticks[i], cameraId);
        ContinuesStep(total, events, shots, Settings(), s0, pend, detect, todo, cameraId, State(), evt, shot);
        events := events + OptionToSeq(evt);
        shots := shots + OptionToSeq(shot);
        i := i + 1;
        todo := todo[1..];
      }
      ContinuesDone(total, events, shots, Settings(), State(), cam.pending, detect, todo, cameraId);
    }

    /**
     * `run` (lines 68-123). The source loops until it is cancelled; here the run ends
     * after the given ticks, as a cancellation after that many iterations would, and the
     * `finally` releases the camera. `_open` is called before the `try`, so a camera that
     * fails to open is left unreleased.
     */
    method Run(detect: Image -> seq<Detection>, ticks: seq<Tick>, cameraId: string)
      returns (started: bool, events: seq<Event>, shots: seq<Snapshot>)
      modifies this, cam
      ensures started == cam.isOpened
      ensures !started ==> events == [] && shots == [] && State() == old(State()) && unchanged(cam)
      ensures started ==>
        var r := Replay(Settings(), old(State()), Observations(old(cam.pending), stride, detect, ticks), cameraId);
        events == r.events && shots == r.shots && State() == r.final && cam.released
    {
      started := cam.isOpened;
      if !started {
        return started, [], [];
      }
      events, shots := Loop(detect, ticks, cameraId);
      cam.Release();
    }
  }
}
