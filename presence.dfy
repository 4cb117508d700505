/**
 * The per-frame presence decision of `PersonDetector.run`
 * (detector/person_detector.py, lines 88-118): given the person detections of a frame
 * and the current time, decide whether to emit an event and update the three state
 * fields `had_person`, `last_bbox` and `last_emit_ts`.
 */
module Presence {
  import opened Wrappers
  import opened Geometry
  import opened Detections

  /** The detector's tracking fields. `lastBbox` is `None` until a person is seen. */
  datatype Tracker = Tracker(hadPerson: bool, lastBbox: Option<Box>, lastEmitTs: real)

  /** The values `__init__` gives the tracking fields. */
  const Initial: Tracker := Tracker(false, None, 0.0)

  /** `iou_same` and `keepalive_s`. */
  datatype Thresholds = Thresholds(iouSame: real, keepaliveS: real)

  /** The values `__init__` fixes: 0.6 and 5.0 seconds. */
  const Defaults: Thresholds := Thresholds(0.6, 5.0)

  datatype Decision = Decision(next: Tracker, emit: bool)

  /** Whether the frame's chosen box, in the present state, triggers an emission. */
  predicate MovedOrStale(t: Tracker, box: Box, now: real, th: Thresholds)
  {
    var iou := if t.lastBbox.Some? then Iou(box, t.lastBbox.value) else 0.0;
    iou < th.iouSame || now - t.lastEmitTs >= th.keepaliveS
  }

  /**
   * One frame. The tracking fields are updated as the loop body updates them;
   * `last_emit_ts` moves to `now` only when an event is emitted.
   */
  function Step(t: Tracker, persons: seq<Person>, now: real, th: Thresholds): (d: Decision)
    ensures d.emit ==> persons != []
  {
    if persons == [] then
      Decision(Tracker(false, None, t.lastEmitTs), false)
    else
      var box := BestBox(persons);
      var emit := !t.hadPerson || MovedOrStale(t, box, now, th);
      Decision(Tracker(true, Some(box), if emit then now else t.lastEmitTs), emit)
  }

  /** `had_person` holds exactly when a last box is remembered. */
  predicate Consistent(t: Tracker)
  {
    t.hadPerson <==> t.lastBbox.Some?
  }

  lemma ConsistentInitially()
    ensures Consistent(Initial)
  {
  }

  /** Every step keeps the two fields in agreement, so the `else 0.0` case of line 97 is never taken. */
  lemma StepKeepsConsistent(t: Tracker, persons: seq<Person>, now: real, th: Thresholds)
    ensures Consistent(Step(t, persons, now, th).next)
  {
  }

  /** A frame without persons resets the tracker and never emits. */
  lemma NoPersonFrame(t: Tracker, persons: seq<Person>, now: real, th: Thresholds)
    requires persons == []
    ensures var d := Step(t, persons, now, th);
      !d.emit && !d.next.hadPerson && d.next.lastBbox == None && d.next.lastEmitTs == t.lastEmitTs
  {
  }

  /** The first person frame after absence always emits, whatever the overlap. */
  lemma FirstAppearanceEmits(t: Tracker, persons: seq<Person>, now: real, th: Thresholds)
    requires persons != [] && !t.hadPerson
    ensures Step(t, persons, now, th).emit
  {
  }

  /**
   * While present, a person frame emits exactly when the box moved (IoU below
   * `iou_same`) or the keepalive interval has elapsed since the last emission.
   */
  lemma PresentEmitsIff(t: Tracker, persons: seq<Person>, now: real, th: Thresholds)
    requires persons != [] && t.hadPerson && t.lastBbox.Some?
    ensures Step(t, persons, now, th).emit <==>
      (Iou(BestBox(persons), t.lastBbox.value) < th.iouSame || now - t.lastEmitTs >= th.keepaliveS)
  {
  }

  /**
   * On every person frame the tracker records presence and the chosen box, emitted or
   * not; the emission time changes only when an event is emitted.
   */
  lemma PersonFrameUpdates(t: Tracker, persons: seq<Person>, now: real, th: Thresholds)
    requires persons != []
    ensures var d := Step(t, persons, now, th);
      d.next.hadPerson && d.next.lastBbox == Some(BestBox(persons)) &&
      d.next.lastEmitTs == (if d.emit then now else t.lastEmitTs)
  {
  }

  /**
   * Heartbeat: after any person frame, the last emission lies less than the keepalive
   * interval in the past, so a stationary person is re-announced at least that often.
   */
  lemma PresenceNeverStale(t: Tracker, persons: seq<Person>, now: real, th: Thresholds)
    requires persons != [] && th.keepaliveS > 0.0
    ensures now - Step(t, persons, now, th).next.lastEmitTs < th.keepaliveS
  {
  }
}
