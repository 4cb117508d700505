/**
 * What the detection model hands to the presence detector for one frame, and how the
 * detector picks the box it tracks (detector/person_detector.py, lines 85-91): keep the
 * detections of class 0 (person), take the one with the highest score, and cast its
 * corners to `int`.
 */
module Detections {
  import opened Geometry

  /** Corner coordinates as the model reports them (floats in the source). */
  datatype RawBox = RawBox(x1: real, y1: real, x2: real, y2: real)

  /** One detection: `b.xyxy[0]`, `b.conf[0]` and `b.cls[0]` of a result box. */
  datatype Detection = Detection(xyxy: RawBox, score: real, cls: int)

  /** An entry of the `persons` list: the pair `(xyxy, score)`. */
  datatype Person = Person(xyxy: RawBox, score: real)

  /** The class id the model gives to people. */
  const PersonClass: int := 0

  /** Python's `int(x)` on a float: truncation toward zero. */
  function Trunc(x: real): (n: int)
    ensures 0.0 <= x ==> n as real <= x < n as real + 1.0
    ensures x < 0.0 ==> n as real - 1.0 < x <= n as real
  {
    if x >= 0.0 then x.Floor else -((-x).Floor)
  }

  /** `[int(x) for x in xyxy]`. */
  function ToBox(r: RawBox): Box
  {
    Box(Trunc(r.x1), Trunc(r.y1), Trunc(r.x2), Trunc(r.y2))
  }

  /** The positions in `ds` of the person detections (see `PersonsOfExactly`). */
  function PersonIndices(ds: seq<Detection>): seq<nat>
  {
    if ds == [] then []
    else
      var shifted := Shift(PersonIndices(ds[1..]));
      if ds[0].cls == PersonClass then [0] + shifted else shifted
  }

  /** Every position moved one place to the right. */
  function Shift(ix: seq<nat>): (r: seq<nat>)
    ensures |r| == |ix| && forall k :: 0 <= k < |ix| ==> r[k] == ix[k] + 1
  {
    seq(|ix|, k requires 0 <= k < |ix| => ix[k] + 1)
  }

  /**
   * The list comprehension of lines 85-86: the `(xyxy, score)` of the person detections,
   * in the order of `ds`. It is empty exactly when no detection has the person class;
   * `PersonsOfExactly` states that it holds every person detection, in order, and
   * nothing else.
   */
  function PersonsOf(ds: seq<Detection>): (ps: seq<Person>)
    ensures |ps| <= |ds|
    ensures ps == [] <==> forall i :: 0 <= i < |ds| ==> ds[i].cls != PersonClass
    ensures forall p :: p in ps ==> exists d :: d in ds && d.cls == PersonClass && p == Person(d.xyxy, d.score)
  {
    if ds == [] then []
    else
      var rest := PersonsOf(ds[1..]);
      assert forall d :: d in ds[1..] ==> d in ds;
      if ds[0].cls == PersonClass then [Person(ds[0].xyxy, ds[0].score)] + rest else rest
  }

  /**
   * `ps` is `ds` filtered through `ix`: the positions in `ix` increase, each holds a
   * person detection, none is missed, and entry `k` of `ps` is the detection at `ix[k]`.
   */
  ghost predicate FilteredAt(ds: seq<Detection>, ps: seq<Person>, ix: seq<nat>)
  {
    && |ps| == |ix|
    && (forall k :: 0 <= k < |ix| ==>
          ix[k] < |ds| && ds[ix[k]].cls == PersonClass && ps[k] == Person(ds[ix[k]].xyxy, ds[ix[k]].score))
    && (forall k, l :: 0 <= k < l < |ix| ==> ix[k] < ix[l])
    && (forall i :: 0 <= i < |ds| && ds[i].cls == PersonClass ==> i in ix)
  }

  /** The person list holds every person detection of the frame, in order, and nothing else. */
  lemma {:induction false} PersonsOfExactly(ds: seq<Detection>)
    ensures FilteredAt(ds, PersonsOf(ds), PersonIndices(ds))
  {
    if ds != [] {
      PersonsOfExactly(ds[1..]);
      FilteredCons(ds, PersonsOf(ds[1..]), PersonIndices(ds[1..]));
    }
  }

  /** Filtering `ds` is filtering its tail, with positions shifted, after the head if it is a person. */
  lemma FilteredCons(ds: seq<Detection>, ps: seq<Person>, ix: seq<nat>)
    requires ds != [] && FilteredAt(ds[1..], ps, ix)
    ensures ds[0].cls == PersonClass ==> FilteredAt(ds, [Person(ds[0].xyxy, ds[0].score)] + ps, [0] + Shift(ix))
    ensures ds[0].cls != PersonClass ==> FilteredAt(ds, ps, Shift(ix))
  {
    FilteredShift(ds, ps, ix);
    if ds[0].cls == PersonClass {
      FilteredKeep(ds, ps, Shift(ix));
    }
  }

  /** The tail's positions, shifted by one, are the person positions of `ds` past the head. */
  lemma FilteredShift(ds: seq<Detection>, ps: seq<Person>, ix: seq<nat>)
    requires ds != [] && FilteredAt(ds[1..], ps, ix)
    ensures var shifted := Shift(ix);
      && |ps| == |shifted|
      && (forall k :: 0 <= k < |shifted| ==>
            1 <= shifted[k] < |ds| && ds[shifted[k]].cls == PersonClass &&
            ps[k] == Person(ds[shifted[k]].xyxy, ds[shifted[k]].score))
      && (forall k, l :: 0 <= k < l < |shifted| ==> shifted[k] < shifted[l])
      && (forall i :: 1 <= i < |ds| && ds[i].cls == PersonClass ==> i in shifted)
  {
    ShiftedPositions(ds, ps, ix);
    ShiftedOrder(ix);
    ShiftedComplete(ds, ps, ix);
  }

  /** Each shifted tail position holds, in `ds`, the person the tail held there. */
  lemma ShiftedPositions(ds: seq<Detection>, ps: seq<Person>, ix: seq<nat>)
    requires ds != [] && FilteredAt(ds[1..], ps, ix)
    ensures var shifted := Shift(ix);
      forall k :: 0 <= k < |shifted| ==>
        1 <= shifted[k] < |ds| && ds[shifted[k]].cls == PersonClass &&
        ps[k] == Person(ds[shifted[k]].xyxy, ds[shifted[k]].score)
  {
    var rest, shifted := ds[1..], Shift(ix);
    forall k | 0 <= k < |shifted|
      ensures 1 <= shifted[k] < |ds| && ds[shifted[k]].cls == PersonClass
      ensures ps[k] == Person(ds[shifted[k]].xyxy, ds[shifted[k]].score)
    {
      assert shifted[k] == ix[k] + 1 && rest[ix[k]] == ds[shifted[k]];
    }
  }

  /** Shifting keeps increasing positions increasing. */
  lemma ShiftedOrder(ix: seq<nat>)
    requires forall k, l :: 0 <= k < l < |ix| ==> ix[k] < ix[l]
    ensures var shifted := Shift(ix); forall k, l :: 0 <= k < l < |shifted| ==> shifted[k] < shifted[l]
  {
  }

  /** Every person past the head of `ds` is at some shifted tail position. */
  lemma ShiftedComplete(ds: seq<Detection>, ps: seq<Person>, ix: seq<nat>)
    requires ds != [] && FilteredAt(ds[1..], ps, ix)
    ensures forall i :: 1 <= i < |ds| && ds[i].cls == PersonClass ==> i in Shift(ix)
  {
    var rest, shifted := ds[1..], Shift(ix);
    forall i | 1 <= i < |ds| && ds[i].cls == PersonClass
      ensures i in shifted
    {
      assert rest[i - 1] == ds[i];
      var m :| 0 <= m < |ix| && ix[m] == i - 1;
      assert shifted[m] == i;
    }
  }

  /** A person at the head goes in front of the shifted positions of the tail. */
  lemma FilteredKeep(ds: seq<Detection>, ps: seq<Person>, shifted: seq<nat>)
    requires ds != [] && ds[0].cls == PersonClass && |ps| == |shifted|
    requires forall k :: 0 <= k < |shifted| ==>
      1 <= shifted[k] < |ds| && ds[shifted[k]].cls == PersonClass &&
      ps[k] == Person(ds[shifted[k]].xyxy, ds[shifted[k]].score)
    requires forall k, l :: 0 <= k < l < |shifted| ==> shifted[k] < shifted[l]
    requires forall i :: 1 <= i < |ds| && ds[i].cls == PersonClass ==> i in shifted
    ensures FilteredAt(ds, [Person(ds[0].xyxy, ds[0].score)] + ps, [0] + shifted)
  {
    var ps', ix' := [Person(ds[0].xyxy, ds[0].score)] + ps, [0] + shifted;
    forall k | 0 <= k < |ix'|
      ensures ix'[k] < |ds| && ds[ix'[k]].cls == PersonClass && ps'[k] == Person(ds[ix'[k]].xyxy, ds[ix'[k]].score)
    {
      if k > 0 {
        assert ix'[k] == shifted[k - 1] && ps'[k] == ps[k - 1];
      }
    }
    forall k, l | 0 <= k < l < |ix'|
      ensures ix'[k] < ix'[l]
    {
      assert ix'[l] == shifted[l - 1];
      if k > 0 {
        assert ix'[k] == shifted[k - 1];
      }
    }
    forall i | 0 <= i < |ds| && ds[i].cls == PersonClass
      ensures i in ix'
    {
      if i > 0 {
        var m :| 0 <= m < |shifted| && shifted[m] == i;
        assert ix'[m + 1] == i;
      }
    }
  }

  /**
   * `max(persons, key=lambda t: t[1])`: Python's `max` scans left to right and replaces
   * its candidate only on a strictly greater key, so the result is the FIRST entry of
   * maximal score. Written as that left fold over the prefix.
   */
  function BestIndex(ps: seq<Person>): (k: nat)
    requires ps != []
    ensures k < |ps|
    ensures forall j :: 0 <= j < |ps| ==> ps[j].score <= ps[k].score
    ensures forall j :: 0 <= j < k ==> ps[j].score < ps[k].score
  {
    if |ps| == 1 then 0
    else
      var k := BestIndex(ps[..|ps| - 1]);
      if ps[|ps| - 1].score > ps[k].score then |ps| - 1 else k
  }

  /** The tracked box of a frame: the best-scoring person's corners, truncated. */
  function BestBox(ps: seq<Person>): Box
    requires ps != []
  {
    ToBox(ps[BestIndex(ps)].xyxy)
  }

  /**
   * The detection the tracked box comes from (lines 85-91), stated over the model's raw
   * output: a person detection of the highest score among the persons, with every
   * earlier person detection scoring strictly lower, whose truncated corners are the box.
   */
  function BestDetection(ds: seq<Detection>): (j: nat)
    requires PersonsOf(ds) != []
    ensures j < |ds| && ds[j].cls == PersonClass
    ensures BestBox(PersonsOf(ds)) == ToBox(ds[j].xyxy)
    ensures forall i :: 0 <= i < |ds| && ds[i].cls == PersonClass ==> ds[i].score <= ds[j].score
    ensures forall i :: 0 <= i < j && ds[i].cls == PersonClass ==> ds[i].score < ds[j].score
  {
    var ps := PersonsOf(ds);
    var ix := PersonIndices(ds);
    var k := BestIndex(ps);
    PersonsOfExactly(ds);
    BestDetectionBeats(ds, ps, ix, k);
    ix[k]
  }

  /** Every person detection is some entry of the person list, so the best entry beats it. */
  lemma {:induction false} BestDetectionBeats(ds: seq<Detection>, ps: seq<Person>, ix: seq<nat>, k: nat)
    requires FilteredAt(ds, ps, ix) && ps != [] && k == BestIndex(ps)
    ensures forall i :: 0 <= i < |ds| && ds[i].cls == PersonClass ==> ds[i].score <= ds[ix[k]].score
    ensures forall i :: 0 <= i < ix[k] && ds[i].cls == PersonClass ==> ds[i].score < ds[ix[k]].score
  {
    forall i | 0 <= i < |ds| && ds[i].cls == PersonClass
      ensures ds[i].score <= ds[ix[k]].score
      ensures i < ix[k] ==> ds[i].score < ds[ix[k]].score
    {
      var m :| 0 <= m < |ix| && ix[m] == i;
      assert ps[m].score == ds[i].score;
      assert ps[k].score == ds[ix[k]].score;
      if i < ix[k] {
        assert m < k;
      }
    }
  }
}
