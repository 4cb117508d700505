/**
 * Box overlap for the presence detector: the intersection-over-union ratio of two
 * axis-aligned boxes given as integer corners (x1, y1, x2, y2), as computed by
 * `_iou_xyxy` in detector/person_detector.py.
 *
 * The source computes in IEEE floats; here the ratio is an exact `real`.
 */
module Geometry {

  /** A box `[x1, y1, x2, y2]` after its coordinates have been cast to `int`. */
  datatype Box = Box(x1: int, y1: int, x2: int, y2: int)

  /** The `1e-6` added to the union so that two empty boxes do not divide by zero. */
  const Eps: real := 0.000001

  function Max(a: int, b: int): int { if a >= b then a else b }

  function Min(a: int, b: int): int { if a <= b then a else b }

  /** Width of a box, clamped at zero like `max(0, x2 - x1)`. */
  function Width(b: Box): nat
  {
    Max(0, b.x2 - b.x1)
  }

  function Height(b: Box): nat
  {
    Max(0, b.y2 - b.y1)
  }

  function Area(b: Box): nat
  {
    Width(b) * Height(b)
  }

  /** Width and height of the intersection rectangle, each clamped at zero. */
  function InterWidth(a: Box, b: Box): nat
  {
    Max(0, Min(a.x2, b.x2) - Max(a.x1, b.x1))
  }

  function InterHeight(a: Box, b: Box): nat
  {
    Max(0, Min(a.y2, b.y2) - Max(a.y1, b.y1))
  }

  function Inter(a: Box, b: Box): nat
  {
    InterWidth(a, b) * InterHeight(a, b)
  }

  lemma {:induction false} MulMonotone(x: int, y: int, hx: int, hy: int)
    requires 0 <= x <= hx && 0 <= y <= hy
    ensures x * y <= hx * hy
  {
    calc {
      x * y;
    <= { assert (hx - x) * y >= 0; }
      hx * y;
    <= { assert hx * (hy - y) >= 0; }
      hx * hy;
    }
  }

  /** The intersection is never larger than either box. */
  lemma {:induction false} InterWithinAreas(a: Box, b: Box)
    ensures Inter(a, b) <= Area(a) && Inter(a, b) <= Area(b)
  {
    assert InterWidth(a, b) <= Width(a) && InterWidth(a, b) <= Width(b);
    assert InterHeight(a, b) <= Height(a) && InterHeight(a, b) <= Height(b);
    MulMonotone(InterWidth(a, b), InterHeight(a, b), Width(a), Height(a));
    MulMonotone(InterWidth(a, b), InterHeight(a, b), Width(b), Height(b));
  }

  /** The denominator `area_a + area_b - inter + 1e-6`. */
  function Union(a: Box, b: Box): real
  {
    (Area(a) + Area(b) - Inter(a, b)) as real + Eps
  }

  /**
   * `_iou_xyxy(a, b)`. Because of the epsilon in the denominator the ratio is
   * strictly below one, even for a box compared with itself.
   */
  function Iou(a: Box, b: Box): (r: real)
    ensures 0.0 <= r < 1.0
  {
    InterWithinAreas(a, b);
    var u := Union(a, b);
    assert u >= Inter(a, b) as real + Eps;
    RatioBelowOne(Inter(a, b) as real, u);
    Inter(a, b) as real / u
  }

  lemma {:induction false} RatioBelowOne(n: real, d: real)
    requires 0.0 <= n && n + Eps <= d
    ensures 0.0 <= n / d < 1.0
  {
    assert d > 0.0;
    assert n / d * d == n;
  }

  /** IoU does not depend on the order of its arguments. */
  lemma {:induction false} IouSymmetric(a: Box, b: Box)
    ensures Iou(a, b) == Iou(b, a)
  {
    assert Inter(a, b) == Inter(b, a);
  }

  /** The ratio is zero exactly when the clamped intersection is empty. */
  lemma {:induction false} IouZeroIff(a: Box, b: Box)
    ensures Iou(a, b) == 0.0 <==> (InterWidth(a, b) == 0 || InterHeight(a, b) == 0)
  {
    InterWithinAreas(a, b);
    var u := Union(a, b);
    assert u > 0.0;
    if Iou(a, b) == 0.0 {
      assert Inter(a, b) as real == Iou(a, b) * u;
    }
  }

  /** Boxes separated along either axis do not overlap: their IoU is zero. */
  lemma {:induction false} IouDisjoint(a: Box, b: Box)
    requires a.x2 <= b.x1 || b.x2 <= a.x1 || a.y2 <= b.y1 || b.y2 <= a.y1
    ensures Iou(a, b) == 0.0
  {
    IouZeroIff(a, b);
  }

  /** A box of area at least one overlaps itself to within the epsilon. */
  lemma {:induction false} IouSelf(a: Box)
    requires Area(a) >= 1
    ensures 1.0 - Eps <= Iou(a, a) < 1.0
  {
    assert InterWidth(a, a) == Width(a) && InterHeight(a, a) == Height(a);
    var n := Area(a) as real;
    assert Union(a, a) == n + Eps;
    RatioNearOne(n);
  }

  lemma {:induction false} RatioNearOne(n: real)
    requires n >= 1.0
    ensures n / (n + Eps) >= 1.0 - Eps
  {
    var d := n + Eps;
    var q := n / d;
    assert q * d == n;
    assert (1.0 - Eps) * d == n - Eps * (n - 1.0) - Eps * Eps;
    assert Eps * (n - 1.0) >= 0.0;
    assert (q - (1.0 - Eps)) * d == n - (1.0 - Eps) * d >= 0.0;
  }
}
