/** Planar touch geometry shared by every recogniser.

    The recognisers measure the Euclidean distance `sqrt((x1-x2)^2 + (y1-y2)^2)`
    and compare it with a threshold or with another distance. Both comparisons
    are decided by the squared distance alone, because the square root is
    monotone on non-negative numbers; `CompareDistances` and `WithinDistance`
    prove this, so the rest of the model works with `SqDist` and squared
    thresholds and never needs a square root. */
module Geometry {

  /** A touch location `[x, y]`, in pixels (y grows downwards). */
  datatype Point = Point(x: real, y: real)

  /** An ordered, non-empty run of touch locations or of sampled curve points. */
  type Curve = c: seq<Point> | |c| > 0 witness [Point(0.0, 0.0)]

  function Last(c: Curve): Point { c[|c| - 1] }

  /** The product of two reals, with the sign rules the proofs below rely on. */
  function Product(a: real, b: real): (s: real)
    ensures a > 0.0 && b > 0.0 ==> s > 0.0
    ensures a < 0.0 && b < 0.0 ==> s > 0.0
    ensures a == 0.0 || b == 0.0 ==> s == 0.0
  {
    a * b
  }

  /** Multiplying by a non-negative number preserves order. */
  lemma ProductMono(w: real, a: real, b: real)
    requires w >= 0.0 && a <= b
    ensures Product(w, a) <= Product(w, b)
  {
    assert Product(w, b) - Product(w, a) == Product(w, b - a);
  }

  function Sq(v: real): (s: real)
    ensures s >= 0.0
    ensures s == 0.0 <==> v == 0.0
  {
    Product(v, v)
  }

  /** The squared Euclidean distance `(x1-x2)^2 + (y1-y2)^2`. */
  function SqDist(p: Point, q: Point): (s: real)
    ensures s >= 0.0
  {
    Sq(p.x - q.x) + Sq(p.y - q.y)
  }

  /** The squared distance is symmetric and vanishes exactly between equal points. */
  lemma SqDistZero(p: Point, q: Point)
    ensures SqDist(p, q) == SqDist(q, p)
    ensures SqDist(p, q) == 0.0 <==> p == q
  {
    assert Sq(q.x - p.x) == Sq(p.x - q.x);
    assert Sq(q.y - p.y) == Sq(p.y - q.y);
  }

  /** `d` is the value `math.sqrt` returns for the distance between `p` and
      `q`; such a distance is 0 exactly between equal points. */
  ghost predicate IsDistance(d: real, p: Point, q: Point): (r: bool)
    ensures r ==> (d == 0.0 <==> p == q)
  {
    d >= 0.0 && Sq(d) == SqDist(p, q)
  }

  /** Squaring preserves and reflects the order of non-negative numbers. */
  lemma SquareOrder(d1: real, d2: real)
    requires d1 >= 0.0 && d2 >= 0.0
    ensures d1 < d2 <==> Sq(d1) < Sq(d2)
    ensures d1 <= d2 <==> Sq(d1) <= Sq(d2)
  {
    assert Sq(d2) - Sq(d1) == Product(d2 - d1, d2 + d1);
    assert Sq(d1) - Sq(d2) == Product(d1 - d2, d1 + d2);
  }

  /** The distance is symmetric and zero exactly between equal points. */
  lemma DistanceSymmetric(d: real, p: Point, q: Point)
    requires IsDistance(d, p, q)
    ensures IsDistance(d, q, p)
    ensures d == 0.0 <==> p == q
  {
    SqDistZero(p, q);
  }

  /** Comparing two Euclidean distances is the same as comparing their squares. */
  lemma CompareDistances(d1: real, p1: Point, q1: Point, d2: real, p2: Point, q2: Point)
    requires IsDistance(d1, p1, q1) && IsDistance(d2, p2, q2)
    ensures d1 < d2 <==> SqDist(p1, q1) < SqDist(p2, q2)
    ensures d1 <= d2 <==> SqDist(p1, q1) <= SqDist(p2, q2)
  {
    SquareOrder(d1, d2);
  }

  /** A Euclidean distance is within a non-negative bound exactly when its
      square is within the bound's square. */
  lemma WithinDistance(d: real, p: Point, q: Point, bound: real)
    requires IsDistance(d, p, q) && bound >= 0.0
    ensures d <= bound <==> SqDist(p, q) <= Sq(bound)
    ensures d < bound <==> SqDist(p, q) < Sq(bound)
  {
    SquareOrder(d, bound);
  }

  /** The distance from (-1,-1) to (1,1) is twice the distance from (0,0)
      to (1,1): 2*sqrt(2) against sqrt(2). */
  lemma DistanceExamples(d1: real, d2: real)
    requires IsDistance(d1, Point(0.0, 0.0), Point(1.0, 1.0))
    requires IsDistance(d2, Point(-1.0, -1.0), Point(1.0, 1.0))
    ensures d2 == 2.0 * d1
  {
    SqDouble(d1);
    RootUnique(d2, 2.0 * d1);
  }

  /** Identical points are 0 apart. */
  lemma ZeroDistanceExample(d: real)
    requires IsDistance(d, Point(0.0, 0.0), Point(0.0, 0.0))
    ensures d == 0.0
  {
  }

  lemma SqDouble(d: real)
    ensures Sq(2.0 * d) == 4.0 * Sq(d)
  {
  }

  /** A non-negative number has only one non-negative square root. */
  lemma RootUnique(d1: real, d2: real)
    requires d1 >= 0.0 && d2 >= 0.0 && Sq(d1) == Sq(d2)
    ensures d1 == d2
  {
    SquareOrder(d1, d2);
    SquareOrder(d2, d1);
  }

}
