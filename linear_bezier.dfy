/** Linear Bézier curves for the two strokes of sign 'CH': each stroke is
    replaced by the straight segment from its first to its last touch,
    sampled at 100 evenly spaced parameter values. */
module LinearBezier {
  import opened Geometry
  import opened Segmentation
  import opened Parameterisation

  /** `(1 - t) * p0 + t * p1`, one row of `linear_bezier_curve`. */
  function LinearPoint(p0: Point, p1: Point, t: real): (p: Point)
    ensures t == 0.0 ==> p == p0
    ensures t == 1.0 ==> p == p1
  {
    Point((1.0 - t) * p0.x + t * p1.x, (1.0 - t) * p0.y + t * p1.y)
  }

  /** Moving the parameter from `t1` to `t2` moves the point by
      `(t2 - t1) * (p1 - p0)`: the curve runs along the segment at constant speed. */
  lemma LinearStep(p0: Point, p1: Point, t1: real, t2: real)
    ensures LinearPoint(p0, p1, t2).x - LinearPoint(p0, p1, t1).x == (t2 - t1) * (p1.x - p0.x)
    ensures LinearPoint(p0, p1, t2).y - LinearPoint(p0, p1, t1).y == (t2 - t1) * (p1.y - p0.y)
  {
  }

  /** Every point of the curve lies on the line through `p0` and `p1`
      (the cross product of `p - p0` and `p1 - p0` is zero). */
  lemma LinearCollinear(p0: Point, p1: Point, t: real)
    ensures (LinearPoint(p0, p1, t).x - p0.x) * (p1.y - p0.y)
         == (LinearPoint(p0, p1, t).y - p0.y) * (p1.x - p0.x)
  {
    LinearStep(p0, p1, 0.0, t);
  }

  /** `linear_bezier_curve`: one point per parameter value, in order. */
  function LinearBezierCurve(p0: Point, p1: Point, ts: seq<real>): (curve: seq<Point>)
    ensures |curve| == |ts|
    ensures forall i :: 0 <= i < |ts| ==> curve[i] == LinearPoint(p0, p1, ts[i])
    ensures forall i :: 0 <= i < |ts| && ts[i] == 0.0 ==> curve[i] == p0
    ensures forall i :: 0 <= i < |ts| && ts[i] == 1.0 ==> curve[i] == p1
  {
    seq(|ts|, i requires 0 <= i < |ts| => LinearPoint(p0, p1, ts[i]))
  }

  /** Sampled at `n >= 2` evenly spaced values, consecutive points differ
      by one fixed step `(p1 - p0) / (n - 1)`. */
  lemma LinearSampleStep(p0: Point, p1: Point, n: nat, i: nat)
    requires n >= 2 && i + 1 < n
    ensures LinearBezierCurve(p0, p1, Linspace(n))[i + 1].x - LinearBezierCurve(p0, p1, Linspace(n))[i].x
         == (1.0 / ((n - 1) as real)) * (p1.x - p0.x)
    ensures LinearBezierCurve(p0, p1, Linspace(n))[i + 1].y - LinearBezierCurve(p0, p1, Linspace(n))[i].y
         == (1.0 / ((n - 1) as real)) * (p1.y - p0.y)
  {
    var ts := Linspace(n);
    LinspaceUniform(n, i);
    LinearStep(p0, p1, ts[i], ts[i + 1]);
  }

  /** The straight-line property: all consecutive differences of a curve
      sampled at evenly spaced values are equal. */
  lemma LinearCurveIsStraight(p0: Point, p1: Point, n: nat, i: nat, j: nat)
    requires n >= 2 && i + 1 < n && j + 1 < n
    ensures LinearBezierCurve(p0, p1, Linspace(n))[i + 1].x - LinearBezierCurve(p0, p1, Linspace(n))[i].x
         == LinearBezierCurve(p0, p1, Linspace(n))[j + 1].x - LinearBezierCurve(p0, p1, Linspace(n))[j].x
    ensures LinearBezierCurve(p0, p1, Linspace(n))[i + 1].y - LinearBezierCurve(p0, p1, Linspace(n))[i].y
         == LinearBezierCurve(p0, p1, Linspace(n))[j + 1].y - LinearBezierCurve(p0, p1, Linspace(n))[j].y
  {
    LinearSampleStep(p0, p1, n, i);
    LinearSampleStep(p0, p1, n, j);
  }

  /** From (1,1) to (2,2) over 100 values the curve starts at (1,1), ends
      at (2,2) and has 100 points. */
  lemma LinearCurveExample()
    ensures |LinearBezierCurve(Point(1.0, 1.0), Point(2.0, 2.0), Linspace(100))| == 100
    ensures LinearBezierCurve(Point(1.0, 1.0), Point(2.0, 2.0), Linspace(100))[0] == Point(1.0, 1.0)
    ensures LinearBezierCurve(Point(1.0, 1.0), Point(2.0, 2.0), Linspace(100))[99] == Point(2.0, 2.0)
  {
  }

  /** `generate_two_linear_beziers`: split the touches, then draw each
      stroke as the segment from its first to its last touch, 100 points
      each. The second stroke's first touch is indexed, so the split must
      leave it non-empty. */
  function GenerateTwoLinearBeziers(locations: seq<Point>): (r: (seq<Point>, seq<Point>))
    requires |locations| > 0 && Split(locations).curve2 != []
    ensures |r.0| == DefaultNumPoints && |r.1| == DefaultNumPoints
    ensures r.0[0] == locations[0] && r.0[DefaultNumPoints - 1] == Last(Split(locations).curve1)
    ensures r.1[0] == Split(locations).curve2[0]
    ensures r.1[DefaultNumPoints - 1] == Split(locations).curve2[|Split(locations).curve2| - 1]
    ensures r.0 == LinearBezierCurve(locations[0], Last(Split(locations).curve1), Linspace(DefaultNumPoints))
    ensures r.1 == LinearBezierCurve(Split(locations).curve2[0],
      Split(locations).curve2[|Split(locations).curve2| - 1], Linspace(DefaultNumPoints))
  {
    var strokes := Split(locations);
    var curve2: Curve := strokes.curve2;
    var ts := Linspace(DefaultNumPoints);
    (LinearBezierCurve(strokes.curve1[0], Last(strokes.curve1), ts),
     LinearBezierCurve(curve2[0], Last(curve2), ts))
  }

  /** The touches (0,0) (1,1) (2,2) (20,20) (21,21) (22,22) give a first
      segment from (0,0) to (2,2) and a second from (20,20) to (22,22). */
  lemma GenerateExample(locations: seq<Point>)
    requires locations == [Point(0.0, 0.0), Point(1.0, 1.0), Point(2.0, 2.0), Point(20.0, 20.0), Point(21.0, 21.0), Point(22.0, 22.0)]
    ensures Split(locations).curve2 != []
    ensures GenerateTwoLinearBeziers(locations).0[0] == Point(0.0, 0.0)
    ensures GenerateTwoLinearBeziers(locations).0[99] == Point(2.0, 2.0)
    ensures GenerateTwoLinearBeziers(locations).1[0] == Point(20.0, 20.0)
    ensures GenerateTwoLinearBeziers(locations).1[99] == Point(22.0, 22.0)
  {
    SplitExampleTwoStrokes();
  }
}
