/** Quartic Bézier curves: evaluation, sampling, the least-squares error the
    fit minimises, and the fit itself with its endpoints pinned to the first
    and last touch. The optimiser is a parameter; every other step is a
    polynomial identity over the reals. */
module Parameterisation {
  import opened Geometry

  /** The number of points a sampled curve has unless told otherwise. */
  const DefaultNumPoints: nat := 100

  /** The `i`-th of `m` equal steps from 0 to 1. */
  function Fraction(i: nat, m: nat): (r: real)
    requires 0 < m && i <= m
    ensures 0.0 <= r <= 1.0
    ensures i == 0 ==> r == 0.0
    ensures i == m ==> r == 1.0
  {
    (i as real) / (m as real)
  }

  /** `np.linspace(0, 1, n)`: `n` evenly spaced values from 0 to 1 (just
      `[0.0]` when `n` is 1). */
  function Linspace(n: nat): (ts: seq<real>)
    ensures |ts| == n
    ensures forall i :: 0 <= i < n ==> 0.0 <= ts[i] <= 1.0
    ensures n >= 1 ==> ts[0] == 0.0
    ensures n >= 2 ==> ts[n - 1] == 1.0
  {
    if n == 0 then []
    else if n == 1 then [0.0]
    else seq(n, i requires 0 <= i < n => Fraction(i, n - 1))
  }

  /** Consecutive values of a linspace are one step `1/(n-1)` apart. */
  lemma LinspaceUniform(n: nat, i: nat)
    requires n >= 2 && i + 1 < n
    ensures Linspace(n)[i + 1] - Linspace(n)[i] == 1.0 / ((n - 1) as real)
  {
    assert Fraction(i + 1, n - 1) - Fraction(i, n - 1) == 1.0 / ((n - 1) as real);
  }

  /** The five times a five-touch fit uses. */
  lemma LinspaceFive()
    ensures Linspace(5) == [0.0, 0.25, 0.5, 0.75, 1.0]
  {
  }

  /** The five quartic Bernstein weights at one parameter value. */
  datatype Weights = Weights(w0: real, w1: real, w2: real, w3: real, w4: real)

  /** `(1-t)^4, 4(1-t)^3 t, 6(1-t)^2 t^2, 4(1-t) t^3, t^4`; they always sum to 1. */
  function Basis(t: real): (w: Weights)
    ensures w.w0 + w.w1 + w.w2 + w.w3 + w.w4 == 1.0
  {
    var u := 1.0 - t;
    Weights(u * u * u * u, 4.0 * u * u * u * t, 6.0 * u * u * t * t, 4.0 * u * t * t * t, t * t * t * t)
  }

  /** On `[0, 1]` no weight is negative. */
  lemma BasisNonNegative(t: real)
    requires 0.0 <= t <= 1.0
    ensures var w := Basis(t); w.w0 >= 0.0 && w.w1 >= 0.0 && w.w2 >= 0.0 && w.w3 >= 0.0 && w.w4 >= 0.0
  {
    var u := 1.0 - t;
    assert Basis(t).w0 == Product(Product(u, u), Product(u, u));
    assert Basis(t).w1 == 4.0 * Product(Product(u, u), Product(u, t));
    assert Basis(t).w2 == 6.0 * Product(Product(u, u), Product(t, t));
    assert Basis(t).w3 == 4.0 * Product(Product(u, t), Product(t, t));
    assert Basis(t).w4 == Product(Product(t, t), Product(t, t));
  }

  /** At t = 0 all the weight is on the first control point, at t = 1 on the last. */
  lemma BasisAtEnds()
    ensures Basis(0.0) == Weights(1.0, 0.0, 0.0, 0.0, 0.0)
    ensures Basis(1.0) == Weights(0.0, 0.0, 0.0, 0.0, 1.0)
  {
  }

  /** One coordinate of a Bézier point: the weighted sum of the control
      points' coordinates. */
  function Combine(w: Weights, a0: real, a1: real, a2: real, a3: real, a4: real): real
  {
    w.w0 * a0 + w.w1 * a1 + w.w2 * a2 + w.w3 * a3 + w.w4 * a4
  }

  lemma CombineAsProducts(w: Weights, a0: real, a1: real, a2: real, a3: real, a4: real)
    ensures Combine(w, a0, a1, a2, a3, a4)
      == Product(w.w0, a0) + Product(w.w1, a1) + Product(w.w2, a2) + Product(w.w3, a3) + Product(w.w4, a4)
  {
  }

  lemma WeightsTotal(w: Weights, x: real)
    requires w.w0 + w.w1 + w.w2 + w.w3 + w.w4 == 1.0
    ensures Combine(w, x, x, x, x, x) == x
  {
    assert Combine(w, x, x, x, x, x) == (w.w0 + w.w1 + w.w2 + w.w3 + w.w4) * x;
  }

  /** A convex combination stays between the smallest and the largest value. */
  lemma CombineBounded(w: Weights, a0: real, a1: real, a2: real, a3: real, a4: real, lo: real, hi: real)
    requires w.w0 >= 0.0 && w.w1 >= 0.0 && w.w2 >= 0.0 && w.w3 >= 0.0 && w.w4 >= 0.0
    requires w.w0 + w.w1 + w.w2 + w.w3 + w.w4 == 1.0
    requires lo <= a0 <= hi && lo <= a1 <= hi && lo <= a2 <= hi && lo <= a3 <= hi && lo <= a4 <= hi
    ensures lo <= Combine(w, a0, a1, a2, a3, a4) <= hi
  {
    ProductMono(w.w0, a0, hi); ProductMono(w.w1, a1, hi); ProductMono(w.w2, a2, hi);
    ProductMono(w.w3, a3, hi); ProductMono(w.w4, a4, hi);
    ProductMono(w.w0, lo, a0); ProductMono(w.w1, lo, a1); ProductMono(w.w2, lo, a2);
    ProductMono(w.w3, lo, a3); ProductMono(w.w4, lo, a4);
    WeightsTotal(w, hi);
    WeightsTotal(w, lo);
    CombineAsProducts(w, a0, a1, a2, a3, a4);
    CombineAsProducts(w, hi, hi, hi, hi, hi);
    CombineAsProducts(w, lo, lo, lo, lo, lo);
  }

  /** The five control points `P0..P4` of a quartic Bézier curve. */
  datatype QuarticControl = QuarticControl(p0: Point, p1: Point, p2: Point, p3: Point, p4: Point)

  /** The three interior control points `P1..P3` the optimiser chooses. */
  datatype Interior = Interior(p1: Point, p2: Point, p3: Point)

  /** The quartic Bernstein polynomial at any `t`, as the error function
      writes it out. The curve starts at `P0` and ends at `P4`. */
  function QuarticAt(t: real, cp: QuarticControl): (b: Point)
    ensures t == 0.0 ==> b == cp.p0
    ensures t == 1.0 ==> b == cp.p4
  {
    var w := Basis(t);
    var b := Point(Combine(w, cp.p0.x, cp.p1.x, cp.p2.x, cp.p3.x, cp.p4.x),
                   Combine(w, cp.p0.y, cp.p1.y, cp.p2.y, cp.p3.y, cp.p4.y));
    if t == 0.0 then
      assert w == Basis(0.0);
      CombineAtEnds(cp.p0.x, cp.p1.x, cp.p2.x, cp.p3.x, cp.p4.x);
      CombineAtEnds(cp.p0.y, cp.p1.y, cp.p2.y, cp.p3.y, cp.p4.y);
      b
    else if t == 1.0 then
      assert w == Basis(1.0);
      CombineAtEnds(cp.p0.x, cp.p1.x, cp.p2.x, cp.p3.x, cp.p4.x);
      CombineAtEnds(cp.p0.y, cp.p1.y, cp.p2.y, cp.p3.y, cp.p4.y);
      b
    else b
  }

  lemma CombineAtEnds(a0: real, a1: real, a2: real, a3: real, a4: real)
    ensures Combine(Basis(0.0), a0, a1, a2, a3, a4) == a0
    ensures Combine(Basis(1.0), a0, a1, a2, a3, a4) == a4
  {
    BasisAtEnds();
    CombineUnitWeights(a0, a1, a2, a3, a4);
  }

  lemma CombineUnitWeights(a0: real, a1: real, a2: real, a3: real, a4: real)
    ensures Combine(Weights(1.0, 0.0, 0.0, 0.0, 0.0), a0, a1, a2, a3, a4) == a0
    ensures Combine(Weights(0.0, 0.0, 0.0, 0.0, 1.0), a0, a1, a2, a3, a4) == a4
  {
  }

  function Min5(a0: real, a1: real, a2: real, a3: real, a4: real): (m: real)
    ensures m <= a0 && m <= a1 && m <= a2 && m <= a3 && m <= a4
    ensures m == a0 || m == a1 || m == a2 || m == a3 || m == a4
  {
    var m01 := if a0 <= a1 then a0 else a1;
    var m23 := if a2 <= a3 then a2 else a3;
    var m := if m01 <= m23 then m01 else m23;
    if m <= a4 then m else a4
  }

  function Max5(a0: real, a1: real, a2: real, a3: real, a4: real): (m: real)
    ensures m >= a0 && m >= a1 && m >= a2 && m >= a3 && m >= a4
    ensures m == a0 || m == a1 || m == a2 || m == a3 || m == a4
  {
    -Min5(-a0, -a1, -a2, -a3, -a4)
  }

  /** `b` lies in the axis-aligned box spanned by the five control points. */
  predicate InControlBox(b: Point, cp: QuarticControl)
  {
    Min5(cp.p0.x, cp.p1.x, cp.p2.x, cp.p3.x, cp.p4.x) <= b.x <= Max5(cp.p0.x, cp.p1.x, cp.p2.x, cp.p3.x, cp.p4.x)
    && Min5(cp.p0.y, cp.p1.y, cp.p2.y, cp.p3.y, cp.p4.y) <= b.y <= Max5(cp.p0.y, cp.p1.y, cp.p2.y, cp.p3.y, cp.p4.y)
  }

  /** Between t = 0 and t = 1 the curve never leaves its control points' box. */
  lemma QuarticInControlBox(t: real, cp: QuarticControl)
    requires 0.0 <= t <= 1.0
    ensures InControlBox(QuarticAt(t, cp), cp)
  {
    var w := Basis(t);
    BasisNonNegative(t);
    CombineBounded(w, cp.p0.x, cp.p1.x, cp.p2.x, cp.p3.x, cp.p4.x,
      Min5(cp.p0.x, cp.p1.x, cp.p2.x, cp.p3.x, cp.p4.x), Max5(cp.p0.x, cp.p1.x, cp.p2.x, cp.p3.x, cp.p4.x));
    CombineBounded(w, cp.p0.y, cp.p1.y, cp.p2.y, cp.p3.y, cp.p4.y,
      Min5(cp.p0.y, cp.p1.y, cp.p2.y, cp.p3.y, cp.p4.y), Max5(cp.p0.y, cp.p1.y, cp.p2.y, cp.p3.y, cp.p4.y));
  }

  /** `calculate_quartic_bezier_curve_point`: the point at `t`, which must
      lie in `[0, 1]`, which the Python function asserts. */
  function CalculateQuarticBezierCurvePoint(t: real, cp: QuarticControl): (b: Point)
    requires 0.0 <= t <= 1.0
    ensures t == 0.0 ==> b == cp.p0
    ensures t == 1.0 ==> b == cp.p4
    ensures InControlBox(b, cp)
  {
    QuarticInControlBox(t, cp);
    QuarticAt(t, cp)
  }

  /** Evenly spaced control points give a curve that moves along their line
      at constant speed: `B(t) = P0 + 4t(P1 - P0)`. */
  lemma QuarticLinearPrecision(t: real, a: Point, d: Point)
    ensures QuarticAt(t, QuarticControl(a, Point(a.x + d.x, a.y + d.y), Point(a.x + 2.0 * d.x, a.y + 2.0 * d.y),
      Point(a.x + 3.0 * d.x, a.y + 3.0 * d.y), Point(a.x + 4.0 * d.x, a.y + 4.0 * d.y)))
      == Point(a.x + 4.0 * t * d.x, a.y + 4.0 * t * d.y)
  {
    var w := Basis(t);
    assert Combine(w, a.x, a.x + d.x, a.x + 2.0 * d.x, a.x + 3.0 * d.x, a.x + 4.0 * d.x) == a.x + 4.0 * t * d.x;
    assert Combine(w, a.y, a.y + d.y, a.y + 2.0 * d.y, a.y + 3.0 * d.y, a.y + 4.0 * d.y) == a.y + 4.0 * t * d.y;
  }

  /** The diagonal control points (0,0) .. (4,4). */
  const Diagonal: QuarticControl :=
    QuarticControl(Point(0.0, 0.0), Point(1.0, 1.0), Point(2.0, 2.0), Point(3.0, 3.0), Point(4.0, 4.0))

  /** On the diagonal control points the curve at t is (4t, 4t); at t = 0.5
      it is the middle point (2, 2). */
  lemma DiagonalCurve(t: real)
    ensures QuarticAt(t, Diagonal) == Point(4.0 * t, 4.0 * t)
    ensures QuarticAt(0.5, Diagonal) == Point(2.0, 2.0)
  {
    QuarticLinearPrecision(t, Point(0.0, 0.0), Point(1.0, 1.0));
    QuarticLinearPrecision(0.5, Point(0.0, 0.0), Point(1.0, 1.0));
  }

  /** `return_quartic_bezier_curve`: the curve sampled at `num_points`
      evenly spaced parameters. With a single point the sample is `P0`. */
  function ReturnQuarticBezierCurve(cp: QuarticControl, numPoints: nat): (curve: seq<Point>)
    ensures |curve| == numPoints
    ensures numPoints >= 1 ==> curve[0] == cp.p0
    ensures numPoints >= 2 ==> curve[numPoints - 1] == cp.p4
    ensures numPoints == 1 ==> curve == [cp.p0]
    ensures forall i :: 0 <= i < numPoints ==> InControlBox(curve[i], cp)
  {
    var ts := Linspace(numPoints);
    seq(numPoints, i requires 0 <= i < numPoints => CalculateQuarticBezierCurvePoint(ts[i], cp))
  }

  /** The sampled point `i` is the curve at `i / (num_points - 1)`. */
  lemma SampleAt(cp: QuarticControl, numPoints: nat, i: nat)
    requires 2 <= numPoints && i < numPoints
    ensures ReturnQuarticBezierCurve(cp, numPoints)[i] == QuarticAt((i as real) / ((numPoints - 1) as real), cp)
  {
  }

  /** `return_two_quartic_bezier_curves`: both curves sampled at the default
      100 points. */
  function ReturnTwoQuarticBezierCurves(cp1: QuarticControl, cp2: QuarticControl): (r: (seq<Point>, seq<Point>))
    ensures |r.0| == DefaultNumPoints && |r.1| == DefaultNumPoints
    ensures r.0[0] == cp1.p0 && r.0[DefaultNumPoints - 1] == cp1.p4
    ensures r.1[0] == cp2.p0 && r.1[DefaultNumPoints - 1] == cp2.p4
  {
    (ReturnQuarticBezierCurve(cp1, DefaultNumPoints), ReturnQuarticBezierCurve(cp2, DefaultNumPoints))
  }

  /** The control points the error function scores: the given interior
      points between the first and the last coordinate. */
  function WithEnds(control: Interior, coordinates: seq<Point>): (cp: QuarticControl)
    requires |coordinates| > 0
    ensures cp.p0 == coordinates[0] && cp.p4 == coordinates[|coordinates| - 1]
    ensures cp.p1 == control.p1 && cp.p2 == control.p2 && cp.p3 == control.p3
  {
    QuarticControl(coordinates[0], control.p1, control.p2, control.p3, coordinates[|coordinates| - 1])
  }

  /** The sum, over all coordinates, of the squared distance to the curve
      point at that coordinate's time. */
  function SumSquaredResiduals(cp: QuarticControl, coordinates: seq<Point>, times: seq<real>): (e: real)
    requires |times| == |coordinates|
    ensures e >= 0.0
    decreases |coordinates|
  {
    if coordinates == [] then 0.0
    else SqDist(coordinates[0], QuarticAt(times[0], cp)) + SumSquaredResiduals(cp, coordinates[1..], times[1..])
  }

  /** The residual sum vanishes exactly when every coordinate lies on the
      curve at its time. */
  lemma {:induction false} ResidualsZeroIffOnCurve(cp: QuarticControl, coordinates: seq<Point>, times: seq<real>)
    requires |times| == |coordinates|
    ensures SumSquaredResiduals(cp, coordinates, times) == 0.0
      <==> forall i :: 0 <= i < |coordinates| ==> coordinates[i] == QuarticAt(times[i], cp)
    decreases |coordinates|
  {
    if coordinates != [] {
      ResidualsZeroIffOnCurve(cp, coordinates[1..], times[1..]);
      SqDistZero(coordinates[0], QuarticAt(times[0], cp));
      if forall i :: 0 <= i < |coordinates| ==> coordinates[i] == QuarticAt(times[i], cp) {
        assert forall i :: 0 <= i < |coordinates| - 1 ==> coordinates[1..][i] == QuarticAt(times[1..][i], cp) by {
          forall i | 0 <= i < |coordinates| - 1 ensures coordinates[1..][i] == QuarticAt(times[1..][i], cp) {
            assert coordinates[1..][i] == coordinates[i + 1] && times[1..][i] == times[i + 1];
          }
        }
      }
      if SumSquaredResiduals(cp, coordinates, times) == 0.0 {
        forall i | 0 <= i < |coordinates| ensures coordinates[i] == QuarticAt(times[i], cp) {
          if i > 0 {
            assert coordinates[1..][i - 1] == coordinates[i] && times[1..][i - 1] == times[i];
          }
        }
      }
    }
  }

  /** `error_function_quartic`: the squared error of the curve through the
      first and last coordinate with interior points `control`. Indexing
      the first coordinate needs a non-empty list. */
  function ErrorFunctionQuartic(control: Interior, coordinates: seq<Point>, times: seq<real>): (e: real)
    requires |coordinates| > 0 && |times| == |coordinates|
    ensures e >= 0.0
    ensures e == 0.0 <==> forall i :: 0 <= i < |coordinates| ==> coordinates[i] == QuarticAt(times[i], WithEnds(control, coordinates))
  {
    ResidualsZeroIffOnCurve(WithEnds(control, coordinates), coordinates, times);
    SumSquaredResiduals(WithEnds(control, coordinates), coordinates, times)
  }

  /** With all times 0 the curve sits at its first control point, the
      first coordinate, so coordinates that all equal the first one score 0
      whatever the interior points. */
  lemma ErrorZeroAtStart(control: Interior, coordinates: seq<Point>, times: seq<real>)
    requires |coordinates| > 0 && |times| == |coordinates|
    requires forall i :: 0 <= i < |coordinates| ==> times[i] == 0.0 && coordinates[i] == coordinates[0]
    ensures ErrorFunctionQuartic(control, coordinates, times) == 0.0
  {
  }

  /** Interior points that put every coordinate on the curve have error 0,
      which no other interior points can beat. */
  lemma ZeroErrorIsMinimal(control: Interior, other: Interior, coordinates: seq<Point>, times: seq<real>)
    requires |coordinates| > 0 && |times| == |coordinates|
    requires forall i :: 0 <= i < |coordinates| ==> coordinates[i] == QuarticAt(times[i], WithEnds(control, coordinates))
    ensures ErrorFunctionQuartic(control, coordinates, times) == 0.0
    ensures ErrorFunctionQuartic(control, coordinates, times) <= ErrorFunctionQuartic(other, coordinates, times)
  {
  }

  /** The optimiser: given the coordinates and their times, some interior
      control points (scipy's BFGS minimisation of the error function). */
  type Optimiser = (seq<Point>, seq<real>) -> Interior

  /** `fit_quartic_bezier_control_points`: the first and last control
      points are the first and last coordinates; only the three interior
      ones come from the optimiser, run on evenly spaced times. */
  function FitQuarticBezierControlPoints(coordinates: seq<Point>, optimise: Optimiser): (cp: QuarticControl)
    requires |coordinates| > 0
    ensures cp.p0 == coordinates[0] && cp.p4 == coordinates[|coordinates| - 1]
    ensures cp == WithEnds(optimise(coordinates, Linspace(|coordinates|)), coordinates)
  {
    var control := optimise(coordinates, Linspace(|coordinates|));
    QuarticControl(coordinates[0], control.p1, control.p2, control.p3, coordinates[|coordinates| - 1])
  }

  /** When the optimiser reaches zero error, the fitted curve passes through
      every coordinate at its evenly spaced time. */
  lemma FitPassesThroughWhenExact(coordinates: seq<Point>, optimise: Optimiser)
    requires |coordinates| > 0
    requires ErrorFunctionQuartic(optimise(coordinates, Linspace(|coordinates|)), coordinates, Linspace(|coordinates|)) == 0.0
    ensures forall i :: 0 <= i < |coordinates| ==>
      QuarticAt(Linspace(|coordinates|)[i], FitQuarticBezierControlPoints(coordinates, optimise)) == coordinates[i]
  {
  }

  /** Five touches along the diagonal, (0,0) .. (4,4), lie exactly on the
      curve with the diagonal control points at the evenly spaced times, so
      those interior points have error 0, the least possible
      (`ZeroErrorIsMinimal`). */
  lemma StraightLineFit(coordinates: seq<Point>, times: seq<real>)
    requires |coordinates| == 5 && forall k :: 0 <= k < 5 ==> coordinates[k] == Point(k as real, k as real)
    requires times == Linspace(5)
    ensures forall i :: 0 <= i < 5 ==>
      QuarticAt(times[i], WithEnds(Interior(Point(1.0, 1.0), Point(2.0, 2.0), Point(3.0, 3.0)), coordinates)) == coordinates[i]
  {
    DiagonalEnds(coordinates);
    OnDiagonal(coordinates, times);
  }

  lemma DiagonalEnds(coordinates: seq<Point>)
    requires |coordinates| == 5 && forall k :: 0 <= k < 5 ==> coordinates[k] == Point(k as real, k as real)
    ensures WithEnds(Interior(Point(1.0, 1.0), Point(2.0, 2.0), Point(3.0, 3.0)), coordinates) == Diagonal
  {
  }

  lemma OnDiagonal(coordinates: seq<Point>, times: seq<real>)
    requires |coordinates| == 5 && forall k :: 0 <= k < 5 ==> coordinates[k] == Point(k as real, k as real)
    requires times == Linspace(5)
    ensures forall i :: 0 <= i < 5 ==> QuarticAt(times[i], Diagonal) == coordinates[i]
  {
    LinspaceFive();
    forall i | 0 <= i < 5 ensures QuarticAt(times[i], Diagonal) == coordinates[i] {
      var t := (i as real) / 4.0;
      assert times[i] == t;
      DiagonalCurve(t);
      assert 4.0 * t == i as real;
    }
  }

  /** `generate_two_quartic_beziers_control_points`: each stroke fitted on
      its own, each keeping its own endpoints. */
  function GenerateTwoQuarticBeziersControlPoints(curve1: Curve, curve2: Curve, optimise: Optimiser)
    : (r: (QuarticControl, QuarticControl))
    ensures r.0.p0 == curve1[0] && r.0.p4 == Last(curve1)
    ensures r.1.p0 == curve2[0] && r.1.p4 == Last(curve2)
  {
    (FitQuarticBezierControlPoints(curve1, optimise), FitQuarticBezierControlPoints(curve2, optimise))
  }
}
