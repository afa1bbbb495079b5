/** The two recognisers of 'W'. The single-curve one fits one quartic
    Bézier curve to all the touches and accepts a DTW score up to 3000.
    The three-curve one splits the touches into three strokes, fits each,
    assigns every user curve to the template whose start is closest to its
    own start, and accepts when every assigned pair scores at most 5000. */
module SignW {
  import opened Geometry
  import opened Verdicts
  import opened Recognition
  import opened Parameterisation
  import opened Pairing

  const SingleCurveLimit: real := 3000.0
  const ThreeCurveLimit: real := 5000.0

  /** What `split_touch_locations_three_curves(locations)` yields: three
      strokes, or the ValueError it raises. */
  datatype ThreeCurveSplit = ThreeCurves(curve1: Curve, curve2: Curve, curve3: Curve) | ThreeCurveError

  type ThreeCurveSplitter = seq<Point> -> ThreeCurveSplit

  /** One stroke fitted to a quartic and sampled at 100 points; the sample
      runs from the stroke's first touch to its last. */
  function SampledFit(coordinates: Curve, optimise: Optimiser): (c: Curve)
    ensures |c| == DefaultNumPoints
    ensures c[0] == coordinates[0] && c[DefaultNumPoints - 1] == Last(coordinates)
  {
    ReturnQuarticBezierCurve(FitQuarticBezierControlPoints(coordinates, optimise), DefaultNumPoints)
  }

  /** `is_sign_w_single_curve`: the 4-second duration gate, then one DTW
      score against the single template. The touches are only read once
      the gesture is quick enough, and the fit indexes the first one. */
  function IsSignWSingleCurve(timestamps: seq<real>, locations: seq<Point>, optimise: Optimiser,
                              dtw: Dtw, template: Curve): (v: Verdict)
    requires |timestamps| > 0
    requires TimestampDurationValid("W", timestamps) ==> |locations| > 0
    ensures v == DurationTooLong <==> timestamps[|timestamps| - 1] - timestamps[0] > 4.0
    ensures Accepted(v) <==>
      timestamps[|timestamps| - 1] - timestamps[0] <= 4.0 && dtw(SampledFit(locations, optimise), template) <= SingleCurveLimit
    ensures v == Match || v == DurationTooLong || v == DistanceTooLarge
  {
    if !TimestampDurationValid("W", timestamps) then DurationTooLong
    else if dtw(SampledFit(locations, optimise), template) > SingleCurveLimit then DistanceTooLarge
    else Match
  }

  /** The single-curve recogniser compares a curve from the first touch to
      the last, whatever the optimiser returns for the interior. */
  lemma SingleCurveEndpoints(locations: Curve, optimise: Optimiser, other: Optimiser)
    ensures SampledFit(locations, optimise)[0] == SampledFit(locations, other)[0] == locations[0]
    ensures SampledFit(locations, optimise)[DefaultNumPoints - 1] == SampledFit(locations, other)[DefaultNumPoints - 1]
         == Last(locations)
  {
  }

  /** The three user curves: the first two fitted as a pair, the third on
      its own, each sampled at 100 points and starting at its stroke's
      first touch. */
  function ThreeUserCurves(curve1: Curve, curve2: Curve, curve3: Curve, optimise: Optimiser): (users: seq<Curve>)
    ensures |users| == 3
    ensures users[0][0] == curve1[0] && users[1][0] == curve2[0] && users[2][0] == curve3[0]
    ensures forall i :: 0 <= i < 3 ==> |users[i]| == DefaultNumPoints
  {
    var control := GenerateTwoQuarticBeziersControlPoints(curve1, curve2, optimise);
    var sampled := ReturnTwoQuarticBezierCurves(control.0, control.1);
    var user1: Curve := sampled.0;
    var user2: Curve := sampled.1;
    [user1, user2, SampledFit(curve3, optimise)]
  }

  /** `k` is what `np.argmin` returns for `row`: the first index of a
      smallest value. */
  predicate IsFirstArgmin(row: seq<real>, k: int)
  {
    0 <= k < |row|
    && (forall j :: 0 <= j < |row| ==> row[k] <= row[j])
    && (forall j :: 0 <= j < k ==> row[k] < row[j])
  }

  /** A row has only one first index of its minimum. */
  lemma FirstArgminUnique(row: seq<real>, k1: int, k2: int)
    requires IsFirstArgmin(row, k1) && IsFirstArgmin(row, k2)
    ensures k1 == k2
  {
    assert row[k1] <= row[k2] && row[k2] <= row[k1];
  }

  /** The first index of the minimum, found from the left. */
  function FirstArgmin(row: seq<real>): (k: nat)
    requires |row| > 0
    ensures IsFirstArgmin(row, k)
    decreases |row|
  {
    if |row| == 1 then 0
    else
      var n := |row| - 1;
      var k := FirstArgmin(row[..n]);
      assert forall j :: 0 <= j < n ==> row[..n][j] == row[j];
      if row[n] < row[k] then n else k
  }

  /** The loop behind `np.argmin(row)`: keep the first smallest value seen. */
  method Argmin(row: seq<real>) returns (k: nat)
    requires |row| > 0
    ensures k == FirstArgmin(row)
    ensures IsFirstArgmin(row, k)
  {
    k := 0;
    for i := 1 to |row|
      invariant k == FirstArgmin(row[..i])
    {
      assert row[..i + 1][..i] == row[..i];
      if row[i] < row[k] {
        k := i;
      }
    }
    assert row[..|row|] == row;
  }

  /** Two rows that order their entries alike, such as the distances and
      their squares. */
  predicate SameOrder(a: seq<real>, b: seq<real>)
  {
    |a| == |b| && forall i, j :: 0 <= i < |a| && 0 <= j < |a| ==> (a[i] <= a[j] <==> b[i] <= b[j])
  }

  /** Rows that order their entries alike have the same argmin. */
  lemma ArgminOfSameOrder(a: seq<real>, b: seq<real>)
    requires |a| > 0 && SameOrder(a, b)
    ensures FirstArgmin(a) == FirstArgmin(b)
  {
    var k := FirstArgmin(a);
    assert forall j :: 0 <= j < k ==> !(a[j] <= a[k]);
    assert IsFirstArgmin(b, k);
    FirstArgminUnique(b, k, FirstArgmin(b));
  }

  /** The squared distances from a user curve's start to every template's start. */
  function StartDistanceRow(user: Curve, templates: seq<Curve>): (row: seq<real>)
    ensures |row| == |templates|
    ensures forall j :: 0 <= j < |templates| ==> row[j] == SqDist(user[0], templates[j][0])
  {
    seq(|templates|, j requires 0 <= j < |templates| => SqDist(user[0], templates[j][0]))
  }

  /** The argmin over squared distances is the argmin over the Euclidean
      distances `is_sign_w` computes with `euclidean`. */
  lemma ArgminOfDistances(user: Curve, templates: seq<Curve>, distances: seq<real>)
    requires |templates| > 0 && |distances| == |templates|
    requires forall j :: 0 <= j < |templates| ==> IsDistance(distances[j], user[0], templates[j][0])
    ensures FirstArgmin(distances) == FirstArgmin(StartDistanceRow(user, templates))
  {
    var row := StartDistanceRow(user, templates);
    forall i, j | 0 <= i < |distances| && 0 <= j < |distances|
      ensures distances[i] <= distances[j] <==> row[i] <= row[j]
    {
      CompareDistances(distances[i], user[0], templates[i][0], distances[j], user[0], templates[j][0]);
    }
    ArgminOfSameOrder(distances, row);
  }

  /** The nested loops building `distances`: row `i` holds user curve
      `i`'s start distance to each template's start. */
  method StartDistances(users: seq<Curve>, templates: seq<Curve>) returns (distances: seq<seq<real>>)
    ensures |distances| == |users|
    ensures forall i :: 0 <= i < |users| ==> distances[i] == StartDistanceRow(users[i], templates)
  {
    distances := [];
    for i := 0 to |users|
      invariant |distances| == i
      invariant forall k :: 0 <= k < i ==> distances[k] == StartDistanceRow(users[k], templates)
    {
      var row: seq<real> := [];
      for j := 0 to |templates|
        invariant |row| == j
        invariant forall k :: 0 <= k < j ==> row[k] == SqDist(users[i][0], templates[k][0])
      {
        row := row + [SqDist(users[i][0], templates[j][0])];
      }
      assert row == StartDistanceRow(users[i], templates);
      distances := distances + [row];
    }
  }

  /** The template each user curve is assigned to: the first one whose start
      is closest to the user curve's start, each row on its own. */
  function Assignments(users: seq<Curve>, templates: seq<Curve>): (chosen: seq<nat>)
    requires |templates| > 0
    ensures |chosen| == |users|
    ensures forall i :: 0 <= i < |users| ==> chosen[i] < |templates|
    ensures forall i, j :: 0 <= i < |users| && 0 <= j < |templates| ==>
      SqDist(users[i][0], templates[chosen[i]][0]) <= SqDist(users[i][0], templates[j][0])
  {
    seq(|users|, i requires 0 <= i < |users| => FirstArgmin(StartDistanceRow(users[i], templates)))
  }

  /** The loop filling `assignments` with the argmin of every row. */
  method AssignClosest(distances: seq<seq<real>>) returns (assignments: seq<nat>)
    requires forall i :: 0 <= i < |distances| ==> |distances[i]| > 0
    ensures |assignments| == |distances|
    ensures forall i :: 0 <= i < |distances| ==> assignments[i] == FirstArgmin(distances[i])
  {
    assignments := [];
    for i := 0 to |distances|
      invariant |assignments| == i
      invariant forall k :: 0 <= k < i ==> assignments[k] == FirstArgmin(distances[k])
    {
      var k := Argmin(distances[i]);
      assignments := assignments + [k];
    }
  }

  /** A template that `np.argmin` may return for a user curve's row is the
      one the assignment picks. */
  lemma AssignmentIsTheArgmin(users: seq<Curve>, templates: seq<Curve>)
    requires |templates| > 0
    ensures forall i, j :: 0 <= i < |users| && IsFirstArgmin(StartDistanceRow(users[i], templates), j) ==>
      j == Assignments(users, templates)[i]
  {
    forall i, j | 0 <= i < |users| && IsFirstArgmin(StartDistanceRow(users[i], templates), j)
      ensures j == Assignments(users, templates)[i]
    {
      FirstArgminUnique(StartDistanceRow(users[i], templates), j, FirstArgmin(StartDistanceRow(users[i], templates)));
    }
  }

  /** Every user curve scores within the limit against its assigned
      template: against the template whose start is the first closest to
      the user curve's start. */
  predicate AllPairsWithin(users: seq<Curve>, templates: seq<Curve>, dtw: Dtw): (ok: bool)
    requires |templates| > 0
    ensures ok <==> forall i, j :: 0 <= i < |users| && IsFirstArgmin(StartDistanceRow(users[i], templates), j) ==>
      dtw(users[i], templates[j]) <= ThreeCurveLimit
  {
    AssignmentIsTheArgmin(users, templates);
    forall i :: 0 <= i < |users| ==> dtw(users[i], templates[Assignments(users, templates)[i]]) <= ThreeCurveLimit
  }

  /** The final loop: score the pairs in order and stop at the first one
      above the limit. */
  method CheckPairs(users: seq<Curve>, templates: seq<Curve>, assignments: seq<nat>, dtw: Dtw) returns (ok: bool)
    requires |assignments| == |users|
    requires forall i :: 0 <= i < |users| ==> assignments[i] < |templates|
    ensures ok <==> forall i :: 0 <= i < |users| ==> dtw(users[i], templates[assignments[i]]) <= ThreeCurveLimit
  {
    for i := 0 to |users|
      invariant forall k :: 0 <= k < i ==> dtw(users[k], templates[assignments[k]]) <= ThreeCurveLimit
    {
      if dtw(users[i], templates[assignments[i]]) > ThreeCurveLimit {
        return false;
      }
    }
    return true;
  }

  /** `is_sign_w_three_curves`: the duration gate, the three-curve split,
      the fits, the closest-start assignment and the limit on every pair. */
  method IsSignWThreeCurves(timestamps: seq<real>, locations: seq<Point>, split: ThreeCurveSplitter, optimise: Optimiser,
                            dtw: Dtw, template1: Curve, template2: Curve, template3: Curve) returns (v: Verdict)
    requires |timestamps| > 0
    ensures v == DurationTooLong <==> timestamps[|timestamps| - 1] - timestamps[0] > 4.0
    ensures v == SplitFailed <==>
      timestamps[|timestamps| - 1] - timestamps[0] <= 4.0 && split(locations).ThreeCurveError?
    ensures Accepted(v) <==>
      timestamps[|timestamps| - 1] - timestamps[0] <= 4.0 && split(locations).ThreeCurves?
      && AllPairsWithin(ThreeUserCurves(split(locations).curve1, split(locations).curve2, split(locations).curve3, optimise),
                        [template1, template2, template3], dtw)
    ensures v == Match || v == DurationTooLong || v == SplitFailed || v == DistanceTooLarge
  {
    if !TimestampDurationValid("W", timestamps) {
      return DurationTooLong;
    }
    var strokes := split(locations);
    if strokes.ThreeCurveError? {
      return SplitFailed;
    }
    var users := ThreeUserCurves(strokes.curve1, strokes.curve2, strokes.curve3, optimise);
    var templates := [template1, template2, template3];
    var distances := StartDistances(users, templates);
    var assignments := AssignClosest(distances);
    assert assignments == Assignments(users, templates);
    var ok := CheckPairs(users, templates, assignments, dtw);
    v := if ok then Match else DistanceTooLarge;
  }

  /** Rows are assigned independently, so the assignment need not be one to
      one: user curves that start at the same point go to the same template,
      even when another template is then left without a user curve. */
  lemma SameStartSameTemplate(users: seq<Curve>, templates: seq<Curve>, i: nat, k: nat)
    requires |templates| > 0 && i < |users| && k < |users|
    requires users[i][0] == users[k][0]
    ensures Assignments(users, templates)[i] == Assignments(users, templates)[k]
  {
    assert StartDistanceRow(users[i], templates) == StartDistanceRow(users[k], templates);
  }

  /** `np.argmin` examples: a tie goes to the first of the tied indices. */
  lemma ArgminExamples()
    ensures FirstArgmin([3.0, 1.0, 1.0]) == 1
    ensures FirstArgmin([2.0, 2.0, 5.0]) == 0
    ensures FirstArgmin([4.0, 5.0, 0.5]) == 2
  {
    FirstArgminUnique([3.0, 1.0, 1.0], 1, FirstArgmin([3.0, 1.0, 1.0]));
    FirstArgminUnique([2.0, 2.0, 5.0], 0, FirstArgmin([2.0, 2.0, 5.0]));
    FirstArgminUnique([4.0, 5.0, 0.5], 2, FirstArgmin([4.0, 5.0, 0.5]));
  }
}
