/** `is_sign_ll`: the duration gate, the two-curve split, one quartic
    Bézier fit per stroke sampled at 100 points, the start-point pairing
    with the upper and lower templates, and a DTW limit of 7000 on both
    pairs. */
module SignLl {
  import opened Geometry
  import opened Verdicts
  import opened Recognition
  import opened Parameterisation
  import opened Pairing

  const DistanceLimit: real := 7000.0

  /** The two sampled user curves: each stroke fitted on its own and
      sampled at 100 points. Each curve starts at its stroke's first touch
      and ends at its last. */
  function UserCurves(curve1: Curve, curve2: Curve, optimise: Optimiser): (u: (Curve, Curve))
    ensures |u.0| == DefaultNumPoints && |u.1| == DefaultNumPoints
    ensures u.0[0] == curve1[0] && u.0[DefaultNumPoints - 1] == Last(curve1)
    ensures u.1[0] == curve2[0] && u.1[DefaultNumPoints - 1] == Last(curve2)
  {
    var control := GenerateTwoQuarticBeziersControlPoints(curve1, curve2, optimise);
    var sampled := ReturnTwoQuarticBezierCurves(control.0, control.1);
    var user1: Curve := sampled.0;
    var user2: Curve := sampled.1;
    (user1, user2)
  }

  /** The user curves of a successful split, paired with the templates. */
  function PairedCurves(curve1: Curve, curve2: Curve, optimise: Optimiser, upper: Curve, lower: Curve): (p: Pairs)
    ensures p.user1 == UserCurves(curve1, curve2, optimise).0 && p.user2 == UserCurves(curve1, curve2, optimise).1
    ensures multiset{p.template1, p.template2} == multiset{upper, lower}
  {
    var users := UserCurves(curve1, curve2, optimise);
    PairingUsesEachTemplateOnce(users.0, users.1, upper, lower);
    PairByStart(users.0, users.1, upper, lower)
  }

  /** `is_sign_ll`: each gate in turn, the first failing one naming the
      verdict. The duration of an 'LL' is limited to 4 seconds. */
  function IsSignLl(timestamps: seq<real>, locations: seq<Point>, split: TwoCurveSplitter,
                    optimise: Optimiser, dtw: Dtw, upper: Curve, lower: Curve): (v: Verdict)
    requires |timestamps| > 0
    ensures v == DurationTooLong <==> timestamps[|timestamps| - 1] - timestamps[0] > 4.0
    ensures v == SplitFailed <==>
      timestamps[|timestamps| - 1] - timestamps[0] <= 4.0 && split("LL", locations).TwoCurveError?
    ensures Accepted(v) <==>
      timestamps[|timestamps| - 1] - timestamps[0] <= 4.0 && split("LL", locations).TwoCurves?
      && dtw(PairedCurves(split("LL", locations).curve1, split("LL", locations).curve2, optimise, upper, lower).user1,
             PairedCurves(split("LL", locations).curve1, split("LL", locations).curve2, optimise, upper, lower).template1) <= DistanceLimit
      && dtw(PairedCurves(split("LL", locations).curve1, split("LL", locations).curve2, optimise, upper, lower).user2,
             PairedCurves(split("LL", locations).curve1, split("LL", locations).curve2, optimise, upper, lower).template2) <= DistanceLimit
    ensures v == Match || v == DurationTooLong || v == SplitFailed || v == DistanceTooLarge
  {
    if !TimestampDurationValid("LL", timestamps) then DurationTooLong
    else match split("LL", locations)
      case TwoCurveError => SplitFailed
      case TwoCurves(curve1, curve2) =>
        var p := PairedCurves(curve1, curve2, optimise, upper, lower);
        if BothWithin(dtw(p.user1, p.template1), dtw(p.user2, p.template2), DistanceLimit) then Match
        else DistanceTooLarge
  }

  /** The fitted curve starts at the stroke's first touch, so the pairing
      is decided by the first touch of stroke 1 alone: it goes with the
      upper template exactly when that touch is strictly closer to the
      upper template's start. The optimiser plays no part. */
  lemma PairingFollowsFirstTouch(curve1: Curve, curve2: Curve, optimise: Optimiser, upper: Curve, lower: Curve)
    ensures SqDist(curve1[0], upper[0]) < SqDist(curve1[0], lower[0]) ==>
      PairedCurves(curve1, curve2, optimise, upper, lower).template1 == upper
      && PairedCurves(curve1, curve2, optimise, upper, lower).template2 == lower
    ensures SqDist(curve1[0], upper[0]) >= SqDist(curve1[0], lower[0]) ==>
      PairedCurves(curve1, curve2, optimise, upper, lower).template1 == lower
      && PairedCurves(curve1, curve2, optimise, upper, lower).template2 == upper
  {
    var users := UserCurves(curve1, curve2, optimise);
    assert users.0[0] == curve1[0];
  }

  /** A gesture that is too slow is rejected before the split, the fit or
      the templates are looked at. */
  lemma DurationCheckedFirst(timestamps: seq<real>, locations: seq<Point>, split: TwoCurveSplitter, optimise: Optimiser,
                             dtw: Dtw, upper: Curve, lower: Curve, otherLocations: seq<Point>, otherSplit: TwoCurveSplitter,
                             otherOptimise: Optimiser, otherDtw: Dtw)
    requires |timestamps| > 0 && !TimestampDurationValid("LL", timestamps)
    ensures IsSignLl(timestamps, locations, split, optimise, dtw, upper, lower)
         == IsSignLl(timestamps, otherLocations, otherSplit, otherOptimise, otherDtw, upper, lower)
  {
  }

  /** Lower DTW scores never turn an accepted gesture into a rejected one. */
  lemma AcceptanceMonotoneInScores(timestamps: seq<real>, locations: seq<Point>, split: TwoCurveSplitter,
                                   optimise: Optimiser, dtw: Dtw, better: Dtw, upper: Curve, lower: Curve)
    requires |timestamps| > 0
    requires forall a, b :: better(a, b) <= dtw(a, b)
    requires Accepted(IsSignLl(timestamps, locations, split, optimise, dtw, upper, lower))
    ensures Accepted(IsSignLl(timestamps, locations, split, optimise, better, upper, lower))
  {
  }

  /** A gesture lasting between the default 2 seconds and 4 seconds is not
      rejected on duration, as 'LL' has the longer limit. */
  lemma FourSecondsAllowed(timestamps: seq<real>, locations: seq<Point>, split: TwoCurveSplitter,
                           optimise: Optimiser, dtw: Dtw, upper: Curve, lower: Curve)
    requires |timestamps| > 0 && timestamps[|timestamps| - 1] - timestamps[0] == 4.0
    ensures IsSignLl(timestamps, locations, split, optimise, dtw, upper, lower) != DurationTooLong
    ensures !TimestampDurationValid("CH", timestamps)
  {
  }
}
