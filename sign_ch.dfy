/** `is_sign_ch` (the parametric recogniser for 'CH'): the duration gate,
    the two-curve split, a linear Bézier curve per stroke, the start-point
    pairing with the upper and lower templates, and a DTW limit of 5000
    on both pairs. */
module SignCh {
  import opened Geometry
  import opened Verdicts
  import opened Recognition
  import opened Pairing

  const DistanceLimit: real := 5000.0

  /** `generate_two_linear_beziers(curve1, curve2)` of the parametric
      package: one sampled curve per stroke. */
  type LinearGenerator = (Curve, Curve) -> (Curve, Curve)

  /** The curves fitted to a successful split, paired with the templates. */
  function PairedCurves(curve1: Curve, curve2: Curve, generate: LinearGenerator, upper: Curve, lower: Curve): (p: Pairs)
    ensures p.user1 == generate(curve1, curve2).0 && p.user2 == generate(curve1, curve2).1
    ensures multiset{p.template1, p.template2} == multiset{upper, lower}
  {
    var users := generate(curve1, curve2);
    PairingUsesEachTemplateOnce(users.0, users.1, upper, lower);
    PairByStart(users.0, users.1, upper, lower)
  }

  /** The two DTW scores, user curve 1's first. The templates are paired
      by the start of user curve 1 only: when it is strictly closer to the
      upper template's start, the scores are user 1 against upper and user 2
      against lower; otherwise the swap. */
  function PairScores(curve1: Curve, curve2: Curve, generate: LinearGenerator, dtw: Dtw, upper: Curve, lower: Curve): (s: (real, real))
    ensures var u := generate(curve1, curve2);
      SqDist(u.0[0], upper[0]) < SqDist(u.0[0], lower[0]) ==> s == (dtw(u.0, upper), dtw(u.1, lower))
    ensures var u := generate(curve1, curve2);
      SqDist(u.0[0], upper[0]) >= SqDist(u.0[0], lower[0]) ==> s == (dtw(u.0, lower), dtw(u.1, upper))
  {
    var p := PairedCurves(curve1, curve2, generate, upper, lower);
    (dtw(p.user1, p.template1), dtw(p.user2, p.template2))
  }

  /** `is_sign_ch`: each gate in turn, the first failing one naming the
      verdict. The duration of a 'CH' is limited to the default 2 seconds. */
  function IsSignCh(timestamps: seq<real>, locations: seq<Point>, split: TwoCurveSplitter,
                    generate: LinearGenerator, dtw: Dtw, upper: Curve, lower: Curve): (v: Verdict)
    requires |timestamps| > 0
    ensures v == DurationTooLong <==> timestamps[|timestamps| - 1] - timestamps[0] > 2.0
    ensures v == SplitFailed <==>
      timestamps[|timestamps| - 1] - timestamps[0] <= 2.0 && split("CH", locations).TwoCurveError?
    ensures Accepted(v) <==>
      timestamps[|timestamps| - 1] - timestamps[0] <= 2.0 && split("CH", locations).TwoCurves?
      && PairScores(split("CH", locations).curve1, split("CH", locations).curve2, generate, dtw, upper, lower).0 <= DistanceLimit
      && PairScores(split("CH", locations).curve1, split("CH", locations).curve2, generate, dtw, upper, lower).1 <= DistanceLimit
    ensures v == Match || v == DurationTooLong || v == SplitFailed || v == DistanceTooLarge
  {
    if !TimestampDurationValid("CH", timestamps) then DurationTooLong
    else match split("CH", locations)
      case TwoCurveError => SplitFailed
      case TwoCurves(curve1, curve2) =>
        var scores := PairScores(curve1, curve2, generate, dtw, upper, lower);
        if BothWithin(scores.0, scores.1, DistanceLimit) then Match else DistanceTooLarge
  }

  /** A gesture that is too slow is rejected before the split, the curves
      or the templates are looked at. */
  lemma DurationCheckedFirst(timestamps: seq<real>, locations: seq<Point>, split: TwoCurveSplitter, generate: LinearGenerator,
                             dtw: Dtw, upper: Curve, lower: Curve, otherLocations: seq<Point>, otherSplit: TwoCurveSplitter,
                             otherGenerate: LinearGenerator, otherDtw: Dtw)
    requires |timestamps| > 0 && !TimestampDurationValid("CH", timestamps)
    ensures IsSignCh(timestamps, locations, split, generate, dtw, upper, lower)
         == IsSignCh(timestamps, otherLocations, otherSplit, otherGenerate, otherDtw, upper, lower)
  {
  }

  /** Lower DTW scores never turn an accepted gesture into a rejected one. */
  lemma AcceptanceMonotoneInScores(timestamps: seq<real>, locations: seq<Point>, split: TwoCurveSplitter,
                                   generate: LinearGenerator, dtw: Dtw, better: Dtw, upper: Curve, lower: Curve)
    requires |timestamps| > 0
    requires forall a, b :: better(a, b) <= dtw(a, b)
    requires Accepted(IsSignCh(timestamps, locations, split, generate, dtw, upper, lower))
    ensures Accepted(IsSignCh(timestamps, locations, split, generate, better, upper, lower))
  {
  }

  /** A one-stroke gesture, for which the splitter raises, is rejected
      even when it is quick enough. */
  lemma OneStrokeRejected(timestamps: seq<real>, locations: seq<Point>, split: TwoCurveSplitter,
                          generate: LinearGenerator, dtw: Dtw, upper: Curve, lower: Curve)
    requires |timestamps| > 0 && timestamps[0] == 0.0 && timestamps[|timestamps| - 1] == 0.9
    requires split("CH", locations) == TwoCurveError
    ensures IsSignCh(timestamps, locations, split, generate, dtw, upper, lower) == SplitFailed
  {
  }
}
