/** What the two-stroke recognisers share: the outside helpers they call
    (the two-curve splitter and the DTW score), the start-point pairing of
    user curves with templates, and the acceptance rule on the two scores. */
module Pairing {
  import opened Geometry

  /** A sequence-distance score between two point sequences (fastdtw or
      exact dynamic time warping, depending on the recogniser). */
  type Dtw = (seq<Point>, seq<Point>) -> real

  /** What `split_touch_locations_two_curves(label, locations)` yields:
      two strokes, or the ValueError it raises. */
  datatype TwoCurveSplit = TwoCurves(curve1: Curve, curve2: Curve) | TwoCurveError

  type TwoCurveSplitter = (string, seq<Point>) -> TwoCurveSplit

  /** Each user curve with the template it is scored against. */
  datatype Pairs = Pairs(user1: Curve, template1: Curve, user2: Curve, template2: Curve)

  /** The pairing rule: user curve 1 goes with the upper template when its
      start is strictly closer to the upper template's start than to the
      lower template's; on a tie or otherwise it goes with the lower one.
      User curve 2 takes the template left over. */
  function PairByStart(user1: Curve, user2: Curve, upper: Curve, lower: Curve): (p: Pairs)
    ensures p.user1 == user1 && p.user2 == user2
    ensures SqDist(user1[0], upper[0]) < SqDist(user1[0], lower[0]) ==> p.template1 == upper && p.template2 == lower
    ensures SqDist(user1[0], upper[0]) >= SqDist(user1[0], lower[0]) ==> p.template1 == lower && p.template2 == upper
  {
    if SqDist(user1[0], upper[0]) < SqDist(user1[0], lower[0]) then Pairs(user1, upper, user2, lower)
    else Pairs(user1, lower, user2, upper)
  }

  /** The rule as written with square roots: with `d1` and `d2` the
      Euclidean distances of user curve 1's start to the two template
      starts, `d1 < d2` selects the upper template first. */
  lemma PairingByDistance(user1: Curve, user2: Curve, upper: Curve, lower: Curve, d1: real, d2: real)
    requires IsDistance(d1, user1[0], upper[0]) && IsDistance(d2, user1[0], lower[0])
    ensures d1 < d2 ==> PairByStart(user1, user2, upper, lower) == Pairs(user1, upper, user2, lower)
    ensures d1 >= d2 ==> PairByStart(user1, user2, upper, lower) == Pairs(user1, lower, user2, upper)
  {
    CompareDistances(d1, user1[0], upper[0], d2, user1[0], lower[0]);
  }

  /** Each template is used exactly once, whichever branch is taken. */
  lemma PairingUsesEachTemplateOnce(user1: Curve, user2: Curve, upper: Curve, lower: Curve)
    ensures multiset{PairByStart(user1, user2, upper, lower).template1, PairByStart(user1, user2, upper, lower).template2}
         == multiset{upper, lower}
  {
  }

  /** User curve 1 always gets a template whose start is at least as close
      to its own start as the other template's. */
  lemma PairingPrefersCloserStart(user1: Curve, user2: Curve, upper: Curve, lower: Curve)
    ensures SqDist(user1[0], PairByStart(user1, user2, upper, lower).template1[0])
         <= SqDist(user1[0], PairByStart(user1, user2, upper, lower).template2[0])
  {
  }

  /** Only user curve 1's first point decides: curves that start at the
      same point get the same templates, whatever user curve 2 is. */
  lemma PairingReadsOnlyFirstStart(user1: Curve, user2: Curve, other1: Curve, other2: Curve, upper: Curve, lower: Curve)
    requires user1[0] == other1[0]
    ensures PairByStart(user1, user2, upper, lower).template1 == PairByStart(other1, other2, upper, lower).template1
    ensures PairByStart(user1, user2, upper, lower).template2 == PairByStart(other1, other2, upper, lower).template2
  {
  }

  /** A start exactly halfway between the template starts is a tie, and a
      tie pairs user curve 1 with the lower template. */
  lemma TieGoesToLower(user1: Curve, user2: Curve, upper: Curve, lower: Curve)
    requires user1[0] == Point(0.0, 0.0) && upper[0] == Point(0.0, -5.0) && lower[0] == Point(0.0, 5.0)
    ensures PairByStart(user1, user2, upper, lower) == Pairs(user1, lower, user2, upper)
  {
    assert SqDist(user1[0], upper[0]) == SqDist(user1[0], lower[0]);
  }

  /** The acceptance rule `not (distance1 > limit or distance2 > limit)`:
      both scores within the limit, the limit itself included. */
  function BothWithin(distance1: real, distance2: real, limit: real): (ok: bool)
    ensures ok <==> distance1 <= limit && distance2 <= limit
  {
    !(distance1 > limit || distance2 > limit)
  }
}
