/** `split_touch_locations`: a single greedy pass that separates the touches
    of a two-finger sign into two strokes. Each touch after the first joins
    the first stroke when it lies within 10 pixels of that stroke's current
    last touch, and the second stroke otherwise; the second stroke is never
    consulted, so a touch may rejoin the first stroke after others went to
    the second. */
module Segmentation {
  import opened Geometry

  /** The inclusive joining distance, in pixels. */
  const SplitThreshold: real := 10.0

  /** `q` is within the joining distance of `p`, compared by squares. */
  predicate Near(p: Point, q: Point)
  {
    SqDist(p, q) <= Sq(SplitThreshold)
  }

  /** The two strokes; the first always holds the first touch. */
  datatype Strokes = Strokes(curve1: Curve, curve2: seq<Point>)

  /** The split of the first `n` touches. */
  function SplitPrefix(locations: seq<Point>, n: nat): (r: Strokes)
    requires 1 <= n <= |locations|
    ensures r.curve1[0] == locations[0]
    ensures |r.curve1| + |r.curve2| == n
    decreases n
  {
    if n == 1 then Strokes([locations[0]], [])
    else
      var prev := SplitPrefix(locations, n - 1);
      var p := locations[n - 1];
      if Near(p, Last(prev.curve1)) then Strokes(prev.curve1 + [p], prev.curve2)
      else Strokes(prev.curve1, prev.curve2 + [p])
  }

  /** The split of all the touches. */
  function Split(locations: seq<Point>): (r: Strokes)
    requires |locations| > 0
    ensures r.curve1[0] == locations[0]
    ensures |r.curve1| + |r.curve2| == |locations|
  {
    SplitPrefix(locations, |locations|)
  }

  /** `split_touch_locations` (found identically in two files): the first
      touch starts curve1, then every later touch is appended to curve1 or
      curve2. Indexing the first touch needs a non-empty list. */
  method SplitTouchLocations(locations: seq<Point>) returns (curve1: seq<Point>, curve2: seq<Point>)
    requires |locations| > 0
    ensures |curve1| > 0 && Strokes(curve1, curve2) == Split(locations)
    ensures curve1[0] == locations[0] && |curve1| + |curve2| == |locations|
  {
    curve1 := [locations[0]];
    curve2 := [];
    for i := 1 to |locations|
      invariant |curve1| > 0 && Strokes(curve1, curve2) == SplitPrefix(locations, i)
    {
      if Near(locations[i], curve1[|curve1| - 1]) {
        curve1 := curve1 + [locations[i]];
      } else {
        curve2 := curve2 + [locations[i]];
      }
    }
  }

  /** Squared comparison against 100 is `split_touch_locations`'s
      `distance(...) <= 10`. */
  lemma NearIffWithinThreshold(d: real, p: Point, q: Point)
    requires IsDistance(d, p, q)
    ensures Near(p, q) <==> d <= SplitThreshold
  {
    WithinDistance(d, p, q, SplitThreshold);
  }

  /** Which stroke each of the first `n` touches went to (true: curve1). */
  ghost function Sides(locations: seq<Point>, n: nat): (sides: seq<bool>)
    requires 1 <= n <= |locations|
    ensures |sides| == n && sides[0]
    decreases n
  {
    if n == 1 then [true]
    else Sides(locations, n - 1) + [Near(locations[n - 1], Last(SplitPrefix(locations, n - 1).curve1))]
  }

  /** The touches of `s` whose side is `side`, in their original order. */
  ghost function Keep(s: seq<Point>, sides: seq<bool>, side: bool): seq<Point>
    requires |sides| == |s|
    decreases |s|
  {
    if s == [] then []
    else
      var rest := Keep(s[..|s| - 1], sides[..|s| - 1], side);
      if sides[|s| - 1] == side then rest + [s[|s| - 1]] else rest
  }

  /** The two sides of a routing share out the touches without loss. */
  lemma {:induction false} KeepPartition(s: seq<Point>, sides: seq<bool>)
    requires |sides| == |s|
    ensures multiset(Keep(s, sides, true)) + multiset(Keep(s, sides, false)) == multiset(s)
    decreases |s|
  {
    if s != [] {
      var n := |s| - 1;
      KeepPartition(s[..n], sides[..n]);
      assert s == s[..n] + [s[n]];
    }
  }

  /** curve1 is exactly the touches routed to it and curve2 the rest, each
      in input order: both strokes are subsequences of the input. */
  lemma {:induction false} SplitIsRouting(locations: seq<Point>, n: nat)
    requires 1 <= n <= |locations|
    ensures SplitPrefix(locations, n).curve1 == Keep(locations[..n], Sides(locations, n), true)
    ensures SplitPrefix(locations, n).curve2 == Keep(locations[..n], Sides(locations, n), false)
    decreases n
  {
    var s, sides := locations[..n], Sides(locations, n);
    if n == 1 {
      assert s[..0] == [] && sides[..0] == [];
    } else {
      SplitIsRouting(locations, n - 1);
      var near := Near(locations[n - 1], Last(SplitPrefix(locations, n - 1).curve1));
      assert sides == Sides(locations, n - 1) + [near];
      assert s[..n - 1] == locations[..n - 1] && s[n - 1] == locations[n - 1];
      assert sides[..n - 1] == Sides(locations, n - 1) && sides[n - 1] == near;
    }
  }

  /** Together the two strokes hold every touch exactly once. */
  lemma SplitIsPartition(locations: seq<Point>)
    requires |locations| > 0
    ensures multiset(Split(locations).curve1) + multiset(Split(locations).curve2) == multiset(locations)
  {
    var n := |locations|;
    SplitIsRouting(locations, n);
    KeepPartition(locations[..n], Sides(locations, n));
    assert locations[..n] == locations;
  }

  /** Proof step for the worked examples: on known strokes, a touch near
      curve1's last touch joins curve1. */
  lemma StepJoins(locations: seq<Point>, i: nat, c1: Curve, c2: seq<Point>, p: Point)
    requires 1 <= i < |locations| && SplitPrefix(locations, i) == Strokes(c1, c2)
    requires locations[i] == p && Near(p, Last(c1))
    ensures SplitPrefix(locations, i + 1) == Strokes(c1 + [p], c2)
  {
  }

  /** Proof step for the worked examples: on known strokes, a touch not
      near curve1's last touch goes to curve2. */
  lemma StepSkips(locations: seq<Point>, i: nat, c1: Curve, c2: seq<Point>, p: Point)
    requires 1 <= i < |locations| && SplitPrefix(locations, i) == Strokes(c1, c2)
    requires locations[i] == p && !Near(p, Last(c1))
    ensures SplitPrefix(locations, i + 1) == Strokes(c1, c2 + [p])
  {
  }

  /** Consecutive touches of curve1 are within the joining distance of each other. */
  lemma {:induction false} Curve1Connected(locations: seq<Point>, n: nat)
    requires 1 <= n <= |locations|
    ensures forall k :: 0 <= k < |SplitPrefix(locations, n).curve1| - 1 ==>
      Near(SplitPrefix(locations, n).curve1[k + 1], SplitPrefix(locations, n).curve1[k])
    decreases n
  {
    if n > 1 {
      Curve1Connected(locations, n - 1);
    }
  }

  /** A touch far from curve1 goes to curve2, yet a later touch close to the
      first returns to curve1: (0,0), (50,50), (5,5) splits into
      [(0,0), (5,5)] and [(50,50)]. */
  lemma RejoinExample()
    ensures Split([Point(0.0, 0.0), Point(50.0, 50.0), Point(5.0, 5.0)])
      == Strokes([Point(0.0, 0.0), Point(5.0, 5.0)], [Point(50.0, 50.0)])
  {
    var a, b, c := Point(0.0, 0.0), Point(50.0, 50.0), Point(5.0, 5.0);
    var locs := [a, b, c];
    StepSkips(locs, 1, [a], [], b);
    StepJoins(locs, 2, [a], [b], c);
  }

  /** Two strokes of three touches separate cleanly. */
  lemma SplitExampleTwoStrokes()
    ensures Split([Point(0.0, 0.0), Point(1.0, 1.0), Point(2.0, 2.0), Point(20.0, 20.0), Point(21.0, 21.0), Point(22.0, 22.0)])
      == Strokes([Point(0.0, 0.0), Point(1.0, 1.0), Point(2.0, 2.0)], [Point(20.0, 20.0), Point(21.0, 21.0), Point(22.0, 22.0)])
  {
    var a, b, c := Point(0.0, 0.0), Point(1.0, 1.0), Point(2.0, 2.0);
    var d, e, f := Point(20.0, 20.0), Point(21.0, 21.0), Point(22.0, 22.0);
    var locs := [a, b, c, d, e, f];
    StepJoins(locs, 1, [a], [], b);
    StepJoins(locs, 2, [a, b], [], c);
    StepSkips(locs, 3, [a, b, c], [], d);
    StepSkips(locs, 4, [a, b, c], [d], e);
    StepSkips(locs, 5, [a, b, c], [d, e], f);
  }

  /** Steps of 11 along the diagonal leave only the first touch in curve1. */
  lemma SplitExampleSteps11()
    ensures Split([Point(0.0, 0.0), Point(11.0, 11.0), Point(22.0, 22.0), Point(33.0, 33.0), Point(44.0, 44.0)])
      == Strokes([Point(0.0, 0.0)], [Point(11.0, 11.0), Point(22.0, 22.0), Point(33.0, 33.0), Point(44.0, 44.0)])
  {
    var a, b, c := Point(0.0, 0.0), Point(11.0, 11.0), Point(22.0, 22.0);
    var d, e := Point(33.0, 33.0), Point(44.0, 44.0);
    var locs := [a, b, c, d, e];
    StepSkips(locs, 1, [a], [], b);
    StepSkips(locs, 2, [a], [b], c);
    StepSkips(locs, 3, [a], [b, c], d);
    StepSkips(locs, 4, [a], [b, c, d], e);
  }

  /** Steps of 5 along the diagonal keep every touch in curve1 and leave
      curve2 empty, without any error. */
  lemma SplitExampleSteps5()
    ensures Split([Point(0.0, 0.0), Point(5.0, 5.0), Point(10.0, 10.0), Point(15.0, 15.0), Point(20.0, 20.0)])
      == Strokes([Point(0.0, 0.0), Point(5.0, 5.0), Point(10.0, 10.0), Point(15.0, 15.0), Point(20.0, 20.0)], [])
  {
    var a, b, c := Point(0.0, 0.0), Point(5.0, 5.0), Point(10.0, 10.0);
    var d, e := Point(15.0, 15.0), Point(20.0, 20.0);
    var locs := [a, b, c, d, e];
    StepJoins(locs, 1, [a], [], b);
    StepJoins(locs, 2, [a, b], [], c);
    StepJoins(locs, 3, [a, b, c], [], d);
    StepJoins(locs, 4, [a, b, c, d], [], e);
  }
}
