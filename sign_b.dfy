/** Sign 'B', a tap with the flat hand: at most 20 touches, within the
    sign's time limit, all inside a fixed rectangle of the screen. */
module SignB {
  import opened Geometry
  import opened Verdicts
  import Recognition

  /** Corners of the rectangle; y grows downwards. */
  const RectTopLeft: Point := Point(155.0, 548.5)
  const RectBottomRight: Point := Point(955.0, 1020.5)

  /** The most touch points a tap may produce. */
  const MaxTouchPoints: nat := 20

  /** A touch inside the closed rectangle: the 800 by 472 box centred at
      (555, 784.5). */
  predicate InsideRectangle(p: Point): (inside: bool)
    ensures inside <==> -400.0 <= p.x - 555.0 <= 400.0 && -236.0 <= p.y - 784.5 <= 236.0
  {
    RectTopLeft.x <= p.x <= RectBottomRight.x && RectTopLeft.y <= p.y <= RectBottomRight.y
  }

  /** `locations_inside_rectangle`: scans the touches in order and answers
      false at the first one outside the rectangle. */
  method LocationsInsideRectangle(locations: seq<Point>) returns (inside: bool)
    ensures inside <==> forall i :: 0 <= i < |locations| ==> InsideRectangle(locations[i])
    ensures !inside ==> exists i :: 0 <= i < |locations| && !InsideRectangle(locations[i])
  {
    for k := 0 to |locations|
      invariant forall i :: 0 <= i < k ==> InsideRectangle(locations[i])
    {
      var p := locations[k];
      if !(RectTopLeft.x <= p.x <= RectBottomRight.x && RectTopLeft.y <= p.y <= RectBottomRight.y) {
        return false;
      }
    }
    return true;
  }

  /** `is_sign_b`: the count gate (on timestamps), then the duration gate
      for label 'B', then the rectangle gate, stopping at the first that
      fails. The duration gate indexes the timestamps, so they must not be
      empty. */
  method IsSignB(timestamps: seq<real>, locations: seq<Point>) returns (v: Verdict)
    requires |timestamps| > 0
    ensures |timestamps| > MaxTouchPoints <==> v == TooManyTouchPoints
    ensures v == DurationTooLong <==>
      |timestamps| <= MaxTouchPoints && !Recognition.TimestampDurationValid("B", timestamps)
    ensures v == OutsideRectangle <==>
      |timestamps| <= MaxTouchPoints && Recognition.TimestampDurationValid("B", timestamps)
      && exists i :: 0 <= i < |locations| && !InsideRectangle(locations[i])
    ensures Accepted(v) <==>
      |timestamps| <= MaxTouchPoints
      && timestamps[|timestamps| - 1] - timestamps[0] <= 2.0
      && forall i :: 0 <= i < |locations| ==> InsideRectangle(locations[i])
    ensures v in {Match, TooManyTouchPoints, DurationTooLong, OutsideRectangle}
  {
    if |timestamps| > MaxTouchPoints {
      return TooManyTouchPoints;
    }
    if !Recognition.TimestampDurationValid("B", timestamps) {
      return DurationTooLong;
    }
    var inside := LocationsInsideRectangle(locations);
    if !inside {
      return OutsideRectangle;
    }
    return Match;
  }

  /** Two touches inside; one of two at (1000, 1100) outside. */
  method RectangleExamples() returns (both: bool, oneOut: bool)
    ensures both && !oneOut
  {
    both := LocationsInsideRectangle([Point(200.0, 600.0), Point(300.0, 700.0)]);
    var locs := [Point(200.0, 600.0), Point(1000.0, 1100.0)];
    assert !InsideRectangle(locs[1]);
    oneOut := LocationsInsideRectangle(locs);
  }

  /** A valid tap is accepted; a touch outside, 30 touches, or a 4-second
      tap are each rejected for their own reason. */
  method SignBExamples() returns (valid: Verdict, outside: Verdict, tooMany: Verdict, tooLong: Verdict)
    ensures valid == Match
    ensures outside == OutsideRectangle
    ensures tooMany == TooManyTouchPoints
    ensures tooLong == DurationTooLong
  {
    var three := [Point(200.0, 600.0), Point(300.0, 700.0), Point(400.0, 800.0)];
    valid := IsSignB([1.0, 2.0, 3.0], three);
    var stray := [Point(200.0, 600.0), Point(300.0, 700.0), Point(1000.0, 1100.0)];
    assert !InsideRectangle(stray[2]);
    outside := IsSignB([1.0, 2.0, 3.0], stray);
    var ts30 := [1.0, 2.0, 3.0] + [1.0, 2.0, 3.0] + [1.0, 2.0, 3.0] + [1.0, 2.0, 3.0] + [1.0, 2.0, 3.0]
      + [1.0, 2.0, 3.0] + [1.0, 2.0, 3.0] + [1.0, 2.0, 3.0] + [1.0, 2.0, 3.0] + [1.0, 2.0, 3.0];
    tooMany := IsSignB(ts30, three + three + three + three + three + three + three + three + three + three);
    tooLong := IsSignB([1.0, 5.0], three);
  }
}
