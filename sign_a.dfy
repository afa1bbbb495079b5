/** Sign 'A', a tap with the fist: the touch must fall inside a fixed
    circle of the screen. */
module SignA {
  import opened Geometry

  const XC: real := 477.5
  const YC: real := 755.5
  const R: real := 369.5

  const Centre: Point := Point(XC, YC)

  /** `is_touch_inside_circle`: the touch lies in the closed disc of radius
      `R` around the centre, decided by squares as `is_touch_inside_circle`
      does. */
  function IsTouchInsideCircle(x: real, y: real): (inside: bool)
    ensures inside <==> SqDist(Point(x, y), Centre) <= Sq(R)
  {
    Sq(x - XC) + Sq(y - YC) <= Sq(R)
  }

  /** Inside the circle means at most `R` away from the centre. */
  lemma InsideIffWithinRadius(d: real, x: real, y: real)
    requires IsDistance(d, Point(x, y), Centre)
    ensures IsTouchInsideCircle(x, y) <==> d <= R
  {
    WithinDistance(d, Point(x, y), Centre, R);
  }

  /** Every touch inside the circle lies in the circle's bounding square. */
  lemma InsideWithinBoundingSquare(x: real, y: real)
    requires IsTouchInsideCircle(x, y)
    ensures XC - R <= x <= XC + R
    ensures YC - R <= y <= YC + R
  {
    var ax := if x >= XC then x - XC else XC - x;
    var ay := if y >= YC then y - YC else YC - y;
    assert Sq(ax) == Sq(x - XC) && Sq(ay) == Sq(y - YC);
    SquareOrder(ax, R);
    SquareOrder(ay, R);
  }

  /** The centre is inside; the boundary points (477.5, 386.0) and
      (847.0, 755.5), exactly `R` away, are inside; (1000.0, 755.5),
      522.5 away, is outside. */
  lemma CircleExamples()
    ensures IsTouchInsideCircle(477.5, 755.5)
    ensures IsTouchInsideCircle(477.5, 386.0)
    ensures IsTouchInsideCircle(847.0, 755.5)
    ensures !IsTouchInsideCircle(1000.0, 755.5)
  {
  }
}
