/** Connector geometry: the cubic Bézier that joins a parent's anchor to a child's anchor. */
module Geometry {

  datatype Point = Point(x: real, y: real)

  /** The four points of an SVG path `M start C c1 c2 end`. */
  datatype Curve = Curve(start: Point, c1: Point, c2: Point, end: Point)

  /** The path from (x1, y1) to (x2, y2): both control points are shifted
      horizontally by half the horizontal distance, each at its own endpoint's y,
      so both sit on the vertical line through the midpoint. */
  function CreatePath(x1: real, y1: real, x2: real, y2: real): (r: Curve)
    ensures r.start == Point(x1, y1) && r.end == Point(x2, y2)
    ensures r.c1 == Point((x1 + x2) / 2.0, y1)
    ensures r.c2 == Point((x1 + x2) / 2.0, y2)
  {
    var deltaX := (x2 - x1) / 2.0;
    Curve(Point(x1, y1), Point(x1 + deltaX, y1), Point(x2 - deltaX, y2), Point(x2, y2))
  }

  /** The same curve traversed from its end to its start. */
  function Reversed(c: Curve): Curve {
    Curve(c.end, c.c2, c.c1, c.start)
  }

  /** One coordinate of a cubic Bézier in Bernstein form, at parameter t. */
  function Bernstein(p0: real, p1: real, p2: real, p3: real, t: real): real {
    var s := 1.0 - t;
    s * s * s * p0 + 3.0 * s * s * t * p1 + 3.0 * s * t * t * p2 + t * t * t * p3
  }

  /** The point of curve c at parameter t (t = 0 is the start, t = 1 the end). */
  function At(c: Curve, t: real): Point {
    Point(Bernstein(c.start.x, c.c1.x, c.c2.x, c.end.x, t),
          Bernstein(c.start.y, c.c1.y, c.c2.y, c.end.y, t))
  }

  /** Swapping the endpoints of a connector draws the same curve backwards. */
  lemma CreatePathReversed(x1: real, y1: real, x2: real, y2: real)
    ensures CreatePath(x2, y2, x1, y1) == Reversed(CreatePath(x1, y1, x2, y2))
  {
  }

  /** The curve passes through both anchors. */
  lemma CreatePathEndpoints(x1: real, y1: real, x2: real, y2: real)
    ensures At(CreatePath(x1, y1, x2, y2), 0.0) == Point(x1, y1)
    ensures At(CreatePath(x1, y1, x2, y2), 1.0) == Point(x2, y2)
  {
  }

  /** The connector is an S-curve symmetric about the midpoint of its anchors:
      the point at 1 - t is the mirror image of the point at t, and the curve
      passes through the midpoint at t = 1/2. */
  lemma CreatePathPointSymmetric(x1: real, y1: real, x2: real, y2: real, t: real)
    ensures At(CreatePath(x1, y1, x2, y2), t).x + At(CreatePath(x1, y1, x2, y2), 1.0 - t).x == x1 + x2
    ensures At(CreatePath(x1, y1, x2, y2), t).y + At(CreatePath(x1, y1, x2, y2), 1.0 - t).y == y1 + y2
    ensures At(CreatePath(x1, y1, x2, y2), 0.5) == Point((x1 + x2) / 2.0, (y1 + y2) / 2.0)
  {
  }

  /** An example: from (0, 0) to (100, 50) the controls are (50, 0) and (50, 50). */
  lemma CreatePathExample()
    ensures CreatePath(0.0, 0.0, 100.0, 50.0)
         == Curve(Point(0.0, 0.0), Point(50.0, 0.0), Point(50.0, 50.0), Point(100.0, 50.0))
  {
  }
}
