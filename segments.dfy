/** Segment (src/Geometry/Segment.cs): a directed segment object whose
    endpoints `Swap` exchanges in place, and its axis-line intersections. */
module Segments {
  import opened Wrappers
  import opened Points
  import opened Edges

  class Segment {
    var P: Point2D
    var Q: Point2D
    var Normal: Option<Point2D>

    /** The value the fields currently hold. */
    function Value(): Edge
      reads this
    {
      Edge(P, Q, Normal)
    }

    constructor (p: Point2D, q: Point2D, normal: Option<Point2D>)
      ensures Value() == Edge(p, q, normal)
    {
      P := p;
      Q := q;
      Normal := normal;
    }

    /** Exchanges P and Q through a temporary; Normal is not touched. */
    method Swap()
      modifies this
      ensures Value() == Swapped(old(Value()))
      ensures P == old(Q) && Q == old(P) && Normal == old(Normal)
    {
      var temp := P;
      P := Q;
      Q := temp;
    }
  }

  /** `FindYIntersect(x)`: the point of the segment's line at abscissa x,
      from the slope through P; a vertical segment gives (x, P.Y). */
  function FindYIntersect(e: Edge, x: real): (r: Point2D)
    ensures r.x == x
  {
    if e.p.x == e.q.x then Point2D(x, e.p.y)
    else
      var m := (e.p.y - e.q.y) / (e.p.x - e.q.x);
      Point2D(x, m * x - m * e.p.x + e.p.y)
  }

  /** `FindXIntersect(y)`: the point of the segment's line at ordinate y;
      a horizontal segment gives (P.X, P.Y) whatever y is. */
  function FindXIntersect(e: Edge, y: real): (r: Point2D)
    ensures e.p.y != e.q.y ==> r.y == y
    ensures e.p.y == e.q.y ==> r == e.p
  {
    if e.p.y == e.q.y then Point2D(e.p.x, e.p.y)
    else
      var m := (e.p.x - e.q.x) / (e.p.y - e.q.y);
      Point2D(m * y - m * e.p.y + e.p.x, y)
  }

  /** On a non-vertical segment the interpolation reproduces both endpoints
      and every result lies on the line through P and Q. */
  lemma FindYIntersectInterpolates(e: Edge, x: real)
    requires e.p.x != e.q.x
    ensures FindYIntersect(e, e.p.x) == e.p
    ensures FindYIntersect(e, e.q.x) == e.q
    ensures Orient(e.p, e.q, FindYIntersect(e, x)) == 0.0
  {
    var m := (e.p.y - e.q.y) / (e.p.x - e.q.x);
    assert m * (e.p.x - e.q.x) == e.p.y - e.q.y;
    var y := m * x - m * e.p.x + e.p.y;
    var u, dx, dy := x - e.p.x, e.q.x - e.p.x, e.q.y - e.p.y;
    assert y - e.p.y == m * u;
    var off := m * dx - dy;
    assert off == 0.0;
    assert Orient(e.p, e.q, Point2D(x, y)) == dx * (m * u) - dy * u;
    assert dx * (m * u) - dy * u == off * u;
  }

  /** A vertical segment gives the point (x, P.Y) whatever x is. */
  lemma FindYIntersectVertical(e: Edge, x: real)
    requires e.p.x == e.q.x
    ensures FindYIntersect(e, x) == Point2D(x, e.p.y)
  {
  }

  /** Where the segment straddles the line at x, the intersection lies
      within the segment's range of Y. */
  lemma FindYIntersectWithinSegment(e: Edge, x: real)
    requires IntersectsX(e, x)
    ensures Min(e.p.y, e.q.y) <= FindYIntersect(e, x).y <= Max(e.p.y, e.q.y)
  {
    var m := (e.p.y - e.q.y) / (e.p.x - e.q.x);
    var t := (x - e.p.x) / (e.q.x - e.p.x);
    RatioBetween(x - e.p.x, e.q.x - e.p.x);
    assert m * (e.q.x - e.p.x) == e.q.y - e.p.y;
    assert m * (x - e.p.x) == t * (e.q.y - e.p.y);
    var y := FindYIntersect(e, x).y;
    assert y == e.p.y + t * (e.q.y - e.p.y);
    InterpolationBetween(e.p.y, e.q.y, t);
  }

  /** On a non-horizontal segment the interpolation reproduces both
      endpoints and every result lies on the line through P and Q. */
  lemma FindXIntersectInterpolates(e: Edge, y: real)
    requires e.p.y != e.q.y
    ensures FindXIntersect(e, e.p.y) == e.p
    ensures FindXIntersect(e, e.q.y) == e.q
    ensures Orient(e.p, e.q, FindXIntersect(e, y)) == 0.0
  {
    var m := (e.p.x - e.q.x) / (e.p.y - e.q.y);
    assert m * (e.p.y - e.q.y) == e.p.x - e.q.x;
    var x := m * y - m * e.p.y + e.p.x;
    var v, dx, dy := y - e.p.y, e.q.x - e.p.x, e.q.y - e.p.y;
    assert x - e.p.x == m * v;
    var off := dx - m * dy;
    assert off == 0.0;
    assert Orient(e.p, e.q, Point2D(x, y)) == dx * v - dy * (m * v);
    assert dx * v - dy * (m * v) == off * v;
  }

  /** Where the segment straddles the line at y, the intersection lies
      within the segment's range of X. */
  lemma FindXIntersectWithinSegment(e: Edge, y: real)
    requires IntersectsY(e, y)
    ensures Min(e.p.x, e.q.x) <= FindXIntersect(e, y).x <= Max(e.p.x, e.q.x)
  {
    var m := (e.p.x - e.q.x) / (e.p.y - e.q.y);
    var t := (y - e.p.y) / (e.q.y - e.p.y);
    RatioBetween(y - e.p.y, e.q.y - e.p.y);
    assert m * (e.q.y - e.p.y) == e.q.x - e.p.x;
    assert m * (y - e.p.y) == t * (e.q.x - e.p.x);
    var x := FindXIntersect(e, y).x;
    assert x == e.p.x + t * (e.q.x - e.p.x);
    InterpolationBetween(e.p.x, e.q.x, t);
  }
}
