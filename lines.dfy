/** Line (src/Geometry/Line.cs and the older copy in src/Geometry.cs): a
    directed segment object with an in-place `Swap`, a cross-product test for
    a proper crossing and a slope-based intersection point. */
module Lines {
  import opened Wrappers
  import opened Points
  import opened Edges

  class Line {
    var P: Point2D
    var Q: Point2D
    var Normal: Option<Point2D>

    /** The value the fields currently hold. */
    function Value(): Edge
      reads this
    {
      Edge(P, Q, Normal)
    }

    constructor (p: Point2D, q: Point2D, normal: Option<Point2D>)
      ensures Value() == Edge(p, q, normal)
    {
      P := p;
      Q := q;
      Normal := normal;
    }

    /** Exchanges P and Q through a temporary; Normal is not touched. */
    method Swap()
      modifies this
      ensures Value() == Swapped(old(Value()))
      ensures P == old(Q) && Q == old(P) && Normal == old(Normal)
    {
      var temp := P;
      P := Q;
      Q := temp;
    }
  }

  /** Strictly opposite signs. */
  predicate Opposite(u: real, v: real)
  {
    (u < 0.0 && v > 0.0) || (u > 0.0 && v < 0.0)
  }

  /** The textbook proper crossing: each segment's endpoints lie strictly on
      opposite sides of the other segment's line. */
  predicate ProperCrossing(a: Edge, b: Edge)
  {
    Opposite(Orient(b.p, b.q, a.p), Orient(b.p, b.q, a.q))
    && Opposite(Orient(a.p, a.q, b.p), Orient(a.p, a.q, b.q))
  }

  /** `a.DoesIntersect(b)`: four strict signs of cross products, the last two
      only looked at when the first two hold. In orientation terms: a starts
      left of b and ends right of it, and b starts right of a and ends left
      of it. */
  function DoesIntersect(a: Edge, b: Edge): (r: bool)
    ensures r <==> Orient(b.p, b.q, a.p) > 0.0 && Orient(b.p, b.q, a.q) < 0.0
                   && Orient(a.p, a.q, b.p) < 0.0 && Orient(a.p, a.q, b.q) > 0.0
  {
    if Cross(Sub(a.p, b.p), Sub(b.q, b.p)) < 0.0 && Cross(Sub(a.q, b.p), Sub(b.q, b.p)) > 0.0 then
      Cross(Sub(b.q, a.p), Sub(a.q, a.p)) < 0.0 && Cross(Sub(b.p, a.p), Sub(a.q, a.p)) > 0.0
    else
      false
  }

  /** Two segments that start at the same point never intersect, and in
      particular no segment intersects itself. */
  lemma DoesIntersectSharedStart(a: Edge, b: Edge)
    requires a.p == b.p
    ensures !DoesIntersect(a, b)
  {
  }

  /** The test is one-sided: if a crosses b, b does not cross a. */
  lemma DoesIntersectAsymmetric(a: Edge, b: Edge)
    ensures DoesIntersect(a, b) ==> !DoesIntersect(b, a)
  {
  }

  /** The orientations of the four endpoints are tied: the drop in a's
      orientation along b equals the rise in b's along a. */
  lemma OrientExchange(a: Edge, b: Edge)
    ensures Orient(b.p, b.q, a.p) - Orient(b.p, b.q, a.q)
         == Orient(a.p, a.q, b.q) - Orient(a.p, a.q, b.p)
  {
    OrientCyclic(b.p, b.q, a.p);
    OrientCyclic(b.p, b.q, a.q);
    OrientCyclic(a.p, a.q, b.q);
    OrientCyclic(a.p, a.q, b.p);
    CrossAntisymmetric(a.p, b.p);
    CrossAntisymmetric(a.q, b.q);
    CrossAntisymmetric(a.p, b.q);
    CrossAntisymmetric(a.q, b.p);
  }

  /** `DoesIntersect` detects exactly the proper crossings in which a
      crosses b from b's left to b's right; the other direction is found
      with a swapped. */
  lemma DoesIntersectIsProperCrossing(a: Edge, b: Edge)
    ensures ProperCrossing(a, b) <==> DoesIntersect(a, b) || DoesIntersect(Swapped(a), b)
  {
    OrientExchange(a, b);
    OrientCyclic(a.p, a.q, b.p);
    OrientCyclic(a.p, a.q, b.q);
  }

  /** The slope `GetIntersection` gives a line: rise over run, except that
      the source also assigns 0 to a vertical segment, whose run is 0. */
  function Slope(e: Edge): real
  {
    if e.p.y != e.q.y && e.p.x != e.q.x then (e.p.y - e.q.y) / (e.p.x - e.q.x) else 0.0
  }

  /** `a.GetIntersection(b)`: solves the two slope-form lines through a.P and
      b.P for x and substitutes into a's. The source divides by the slope
      difference, so equal slopes are excluded. */
  function GetIntersection(a: Edge, b: Edge): (r: Point2D)
    requires Slope(a) != Slope(b)
    ensures r.y == Slope(b) * (r.x - b.p.x) + b.p.y
  {
    var m1 := Slope(a);
    var m2 := Slope(b);
    var x := (m1 * a.p.x - m2 * b.p.x + b.p.y - a.p.y) / (m1 - m2);
    var y := m1 * (x - a.p.x) + a.p.y;
    assert x * (m1 - m2) == m1 * a.p.x - m2 * b.p.x + b.p.y - a.p.y;
    Point2D(x, y)
  }

  /** A segment that is not vertical; for these (horizontal ones included,
      whose slope really is 0) `Slope` is the true slope. */
  predicate NonVertical(e: Edge)
  {
    e.p.x != e.q.x
  }

  /** The slope of a non-vertical segment is its rise over its run. */
  lemma SlopeIsRiseOverRun(e: Edge)
    requires NonVertical(e)
    ensures Slope(e) * (e.p.x - e.q.x) == e.p.y - e.q.y
  {
    if e.p.y == e.q.y {
      assert Slope(e) == 0.0;
    }
  }

  /** The slope-form line of a non-vertical segment through P also passes
      through Q, so every point on it is collinear with the segment. */
  lemma SlopeLineIsSegmentLine(e: Edge, r: Point2D)
    requires NonVertical(e)
    requires r.y == Slope(e) * (r.x - e.p.x) + e.p.y
    ensures Slope(e) * (e.q.x - e.p.x) + e.p.y == e.q.y
    ensures Orient(e.p, e.q, r) == 0.0
  {
    var m := Slope(e);
    SlopeIsRiseOverRun(e);
    var u, z := e.q.x - e.p.x, r.x - e.p.x;
    var offQ, offR := (e.q.y - e.p.y) - m * u, (r.y - e.p.y) - m * z;
    assert offQ == 0.0 && offR == 0.0;
    calc {
      Orient(e.p, e.q, r);
      u * (r.y - e.p.y) - (e.q.y - e.p.y) * z;
      u * offR - offQ * z;
      0.0;
    }
  }

  /** The point `GetIntersection` returns satisfies both slope-form
      equations; for two non-vertical segments it lies on both segments'
      lines. */
  lemma GetIntersectionOnBothLines(a: Edge, b: Edge)
    requires Slope(a) != Slope(b)
    ensures var r := GetIntersection(a, b);
            r.y == Slope(a) * (r.x - a.p.x) + a.p.y
            && r.y == Slope(b) * (r.x - b.p.x) + b.p.y
    ensures NonVertical(a) && NonVertical(b) ==>
              Orient(a.p, a.q, GetIntersection(a, b)) == 0.0
              && Orient(b.p, b.q, GetIntersection(a, b)) == 0.0
  {
    var r := GetIntersection(a, b);
    if NonVertical(a) && NonVertical(b) {
      SlopeLineIsSegmentLine(a, r);
      SlopeLineIsSegmentLine(b, r);
    }
  }

  /** Intersection of the two infinite lines through the segments, for
      segments that are not parallel, whatever their direction. */
  function LineIntersection(a: Edge, b: Edge): (r: Point2D)
    requires Cross(Sub(a.q, a.p), Sub(b.q, b.p)) != 0.0
    ensures Orient(a.p, a.q, r) == 0.0 && Orient(b.p, b.q, r) == 0.0
  {
    var t := Cross(Sub(b.p, a.p), Sub(b.q, b.p)) / Cross(Sub(a.q, a.p), Sub(b.q, b.p));
    var r := Point2D(a.p.x + t * (a.q.x - a.p.x), a.p.y + t * (a.q.y - a.p.y));
    LineIntersectionOnLines(a, b, t, r);
    r
  }

  lemma LineIntersectionOnLines(a: Edge, b: Edge, t: real, r: Point2D)
    requires Cross(Sub(a.q, a.p), Sub(b.q, b.p)) != 0.0
    requires t == Cross(Sub(b.p, a.p), Sub(b.q, b.p)) / Cross(Sub(a.q, a.p), Sub(b.q, b.p))
    requires r == Point2D(a.p.x + t * (a.q.x - a.p.x), a.p.y + t * (a.q.y - a.p.y))
    ensures Orient(a.p, a.q, r) == 0.0 && Orient(b.p, b.q, r) == 0.0
  {
    var d1, d2 := Sub(a.q, a.p), Sub(b.q, b.p);
    var c := Cross(d1, d2);
    assert t * c == Cross(Sub(b.p, a.p), d2);
    calc {
      Orient(a.p, a.q, r);
      d1.x * (t * d1.y) - d1.y * (t * d1.x);
      0.0;
    }
    calc {
      Orient(b.p, b.q, r);
      d2.x * (r.y - b.p.y) - d2.y * (r.x - b.p.x);
      d2.x * (a.p.y - b.p.y) - d2.y * (a.p.x - b.p.x) + t * (d2.x * d1.y - d2.y * d1.x);
      d2.x * (a.p.y - b.p.y) - d2.y * (a.p.x - b.p.x) - t * c;
      0.0;
    }
  }

  /** Two non-parallel lines meet in at most one point. */
  lemma LinesMeetOnce(a: Edge, b: Edge, r1: Point2D, r2: Point2D)
    requires Cross(Sub(a.q, a.p), Sub(b.q, b.p)) != 0.0
    requires Orient(a.p, a.q, r1) == 0.0 && Orient(b.p, b.q, r1) == 0.0
    requires Orient(a.p, a.q, r2) == 0.0 && Orient(b.p, b.q, r2) == 0.0
    ensures r1 == r2
  {
    var d1, d2, w := Sub(a.q, a.p), Sub(b.q, b.p), Sub(r1, r2);
    var c := Cross(d1, d2);
    var e1, e2 := Cross(d1, w), Cross(d2, w);
    assert e1 == Orient(a.p, a.q, r1) - Orient(a.p, a.q, r2);
    assert e2 == Orient(b.p, b.q, r1) - Orient(b.p, b.q, r2);
    assert e1 == 0.0 && e2 == 0.0;
    assert w.x * c == d2.x * e1 - d1.x * e2;
    assert w.y * c == d2.y * e1 - d1.y * e2;
    assert w.x * c == 0.0 && w.y * c == 0.0;
    assert w.x == 0.0 && w.y == 0.0;
  }

  /** Two non-vertical segments with different slopes are not parallel. */
  lemma DifferentSlopesNotParallel(a: Edge, b: Edge)
    requires NonVertical(a) && NonVertical(b) && Slope(a) != Slope(b)
    ensures Cross(Sub(a.q, a.p), Sub(b.q, b.p)) != 0.0
  {
    var m1, m2 := Slope(a), Slope(b);
    var d1, d2 := Sub(a.q, a.p), Sub(b.q, b.p);
    SlopeIsRiseOverRun(a);
    SlopeIsRiseOverRun(b);
    var off1, off2 := d1.y - m1 * d1.x, d2.y - m2 * d2.x;
    assert off1 == 0.0 && off2 == 0.0;
    var k := d1.x * d2.x;
    assert k != 0.0;
    assert Cross(d1, d2) == d1.x * off2 - off1 * d2.x + k * (m2 - m1);
    assert Cross(d1, d2) == k * (m2 - m1);
  }

  /** Wherever the slope form is sound, that is for two non-vertical
      segments (a horizontal one included) with different slopes,
      `GetIntersection` and the line intersection agree. */
  lemma GetIntersectionAgreesWhenNonVertical(a: Edge, b: Edge)
    requires NonVertical(a) && NonVertical(b) && Slope(a) != Slope(b)
    ensures Cross(Sub(a.q, a.p), Sub(b.q, b.p)) != 0.0
    ensures GetIntersection(a, b) == LineIntersection(a, b)
  {
    DifferentSlopesNotParallel(a, b);
    GetIntersectionOnBothLines(a, b);
    LinesMeetOnce(a, b, GetIntersection(a, b), LineIntersection(a, b));
  }

  /** The vertical segment from (2, 0) to (2, 10) and the diagonal from
      (0, 0) to (10, 10) used by the examples below. */
  predicate VerticalAndDiagonal(a: Edge, b: Edge)
  {
    a.p == Point2D(2.0, 0.0) && a.q == Point2D(2.0, 10.0)
    && b.p == Point2D(0.0, 0.0) && b.q == Point2D(10.0, 10.0)
  }

  lemma VerticalAndDiagonalSlopes(a: Edge, b: Edge)
    requires VerticalAndDiagonal(a, b)
    ensures Slope(a) == 0.0 && Slope(b) == 1.0
  {
  }

  /** A vertical segment gets slope 0, so its line is taken to be the
      horizontal line through P: the line x = 2 crossed with y = x gives
      (0, 0), a point off the vertical line. */
  lemma GetIntersectionVerticalMisplaced(a: Edge, b: Edge)
    requires VerticalAndDiagonal(a, b)
    ensures Slope(a) != Slope(b)
    ensures GetIntersection(a, b) == Point2D(0.0, 0.0)
    ensures Orient(a.p, a.q, GetIntersection(a, b)) == 20.0
  {
    VerticalAndDiagonalSlopes(a, b);
    var r := GetIntersection(a, b);
    assert r.x == (0.0 * 2.0 - 1.0 * 0.0 + 0.0 - 0.0) / (0.0 - 1.0);
    assert r.y == 0.0 * (r.x - 2.0) + 0.0;
    assert r == Point2D(0.0, 0.0);
  }

  /** A horizontal segment through y = 1 and a vertical one through x = 2. */
  predicate HorizontalAndVertical(h: Edge, v: Edge)
  {
    h.p == Point2D(0.0, 1.0) && h.q == Point2D(5.0, 1.0)
    && v.p == Point2D(2.0, 0.0) && v.q == Point2D(2.0, 5.0)
  }

  /** A horizontal and a vertical segment both get slope 0, so the source
      divides by zero although the lines cross at a single point. */
  lemma GetIntersectionAxisPairUndefined(h: Edge, v: Edge)
    requires HorizontalAndVertical(h, v)
    ensures Slope(h) == Slope(v)
    ensures Cross(Sub(h.q, h.p), Sub(v.q, v.p)) == 25.0
  {
    assert Sub(h.q, h.p) == Point2D(5.0, 0.0) && Sub(v.q, v.p) == Point2D(0.0, 5.0);
  }
}
