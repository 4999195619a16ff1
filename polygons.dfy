/** Polyline and Polygon (src/Geometry/Polyline.cs, src/Geometry/Polygon.cs and
    the older Polygon in src/Geometry.cs): an array of sides with a lazily
    computed area and centroid. The three classes have the same fields and the
    same loops, so they are one class here. */
module Polygons {
  import opened Wrappers
  import opened Points
  import opened Edges

  /** How many times the area and centroid loops run: `Sides.Length - 1`,
      and not at all for an empty array. */
  function LoopCount(sides: seq<Edge>): nat
  {
    if |sides| == 0 then 0 else |sides| - 1
  }

  /** What one iteration of the area loop adds: the cross product of side i's
      own endpoints and the one joining its Q to the next side's P. */
  function AreaTerm(sides: seq<Edge>, i: nat): real
    requires i + 1 < |sides|
  {
    Cross(sides[i].p, sides[i].q) + Cross(sides[i].q, sides[i + 1].p)
  }

  /** The area accumulator after n iterations. */
  function AreaSum(sides: seq<Edge>, n: nat): real
    requires n <= LoopCount(sides)
  {
    if n == 0 then 0.0 else AreaSum(sides, n - 1) + AreaTerm(sides, n - 1)
  }

  /** `CalculateArea()`: the accumulator after the last iteration, halved. */
  function AreaOf(sides: seq<Edge>): real
  {
    AreaSum(sides, LoopCount(sides)) / 2.0
  }

  /** What one iteration of the centroid loop adds to (x, y): each cross
      product of the area loop weighted by the sum of its two points. */
  function MomentTerm(sides: seq<Edge>, i: nat): Point2D
    requires i + 1 < |sides|
  {
    var p, q, next := sides[i].p, sides[i].q, sides[i + 1].p;
    Point2D((p.x + q.x) * Cross(p, q) + (q.x + next.x) * Cross(q, next),
            (p.y + q.y) * Cross(p, q) + (q.y + next.y) * Cross(q, next))
  }

  /** The (x, y) accumulators of the centroid loop after n iterations. */
  function MomentSum(sides: seq<Edge>, n: nat): Point2D
    requires n <= LoopCount(sides)
  {
    if n == 0 then Point2D(0.0, 0.0) else Add(MomentSum(sides, n - 1), MomentTerm(sides, n - 1))
  }

  /** `CalculateCentroid()`: both accumulators divided by six times the area;
      the source divides by zero when the area is zero. */
  function CentroidOf(sides: seq<Edge>): Point2D
    requires AreaOf(sides) != 0.0
  {
    var m := MomentSum(sides, LoopCount(sides));
    Point2D(m.x / (6.0 * AreaOf(sides)), m.y / (6.0 * AreaOf(sides)))
  }

  /** Dividing the finished sums by six times the area gives the centroid. */
  lemma CentroidFromSums(sides: seq<Edge>, i: int, a: real)
    requires AreaOf(sides) != 0.0 && a == AreaOf(sides)
    requires 0 <= i <= LoopCount(sides) && !(i < |sides| - 1)
    ensures i == LoopCount(sides)
    ensures CentroidOf(sides) == Point2D(MomentSum(sides, i).x / (6.0 * a), MomentSum(sides, i).y / (6.0 * a))
  {
  }

  class Polygon {
    const Sides: seq<Edge>
    /** Cached area; 0.0 means "not computed yet". */
    var area: real
    /** Cached centroid; None is the source's null. */
    var centroid: Option<Point2D>
    /** How many times the area loop has run on this object. */
    ghost var areaComputations: nat

    /** The caches hold either nothing or the values the loops compute. */
    ghost predicate Valid()
      reads this
    {
      (area == 0.0 || area == AreaOf(Sides))
      && (centroid.Some? ==> AreaOf(Sides) != 0.0 && centroid.value == CentroidOf(Sides))
    }

    constructor (sides: seq<Edge>)
      ensures Sides == sides && area == 0.0 && centroid == None
      ensures areaComputations == 0
      ensures Valid()
    {
      Sides := sides;
      area := 0.0;
      centroid := None;
      areaComputations := 0;
    }

    /** The area loop, run for i < Sides.Length - 1 as written. */
    method CalculateArea() returns (r: real)
      ensures r == AreaOf(Sides)
    {
      var innerArea := 0.0;
      var i := 0;
      while i < |Sides| - 1
        invariant i <= LoopCount(Sides)
        invariant innerArea == AreaSum(Sides, i)
      {
        innerArea := innerArea + Cross(Sides[i].p, Sides[i].q);
        innerArea := innerArea + Cross(Sides[i].q, Sides[i + 1].p);
        i := i + 1;
      }
      innerArea := innerArea / 2.0;
      return innerArea;
    }

    /** The `Area` getter: runs the loop whenever the cache holds 0.0, so a
        polygon whose area is zero recomputes it on every read. */
    method Area() returns (r: real)
      requires Valid()
      modifies this
      ensures Valid()
      ensures r == AreaOf(Sides)
      ensures area == r && centroid == old(centroid)
      ensures areaComputations == old(areaComputations) + (if old(area) == 0.0 then 1 else 0)
    {
      if area == 0.0 {
        area := CalculateArea();
        areaComputations := areaComputations + 1;
      }
      return area;
    }

    /** The centroid loop, then both sums divided by `6 * Area` (two reads of
        the getter, the second of which hits the cache). */
    method CalculateCentroid() returns (r: Point2D)
      requires Valid() && AreaOf(Sides) != 0.0
      modifies this
      ensures Valid()
      ensures r == CentroidOf(Sides)
      ensures area == AreaOf(Sides) && centroid == old(centroid)
      ensures areaComputations == old(areaComputations) + (if old(area) == 0.0 then 1 else 0)
    {
      var x := 0.0;
      var y := 0.0;
      var i := 0;
      while i < |Sides| - 1
        invariant 0 <= i <= LoopCount(Sides)
        invariant Point2D(x, y) == MomentSum(Sides, i)
        invariant unchanged(this)
      {
        var p, q, next := Sides[i].p, Sides[i].q, Sides[i + 1].p;
        x := x + (p.x + q.x) * Cross(p, q);
        x := x + (q.x + next.x) * Cross(q, next);
        y := y + (p.y + q.y) * Cross(p, q);
        y := y + (q.y + next.y) * Cross(q, next);
        i := i + 1;
      }
      var a := Area();
      x := x / (6.0 * a);
      a := Area();
      y := y / (6.0 * a);
      r := Point2D(x, y);
      CentroidFromSums(Sides, i, a);
    }

    /** The `Centroid` getter: computes and caches on the first read, then
        returns the cached point. */
    method Centroid() returns (r: Point2D)
      requires Valid() && (centroid.Some? || AreaOf(Sides) != 0.0)
      modifies this
      ensures Valid()
      ensures AreaOf(Sides) != 0.0 && r == CentroidOf(Sides)
      ensures centroid == Some(r)
      ensures old(centroid).Some? ==> r == old(centroid).value && area == old(area)
      ensures old(centroid).None? ==> area == AreaOf(Sides)
      ensures areaComputations == old(areaComputations) + (if old(centroid).None? && old(area) == 0.0 then 1 else 0)
    {
      if centroid.None? {
        var c := CalculateCentroid();
        centroid := Some(c);
      }
      return centroid.value;
    }
  }

  /** `operator +` of Polyline and Polygon (the older Polygon has none): a
      new polygon whose sides are a's followed by b's, with empty caches. */
  method Concat(a: Polygon, b: Polygon) returns (c: Polygon)
    ensures fresh(c) && c.Valid()
    ensures c.Sides == a.Sides + b.Sides
    ensures c.area == 0.0 && c.centroid == None && c.areaComputations == 0
  {
    c := new Polygon(a.Sides + b.Sides);
  }

  /** Fewer than two sides: the loops never run, so the area is zero and the
      centroid is undefined (the source divides by zero). */
  lemma ShortAreaZero(sides: seq<Edge>)
    requires |sides| <= 1
    ensures AreaOf(sides) == 0.0
  {
  }

  /** The first k iterations over a + b are the first k over a. */
  lemma {:induction false} AreaSumConcatLeft(a: seq<Edge>, b: seq<Edge>, k: nat)
    requires k <= LoopCount(a)
    ensures k <= LoopCount(a + b) && AreaSum(a + b, k) == AreaSum(a, k)
  {
    if k > 0 {
      AreaSumConcatLeft(a, b, k - 1);
      assert (a + b)[k - 1] == a[k - 1] && (a + b)[k] == a[k];
    }
  }

  /** The iterations over a + b that start inside b are b's iterations. */
  lemma {:induction false} AreaSumConcatRight(a: seq<Edge>, b: seq<Edge>, k: nat)
    requires |a| > 0 && |b| > 0 && k <= LoopCount(b)
    ensures |a| + k <= LoopCount(a + b)
    ensures AreaSum(a + b, |a| + k) == AreaSum(a + b, |a|) + AreaSum(b, k)
  {
    if k > 0 {
      AreaSumConcatRight(a, b, k - 1);
      assert (a + b)[|a| + k - 1] == b[k - 1] && (a + b)[|a| + k] == b[k];
    }
  }

  /** `a + b` (operator +): the area of the joined side array is the two
      areas plus the one iteration that joins a's last side to b's first. */
  lemma AreaOfConcat(a: seq<Edge>, b: seq<Edge>)
    requires |a| > 0 && |b| > 0
    ensures var last := a[|a| - 1];
            AreaOf(a + b)
            == AreaOf(a) + AreaOf(b) + (Cross(last.p, last.q) + Cross(last.q, b[0].p)) / 2.0
  {
    var n := |a| - 1;
    AreaSumConcatLeft(a, b, n);
    assert (a + b)[n] == a[n] && (a + b)[n + 1] == b[0];
    assert AreaSum(a + b, n + 1) == AreaSum(a, n) + AreaTerm(a + b, n);
    AreaSumConcatRight(a, b, LoopCount(b));
  }

  /** Sides joined end to end: each side starts where the previous one ends. */
  predicate Chained(sides: seq<Edge>)
  {
    forall i :: 0 <= i < |sides| - 1 ==> sides[i].q == sides[i + 1].p
  }

  /** Sum of the cross products of the first n sides' own endpoints. */
  function SideCrossSum(sides: seq<Edge>, n: nat): real
    requires n <= |sides|
  {
    if n == 0 then 0.0 else SideCrossSum(sides, n - 1) + Cross(sides[n - 1].p, sides[n - 1].q)
  }

  /** The shoelace area of a closed chain of sides: every side counted once,
      the closing side included. */
  function ClosedAreaOf(sides: seq<Edge>): real
  {
    SideCrossSum(sides, |sides|) / 2.0
  }

  /** On a chain the term joining a side to the next vanishes, so the area
      loop sums the sides' own cross products. */
  lemma {:induction false} ChainedAreaSum(sides: seq<Edge>, n: nat)
    requires Chained(sides) && n <= LoopCount(sides)
    ensures AreaSum(sides, n) == SideCrossSum(sides, n)
  {
    if n > 0 {
      ChainedAreaSum(sides, n - 1);
      assert sides[n - 1].q == sides[n].p;
      CrossAntisymmetric(sides[n - 1].q, sides[n - 1].q);
    }
  }

  /** The loop stops one side early: on a chain, the area misses exactly the
      last side's cross product. */
  lemma ChainedAreaDropsLastSide(sides: seq<Edge>)
    requires Chained(sides) && |sides| > 0
    ensures var last := sides[|sides| - 1];
            AreaOf(sides) == ClosedAreaOf(sides) - Cross(last.p, last.q) / 2.0
  {
    ChainedAreaSum(sides, |sides| - 1);
  }

  /** Every side's contribution to the closed area depends only on that side,
      so joining two side arrays adds their areas. */
  lemma {:induction false} SideCrossSumConcat(a: seq<Edge>, b: seq<Edge>, k: nat)
    requires k <= |b|
    ensures SideCrossSum(a + b, |a| + k) == SideCrossSum(a, |a|) + SideCrossSum(b, k)
  {
    if k == 0 {
      SideCrossSumPrefix(a, b, |a|);
    } else {
      SideCrossSumConcat(a, b, k - 1);
      assert (a + b)[|a| + k - 1] == b[k - 1];
    }
  }

  lemma {:induction false} SideCrossSumPrefix(a: seq<Edge>, b: seq<Edge>, k: nat)
    requires k <= |a|
    ensures SideCrossSum(a + b, k) == SideCrossSum(a, k)
  {
    if k > 0 {
      SideCrossSumPrefix(a, b, k - 1);
      assert (a + b)[k - 1] == a[k - 1];
    }
  }

  lemma ClosedAreaOfConcat(a: seq<Edge>, b: seq<Edge>)
    ensures ClosedAreaOf(a + b) == ClosedAreaOf(a) + ClosedAreaOf(b)
  {
    SideCrossSumConcat(a, b, |b|);
  }

  /** The axis-parallel rectangle with corners (x0, y0) and (x1, y1), as four
      chained sides starting at (x0, y0) and closing there. */
  function Rectangle(x0: real, y0: real, x1: real, y1: real): (r: seq<Edge>)
    ensures |r| == 4 && Chained(r) && r[3].q == r[0].p
  {
    var a, b, c, d := Point2D(x0, y0), Point2D(x1, y0), Point2D(x1, y1), Point2D(x0, y1);
    [Edge(a, b, None), Edge(b, c, None), Edge(c, d, None), Edge(d, a, None)]
  }

  /** The closed shoelace gives a rectangle its width times its height. */
  lemma RectangleClosedArea(x0: real, y0: real, x1: real, y1: real)
    ensures ClosedAreaOf(Rectangle(x0, y0, x1, y1)) == (x1 - x0) * (y1 - y0)
  {
    var r := Rectangle(x0, y0, x1, y1);
    assert SideCrossSum(r, 1) == Cross(r[0].p, r[0].q);
    assert SideCrossSum(r, 2) == SideCrossSum(r, 1) + Cross(r[1].p, r[1].q);
    assert SideCrossSum(r, 3) == SideCrossSum(r, 2) + Cross(r[2].p, r[2].q);
    assert SideCrossSum(r, 4) == SideCrossSum(r, 3) + Cross(r[3].p, r[3].q);
  }

  /** The area as the loop computes it depends on where the rectangle is: it
      is off by half of x0 times the height. */
  lemma RectangleTruncatedArea(x0: real, y0: real, x1: real, y1: real)
    ensures AreaOf(Rectangle(x0, y0, x1, y1)) == (x1 - x0) * (y1 - y0) + x0 * (y1 - y0) / 2.0
  {
    var r := Rectangle(x0, y0, x1, y1);
    ChainedAreaDropsLastSide(r);
    RectangleClosedArea(x0, y0, x1, y1);
  }

  /** The unit square with its lower corner at (1, 1) gets area 1.5. */
  lemma UnitSquareAreaOff()
    ensures AreaOf(Rectangle(1.0, 1.0, 2.0, 2.0)) == 1.5
    ensures ClosedAreaOf(Rectangle(1.0, 1.0, 2.0, 2.0)) == 1.0
  {
    RectangleTruncatedArea(1.0, 1.0, 2.0, 2.0);
    RectangleClosedArea(1.0, 1.0, 2.0, 2.0);
  }

  /** A side's own contribution to the centroid sums: its cross product
      weighted by the sum of its endpoints. */
  function SideMoment(e: Edge): Point2D
  {
    Point2D((e.p.x + e.q.x) * Cross(e.p, e.q), (e.p.y + e.q.y) * Cross(e.p, e.q))
  }

  /** Sum of the first n sides' own moments. */
  function SideMomentSum(sides: seq<Edge>, n: nat): Point2D
    requires n <= |sides|
  {
    if n == 0 then Point2D(0.0, 0.0) else Add(SideMomentSum(sides, n - 1), SideMoment(sides[n - 1]))
  }

  /** The centroid of a closed chain of sides, every side counted once. */
  function ClosedCentroidOf(sides: seq<Edge>): Point2D
    requires ClosedAreaOf(sides) != 0.0
  {
    var m := SideMomentSum(sides, |sides|);
    Point2D(m.x / (6.0 * ClosedAreaOf(sides)), m.y / (6.0 * ClosedAreaOf(sides)))
  }

  /** On a chain the centroid loop, like the area loop, sums the sides' own
      moments and misses the last side's. */
  lemma {:induction false} ChainedMomentSum(sides: seq<Edge>, n: nat)
    requires Chained(sides) && n <= LoopCount(sides)
    ensures MomentSum(sides, n) == SideMomentSum(sides, n)
  {
    if n > 0 {
      ChainedMomentSum(sides, n - 1);
      MomentTermOfChain(sides, n - 1);
    }
  }

  lemma MomentTermOfChain(sides: seq<Edge>, i: nat)
    requires i + 1 < |sides| && sides[i].q == sides[i + 1].p
    ensures MomentTerm(sides, i) == SideMoment(sides[i])
  {
    var q := sides[i].q;
    CrossAntisymmetric(q, q);
    var c := Cross(q, sides[i + 1].p);
    assert c == 0.0;
    ZeroProduct(q.x + sides[i + 1].p.x, c);
    ZeroProduct(q.y + sides[i + 1].p.y, c);
  }

  lemma ZeroProduct(w: real, c: real)
    requires c == 0.0
    ensures w * c == 0.0
  {
  }

  /** The closed centroid of a rectangle is its centre. */
  lemma RectangleClosedCentroid(x0: real, y0: real, x1: real, y1: real)
    requires x0 != x1 && y0 != y1
    ensures ClosedAreaOf(Rectangle(x0, y0, x1, y1)) != 0.0
    ensures ClosedCentroidOf(Rectangle(x0, y0, x1, y1)) == Point2D((x0 + x1) / 2.0, (y0 + y1) / 2.0)
  {
    var r := Rectangle(x0, y0, x1, y1);
    var area := (x1 - x0) * (y1 - y0);
    RectangleClosedArea(x0, y0, x1, y1);
    MulNonZero(x1 - x0, y1 - y0);
    assert SideMomentSum(r, 1) == SideMoment(r[0]);
    assert SideMomentSum(r, 2) == Add(SideMomentSum(r, 1), SideMoment(r[1]));
    assert SideMomentSum(r, 3) == Add(SideMomentSum(r, 2), SideMoment(r[2]));
    assert SideMomentSum(r, 4) == Add(SideMomentSum(r, 3), SideMoment(r[3]));
    var m := SideMomentSum(r, 4);
    assert m.x == 3.0 * (x0 + x1) * area;
    assert m.y == 3.0 * (y0 + y1) * area;
    QuotientOfMultiple(m.x, (x0 + x1) / 2.0, 6.0 * area);
    QuotientOfMultiple(m.y, (y0 + y1) / 2.0, 6.0 * area);
  }

  lemma MulNonZero(a: real, b: real)
    requires a != 0.0 && b != 0.0
    ensures a * b != 0.0
  {
  }

  lemma QuotientOfMultiple(m: real, k: real, d: real)
    requires d != 0.0 && m == k * d
    ensures m / d == k
  {
  }

  /** On a rectangle the centroid loop misses the closing side's moment. */
  lemma RectangleTruncatedMoment(x0: real, y0: real, x1: real, y1: real)
    ensures var m := MomentSum(Rectangle(x0, y0, x1, y1), 3);
            var area := (x1 - x0) * (y1 - y0);
            m.x == 3.0 * (x0 + x1) * area - 2.0 * x0 * x0 * (y0 - y1)
            && m.y == 3.0 * (y0 + y1) * area - (y0 + y1) * x0 * (y0 - y1)
  {
    var r := Rectangle(x0, y0, x1, y1);
    ChainedMomentSum(r, 3);
    assert SideMomentSum(r, 1) == SideMoment(r[0]);
    assert SideMomentSum(r, 2) == Add(SideMomentSum(r, 1), SideMoment(r[1]));
    assert SideMomentSum(r, 3) == Add(SideMomentSum(r, 2), SideMoment(r[2]));
  }

  /** A rectangle with its left side on the Y axis loses nothing to the
      missing closing side, whose cross product is zero: the loops then give
      its true area and its centre, as for the square (0, 0), (10, 0),
      (10, 10), (0, 10) with area 100 and centroid (5, 5). */
  lemma RectangleOnYAxis(x0: real, y0: real, x1: real, y1: real)
    requires x0 == 0.0 && x1 != 0.0 && y0 != y1
    ensures AreaOf(Rectangle(x0, y0, x1, y1)) == x1 * (y1 - y0)
    ensures AreaOf(Rectangle(x0, y0, x1, y1)) != 0.0
    ensures CentroidOf(Rectangle(x0, y0, x1, y1)) == Point2D(x1 / 2.0, (y0 + y1) / 2.0)
  {
    var r := Rectangle(x0, y0, x1, y1);
    var area := (x1 - x0) * (y1 - y0);
    RectangleTruncatedArea(x0, y0, x1, y1);
    MulNonZero(x1 - x0, y1 - y0);
    assert AreaOf(r) == area;
    RectangleTruncatedMoment(x0, y0, x1, y1);
    var m := MomentSum(r, 3);
    assert m.x == 3.0 * (x0 + x1) * area;
    assert m.y == 3.0 * (y0 + y1) * area;
    QuotientOfMultiple(m.x, (x0 + x1) / 2.0, 6.0 * area);
    QuotientOfMultiple(m.y, (y0 + y1) / 2.0, 6.0 * area);
  }

  /** The 10 by 10 square at the origin: area 100, centroid (5, 5). The
      parameter stands for the side length 10; passing it in keeps the
      verifier from evaluating the definitions on literal arguments. */
  lemma SquareExample(side: real)
    requires side == 10.0
    ensures AreaOf(Rectangle(0.0, 0.0, side, side)) == 100.0
    ensures CentroidOf(Rectangle(0.0, 0.0, side, side)) == Point2D(5.0, 5.0)
  {
    RectangleOnYAxis(0.0, 0.0, side, side);
  }

  /** The same contour traversed the other way: the sides in reverse order,
      each one swapped. */
  function Reversed(sides: seq<Edge>): (r: seq<Edge>)
    ensures |r| == |sides|
    ensures forall i :: 0 <= i < |sides| ==> r[i] == Swapped(sides[|sides| - 1 - i])
  {
    if |sides| == 0 then [] else [Swapped(sides[|sides| - 1])] + Reversed(sides[..|sides| - 1])
  }

  /** Reversing a closed contour negates its corrected signed area. */
  lemma {:induction false} ClosedAreaOfReversed(sides: seq<Edge>)
    ensures ClosedAreaOf(Reversed(sides)) == -ClosedAreaOf(sides)
  {
    if |sides| > 0 {
      var init, last := sides[..|sides| - 1], sides[|sides| - 1];
      ClosedAreaOfReversed(init);
      assert sides == init + [last];
      SideCrossSumPrefix(init, [last], |init|);
      SideCrossSumConcat([Swapped(last)], Reversed(init), |init|);
      assert SideCrossSum([Swapped(last)], 1) == Cross(last.q, last.p);
      CrossAntisymmetric(last.p, last.q);
    }
  }

  /** Swapping a side negates its moment. */
  lemma SideMomentSwapped(e: Edge)
    ensures SideMoment(Swapped(e)) == Point2D(-SideMoment(e).x, -SideMoment(e).y)
  {
    CrossAntisymmetric(e.p, e.q);
  }

  /** The sum of the first n sides' moments over a + b is a's up to n. */
  lemma {:induction false} SideMomentSumPrefix(a: seq<Edge>, b: seq<Edge>, k: nat)
    requires k <= |a|
    ensures SideMomentSum(a + b, k) == SideMomentSum(a, k)
  {
    if k > 0 {
      SideMomentSumPrefix(a, b, k - 1);
      assert (a + b)[k - 1] == a[k - 1];
    }
  }

  lemma {:induction false} SideMomentSumConcat(a: seq<Edge>, b: seq<Edge>, k: nat)
    requires k <= |b|
    ensures SideMomentSum(a + b, |a| + k) == Add(SideMomentSum(a, |a|), SideMomentSum(b, k))
  {
    if k == 0 {
      SideMomentSumPrefix(a, b, |a|);
    } else {
      SideMomentSumConcat(a, b, k - 1);
      assert (a + b)[|a| + k - 1] == b[k - 1];
    }
  }

  /** Reversing a closed contour negates both moment sums. */
  lemma {:induction false} SideMomentSumReversed(sides: seq<Edge>)
    ensures var m, n := SideMomentSum(Reversed(sides), |sides|), SideMomentSum(sides, |sides|);
            m == Point2D(-n.x, -n.y)
  {
    if |sides| > 0 {
      var init, last := sides[..|sides| - 1], sides[|sides| - 1];
      SideMomentSumReversed(init);
      assert sides == init + [last];
      SideMomentSumPrefix(init, [last], |init|);
      SideMomentSumConcat([Swapped(last)], Reversed(init), |init|);
      assert SideMomentSum([Swapped(last)], 1) == SideMoment(Swapped(last));
      SideMomentSwapped(last);
    }
  }

  /** The corrected centroid does not depend on the direction of travel. */
  lemma ClosedCentroidOfReversed(sides: seq<Edge>)
    requires ClosedAreaOf(sides) != 0.0
    ensures ClosedAreaOf(Reversed(sides)) != 0.0
    ensures ClosedCentroidOf(Reversed(sides)) == ClosedCentroidOf(sides)
  {
    ClosedAreaOfReversed(sides);
    SideMomentSumReversed(sides);
    var a, m := ClosedAreaOf(sides), SideMomentSum(sides, |sides|);
    assert m.x / (6.0 * a) == -m.x / (6.0 * -a);
    assert m.y / (6.0 * a) == -m.y / (6.0 * -a);
  }

  /** A rectangle traversed the other way: (x0, y0) to (x0, y1) to (x1, y1)
      to (x1, y0) and back. */
  lemma ReversedRectangle(x0: real, y0: real, x1: real, y1: real)
    ensures var a, b, c, d := Point2D(x0, y0), Point2D(x1, y0), Point2D(x1, y1), Point2D(x0, y1);
            Reversed(Rectangle(x0, y0, x1, y1))
              == [Edge(a, d, None), Edge(d, c, None), Edge(c, b, None), Edge(b, a, None)]
  {
  }

  /** The loop's area of a rectangle traversed the other way is not the
      negation of its area the first way round: the two differ in which side
      the loop leaves out. */
  lemma ReversedRectangleTruncatedArea(x0: real, y0: real, x1: real, y1: real)
    ensures AreaOf(Reversed(Rectangle(x0, y0, x1, y1))) == -((x1 - x0) * (y1 - y0)) - y0 * (x1 - x0) / 2.0
  {
    var r := Reversed(Rectangle(x0, y0, x1, y1));
    ReversedRectangle(x0, y0, x1, y1);
    assert Chained(r) && |r| == 4;
    ChainedAreaDropsLastSide(r);
    ClosedAreaOfReversed(Rectangle(x0, y0, x1, y1));
    RectangleClosedArea(x0, y0, x1, y1);
  }

  /** The rectangle (1, 1)-(2, 3) gets area 3 one way round and -2.5 the
      other, although its corrected area is 2 and -2. */
  lemma ReversalDoesNotNegateArea()
    ensures AreaOf(Rectangle(1.0, 1.0, 2.0, 3.0)) == 3.0
    ensures AreaOf(Reversed(Rectangle(1.0, 1.0, 2.0, 3.0))) == -2.5
    ensures ClosedAreaOf(Rectangle(1.0, 1.0, 2.0, 3.0)) == 2.0
    ensures ClosedAreaOf(Reversed(Rectangle(1.0, 1.0, 2.0, 3.0))) == -2.0
  {
    RectangleTruncatedArea(1.0, 1.0, 2.0, 3.0);
    ReversedRectangleTruncatedArea(1.0, 1.0, 2.0, 3.0);
    RectangleClosedArea(1.0, 1.0, 2.0, 3.0);
    ClosedAreaOfReversed(Rectangle(1.0, 1.0, 2.0, 3.0));
  }

  /** The centroid abscissa the loops give a rectangle, in closed form. */
  lemma RectangleTruncatedCentroid(x0: real, y0: real, x1: real, y1: real)
    requires (x1 - x0) * (y1 - y0) + x0 * (y1 - y0) / 2.0 != 0.0
    ensures AreaOf(Rectangle(x0, y0, x1, y1)) != 0.0
    ensures CentroidOf(Rectangle(x0, y0, x1, y1)).x
            == (3.0 * (x0 + x1) * ((x1 - x0) * (y1 - y0)) - 2.0 * x0 * x0 * (y0 - y1))
               / (6.0 * ((x1 - x0) * (y1 - y0) + x0 * (y1 - y0) / 2.0))
  {
    var r := Rectangle(x0, y0, x1, y1);
    RectangleTruncatedArea(x0, y0, x1, y1);
    RectangleTruncatedMoment(x0, y0, x1, y1);
    assert LoopCount(r) == 3;
  }

  /** The unit square with its lower corner at (100, 0) gets area 51 from
      the loop and a centroid abscissa near 67.3, well outside [100, 101].
      The parameters stand for those corners; passing them in keeps the
      verifier from evaluating the definitions on literal arguments. */
  lemma CentroidOutsideBoundingBox(x0: real, y0: real, x1: real, y1: real)
    requires x0 == 100.0 && y0 == 0.0 && x1 == 101.0 && y1 == 1.0
    ensures AreaOf(Rectangle(x0, y0, x1, y1)) == 51.0
    ensures CentroidOf(Rectangle(x0, y0, x1, y1)).x == 20603.0 / 306.0
    ensures CentroidOf(Rectangle(x0, y0, x1, y1)).x < x0
  {
    RectangleTruncatedArea(x0, y0, x1, y1);
    var a := (x1 - x0) * (y1 - y0) + x0 * (y1 - y0) / 2.0;
    var mx := 3.0 * (x0 + x1) * ((x1 - x0) * (y1 - y0)) - 2.0 * x0 * x0 * (y0 - y1);
    CornerSums(x0, y0, x1, y1, a, mx);
    RectangleTruncatedCentroid(x0, y0, x1, y1);
  }

  lemma CornerSums(x0: real, y0: real, x1: real, y1: real, a: real, mx: real)
    requires x0 == 100.0 && y0 == 0.0 && x1 == 101.0 && y1 == 1.0
    requires a == (x1 - x0) * (y1 - y0) + x0 * (y1 - y0) / 2.0
    requires mx == 3.0 * (x0 + x1) * ((x1 - x0) * (y1 - y0)) - 2.0 * x0 * x0 * (y0 - y1)
    ensures a == 51.0 && mx == 20603.0
  {
  }
}
