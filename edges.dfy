/** The value held by a directed segment object: `Segment`
    (src/Geometry/Segment.cs), `Line` (src/Geometry/Line.cs) and the older
    `Line` in src/Geometry.cs carry the same fields and share the straddle
    tests and length defined here. `EdgeEquals` is the tolerance equality of
    `Segment` and the newer `Line` only; the older `Line` does not override
    `Equals` and so compares by reference. */
module Edges {
  import opened Wrappers
  import opened Points

  /** Directed from `p` to `q`; `normal` is metadata no operation reads. */
  datatype Edge = Edge(p: Point2D, q: Point2D, normal: Option<Point2D>)

  function Min(a: real, b: real): real { if a <= b then a else b }
  function Max(a: real, b: real): real { if a <= b then b else a }

  /** The value after `Swap()`: endpoints exchanged, normal kept. */
  function Swapped(e: Edge): Edge
  {
    Edge(e.q, e.p, e.normal)
  }

  /** The square of `GetLength()`; the source's square root is left out. */
  function SquaredLength(e: Edge): (r: real)
  {
    (e.p.x - e.q.x) * (e.p.x - e.q.x) + (e.p.y - e.q.y) * (e.p.y - e.q.y)
  }

  /** `IntersectsX(x)`: the segment strictly straddles the vertical line at x. */
  function IntersectsX(e: Edge, x: real): (r: bool)
    ensures r <==> Min(e.p.x, e.q.x) < x < Max(e.p.x, e.q.x)
  {
    (e.q.x > x && e.p.x < x) || (e.p.x > x && e.q.x < x)
  }

  /** `IntersectsY(y)`: the segment strictly straddles the horizontal line at y. */
  function IntersectsY(e: Edge, y: real): (r: bool)
    ensures r <==> Min(e.p.y, e.q.y) < y < Max(e.p.y, e.q.y)
  {
    if e.p.y > y && e.q.y < y then true
    else e.q.y > y && e.p.y < y
  }

  /** `Equals(obj)` of Segment and of Line: `obj` must be of the receiver's
      own class, and then `obj.P.Equals(P) && obj.Q.Equals(Q)`. */
  function EdgeEquals(e: Edge, obj: ObjectRef<Edge>): (r: bool)
    ensures r <==> obj.SameClass? && Near(e.p, obj.value.p) && Near(e.q, obj.value.q)
  {
    match obj
    case SameClass(other) =>
      Equals(other.p, SameClass(e.p)) && Equals(other.q, SameClass(e.q))
    case _ => false
  }

  /** A ratio of two same-signed reals, the numerator the smaller in size,
      lies strictly between 0 and 1. */
  lemma RatioBetween(n: real, d: real)
    requires (0.0 < n < d) || (d < n < 0.0)
    ensures 0.0 < n / d < 1.0
  {
    var t := n / d;
    assert t * d == n;
    if d > 0.0 {
      if t <= 0.0 { MulNonNegative(-t, d); }
      if t >= 1.0 { MulNonNegative(t - 1.0, d); }
    } else {
      if t <= 0.0 { MulNonNegative(-t, -d); }
      if t >= 1.0 { MulNonNegative(t - 1.0, -d); }
    }
  }

  /** Linear interpolation with a parameter in [0, 1] stays between the ends. */
  lemma InterpolationBetween(a: real, b: real, t: real)
    requires 0.0 <= t <= 1.0
    ensures Min(a, b) <= a + t * (b - a) <= Max(a, b)
  {
    var d := b - a;
    assert a + t * d == b - (1.0 - t) * d;
    if a <= b {
      MulNonNegative(t, d);
      MulNonNegative(1.0 - t, d);
    } else {
      MulNonNegative(t, -d);
      MulNonNegative(1.0 - t, -d);
    }
  }

  lemma MulNonNegative(u: real, v: real)
    requires u >= 0.0 && v >= 0.0
    ensures u * v >= 0.0
  {
  }

  lemma SwappedInvolution(e: Edge)
    ensures Swapped(Swapped(e)) == e
    ensures Swapped(e).normal == e.normal
  {
  }

  /** The squared length is non-negative, zero for a degenerate segment,
      and does not depend on the direction. */
  lemma SquaredLengthFacts(e: Edge)
    ensures SquaredLength(e) >= 0.0
    ensures e.p == e.q ==> SquaredLength(e) == 0.0
    ensures SquaredLength(Swapped(e)) == SquaredLength(e)
  {
  }

  /** The straddle tests are strict: a segment with an endpoint exactly on
      the line does not straddle it. */
  lemma StraddleStrict(e: Edge, v: real)
    ensures e.p.x == v || e.q.x == v ==> !IntersectsX(e, v)
    ensures e.p.y == v || e.q.y == v ==> !IntersectsY(e, v)
  {
  }

  /** The straddle tests do not depend on the direction of the segment. */
  lemma StraddleSwapInvariant(e: Edge, v: real)
    ensures IntersectsX(Swapped(e), v) == IntersectsX(e, v)
    ensures IntersectsY(Swapped(e), v) == IntersectsY(e, v)
  {
  }

  /** Equality compares P with P and Q with Q and ignores the normal, so a
      segment equals its swapped copy exactly when its endpoints are near. */
  lemma EqualsDirectedIgnoresNormal(e: Edge, n: Option<Point2D>)
    ensures EdgeEquals(e, SameClass(e.(normal := n)))
    ensures EdgeEquals(e, SameClass(Swapped(e))) <==> Near(e.p, e.q)
    ensures !EdgeEquals(e, NullRef) && !EdgeEquals(e, OtherClass)
  {
    NearSymmetric(e.p, e.q);
  }
}
