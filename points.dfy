/** Point2D: a point in the XY plane that is also used as a 2D vector
    (src/Geometry/Point2D.cs and the older copy in src/Geometry.cs). */
module Points {
  import opened Wrappers

  /** Coordinates are exact reals; the source's `float`s are not modelled. */
  datatype Point2D = Point2D(x: real, y: real)

  /** Tolerance of `Equals`: each coordinate must differ by strictly less. */
  const Tolerance: real := 0.00001

  function Abs(r: real): (a: real)
    ensures a >= 0.0 && (a == r || a == -r)
  {
    if r < 0.0 then -r else r
  }

  /** `a.Equals(b)` for a non-null Point2D `b`: both coordinate differences
      (b minus a, as the source writes them) are below the tolerance. */
  predicate Near(a: Point2D, b: Point2D)
  {
    Abs(b.x - a.x) < Tolerance && Abs(b.y - a.y) < Tolerance
  }

  /** `a.Equals(obj)`: false for null or for an object of another class,
      otherwise tolerance equality. */
  function Equals(a: Point2D, obj: ObjectRef<Point2D>): (r: bool)
    ensures r <==> obj.SameClass?
                   && -Tolerance < obj.value.x - a.x < Tolerance
                   && -Tolerance < obj.value.y - a.y < Tolerance
  {
    match obj
    case SameClass(b) => Near(a, b)
    case _ => false
  }

  /** `operator +`: component-wise sum. */
  function Add(a: Point2D, b: Point2D): Point2D
  {
    Point2D(a.x + b.x, a.y + b.y)
  }

  /** `operator -`: component-wise difference. */
  function Sub(a: Point2D, b: Point2D): Point2D
  {
    Point2D(a.x - b.x, a.y - b.y)
  }

  /** `operator *`: the scalar 2D cross product. */
  function Cross(a: Point2D, b: Point2D): real
  {
    a.x * b.y - a.y * b.x
  }

  /** Twice the signed area of the triangle abc: positive when c lies to the
      left of the directed line from a to b. */
  function Orient(a: Point2D, b: Point2D, c: Point2D): real
  {
    Cross(Sub(b, a), Sub(c, a))
  }

  lemma EqualsNullOrOtherClass(a: Point2D)
    ensures !Equals(a, NullRef) && !Equals(a, OtherClass)
  {
  }

  lemma NearReflexive(a: Point2D)
    ensures Equals(a, SameClass(a))
  {
  }

  lemma NearSymmetric(a: Point2D, b: Point2D)
    ensures Equals(a, SameClass(b)) == Equals(b, SameClass(a))
  {
  }

  /** Tolerance equality is not transitive: three points spaced 0.6e-5 apart
      along X are pairwise near only as neighbours. */
  lemma NearNotTransitive()
    ensures exists a: Point2D, b: Point2D, c: Point2D ::
              Near(a, b) && Near(b, c) && !Near(a, c)
  {
    var a, b, c := Point2D(0.0, 0.0), Point2D(0.000006, 0.0), Point2D(0.000012, 0.0);
    assert Near(a, b) && Near(b, c) && !Near(a, c);
  }

  /** Adding then subtracting the same vector gives back the point. */
  lemma AddSubRoundTrip(a: Point2D, b: Point2D)
    ensures Sub(Add(a, b), b) == a
  {
  }

  lemma AddCommutative(a: Point2D, b: Point2D)
    ensures Add(a, b) == Add(b, a)
  {
  }

  /** The cross product is antisymmetric, so a vector crossed with itself is 0. */
  lemma CrossAntisymmetric(a: Point2D, b: Point2D)
    ensures Cross(a, b) == -Cross(b, a)
    ensures Cross(a, a) == 0.0
  {
  }

  /** The orientation is the cyclic sum of pairwise cross products, so it
      changes sign when two of its points are exchanged. */
  lemma OrientCyclic(a: Point2D, b: Point2D, c: Point2D)
    ensures Orient(a, b, c) == Cross(a, b) + Cross(b, c) + Cross(c, a)
    ensures Orient(b, a, c) == -Orient(a, b, c)
  {
  }
}
