# Slicer 2D geometry kernel in Dafny

This project models the plane-geometry core of the Slicer 3D-printing slicer. That core is the small set of C# classes used to cut a mesh into layers and reason about each layer's outline:

- `Point2D`: a point that also serves as a vector. It has tolerance equality, `+`, `-`, and `*` as the scalar cross product.
- `Segment` and `Line`: a directed segment from P to Q with an optional normal. Each has an in-place `Swap`, a length, strict straddle tests against axis-parallel lines, and tolerance equality. `Segment` also finds where its line meets an axis-parallel line. `Line` also tests for a crossing and computes the intersection point of two lines.
- `Polyline` and `Polygon`: an array of sides with a lazily cached area (shoelace loop) and centroid, plus `+` to join two side arrays.

Each of `Line`, `Point2D` and `Polygon` has an older copy in `src/Geometry.cs`. Where a copy runs the same code, it is mapped onto the same Dafny definitions as its newer file. Two operations are absent from the older copies. The older `Line` does not override `Equals`, so it compares by reference; `Edges.EdgeEquals` models only `Segment` and the newer `Line`. The older `Polygon` has no `+`, so `Polygons.Concat` models only `Polyline` and the newer `Polygon`.

Structure:

- `wrappers.dfy`: `Option` and `ObjectRef`. `ObjectRef` is an `Equals(object)` argument: null, an object of the receiver's class, or an object of another class.
- `points.dfy`: the `Point2D` value and its operators.
- `edges.dfy`: the `Edge` value (P, Q, Normal) and the operations `Segment` and `Line` share.
- `segments.dfy` and `lines.dfy`: the two classes, whose `Swap` updates fields in place, and their own operations.
- `polygons.dfy`: one class `Polygon` for `Polyline`, `Polygon` and the older `Polygon`. Its `area` and `centroid` cache fields are updated by the getters. The loops are methods proved against recursive specification functions (`AreaOf`, `CentroidOf`). The lemmas characterise those functions.

Coordinates are mathematical reals. The source's `float` arithmetic is not modelled.

## Model

| member | source | states |
|---|---|---|
| `Points.Equals` | src/Geometry/Point2D.cs:29-33 | true exactly when the argument is a non-null `Point2D` and both coordinate differences are strictly between -0.00001 and 0.00001 (same code at src/Geometry.cs:180-188) |
| `Points.EqualsNullOrOtherClass` | src/Geometry/Point2D.cs:31 | a null argument or one of another class is never equal |
| `Points.NearReflexive` | src/Geometry/Point2D.cs:32 | every point equals itself |
| `Points.NearSymmetric` | src/Geometry/Point2D.cs:32 | `a.Equals(b)` and `b.Equals(a)` agree |
| `Points.NearNotTransitive` | src/Geometry/Point2D.cs:32 | tolerance equality is not transitive: there are points a, b, c with a near b, b near c, a not near c |
| `Points.AddSubRoundTrip` | src/Geometry/Point2D.cs:35-43 | `(a + b) - b == a` (operators also at src/Geometry.cs:190-198) |
| `Points.AddCommutative` | src/Geometry/Point2D.cs:35-38 | `a + b == b + a` |
| `Points.CrossAntisymmetric` | src/Geometry/Point2D.cs:48-51 | `a * b == -(b * a)` and `a * a == 0` (same operator at src/Geometry.cs:203-206) |
| `Points.OrientCyclic` | src/Geometry/Point2D.cs:48-51 | the orientation `(b - a) * (c - a)` is the cyclic sum of the pairwise cross products and changes sign when a and b are exchanged |
| `Segments.Segment.constructor` | src/Geometry/Segment.cs:14-19 | the new segment holds exactly the given P, Q and normal |
| `Segments.Segment.Swap` | src/Geometry/Segment.cs:26-31 | P and Q are exchanged in place and the normal is kept |
| `Edges.SwappedInvolution` | src/Geometry/Segment.cs:26-31 | swapping twice restores the segment, and swapping keeps the normal |
| `Edges.SquaredLengthFacts` | src/Geometry/Segment.cs:33-36 | the squared length is non-negative, zero for a degenerate segment and unchanged by `Swap` (same code in Line.cs:34-37 and src/Geometry.cs:114-117) |
| `Edges.IntersectsX` | src/Geometry/Segment.cs:38-41 | true exactly when x lies strictly between the two endpoint abscissas (same code in Line.cs:39-42 and src/Geometry.cs:119-122) |
| `Edges.IntersectsY` | src/Geometry/Segment.cs:43-47 | true exactly when y lies strictly between the two endpoint ordinates (same code in Line.cs:44-48 and src/Geometry.cs:124-128) |
| `Edges.StraddleStrict` | src/Geometry/Line.cs:39-48 | a segment with an endpoint exactly on the line straddles it in neither test |
| `Edges.StraddleSwapInvariant` | src/Geometry.cs:119-128 | both straddle tests give the same answer after `Swap` |
| `Segments.FindYIntersect` | src/Geometry/Segment.cs:49-55 | the returned point has the requested abscissa |
| `Segments.FindYIntersectInterpolates` | src/Geometry/Segment.cs:52-54 | for a non-vertical segment the result is on the segment's line: it reproduces P at P.X and Q at Q.X and is collinear with P and Q |
| `Segments.FindYIntersectVertical` | src/Geometry/Segment.cs:51 | for a vertical segment the result is (x, P.Y) whatever x is |
| `Segments.FindYIntersectWithinSegment` | src/Geometry/Segment.cs:49-55 | when `IntersectsX(x)` holds, the result's ordinate lies between the endpoint ordinates |
| `Segments.FindXIntersect` | src/Geometry/Segment.cs:57-63 | for a non-horizontal segment the result has the requested ordinate; a horizontal one returns P |
| `Segments.FindXIntersectInterpolates` | src/Geometry/Segment.cs:60-62 | for a non-horizontal segment the result reproduces P and Q at their ordinates and is collinear with them |
| `Segments.FindXIntersectWithinSegment` | src/Geometry/Segment.cs:57-63 | when `IntersectsY(y)` holds, the result's abscissa lies between the endpoint abscissas |
| `Edges.EdgeEquals` | src/Geometry/Segment.cs:65-71 | true exactly when the argument is a non-null object of the same class whose P is near P and whose Q is near Q (same code in Line.cs:80-88) |
| `Edges.EqualsDirectedIgnoresNormal` | src/Geometry/Line.cs:80-88 | equality ignores the normal; a segment equals its swapped copy exactly when its endpoints are near each other; null and other classes are unequal |
| `Lines.Line.constructor` | src/Geometry/Line.cs:15-20 | the new line holds exactly the given P, Q and normal (same constructor at src/Geometry.cs:95-100) |
| `Lines.Line.Swap` | src/Geometry/Line.cs:27-32 | P and Q are exchanged in place and the normal is kept (same code at src/Geometry.cs:107-112) |
| `Lines.DoesIntersect` | src/Geometry/Line.cs:50-56 | true exactly when a's P is strictly left of b and a's Q strictly right, and b's P strictly right of a and b's Q strictly left (same code at src/Geometry.cs:130-136) |
| `Lines.DoesIntersectSharedStart` | src/Geometry/Line.cs:53-54 | two lines that start at the same point never intersect, so no line intersects itself |
| `Lines.DoesIntersectAsymmetric` | src/Geometry/Line.cs:50-56 | if a intersects b then b does not intersect a |
| `Lines.OrientExchange` | src/Geometry/Line.cs:53-54 | the four cross products the test reads are tied: the drop of a's orientation along b equals the rise of b's along a |
| `Lines.DoesIntersectIsProperCrossing` | src/Geometry.cs:130-136 | a properly crosses b (each one's endpoints strictly on opposite sides of the other) exactly when a or a swapped intersects b |
| `Lines.GetIntersection` | src/Geometry/Line.cs:58-78 | with different slopes, the returned point is on b's slope-form line through b.P (same code at src/Geometry.cs:138-158) |
| `Lines.SlopeIsRiseOverRun` | src/Geometry/Line.cs:64-72 | for every non-vertical segment, horizontal ones included, the slope the source assigns is the true rise over run |
| `Lines.SlopeLineIsSegmentLine` | src/Geometry/Line.cs:64-67 | for every non-vertical segment, the slope-form line through P also passes through Q, so every point on it is collinear with the segment |
| `Lines.GetIntersectionOnBothLines` | src/Geometry/Line.cs:74-75 | the returned point satisfies both slope-form equations, and for two non-vertical segments it lies on both segments' lines |
| `Lines.GetIntersectionAgreesWhenNonVertical` | src/Geometry.cs:138-158 | for two non-vertical segments (horizontal ones included) with different slopes, `GetIntersection` equals the true intersection of the two lines |
| `Lines.GetIntersectionVerticalMisplaced` | src/Geometry/Line.cs:61-67 | a vertical segment keeps slope 0: x = 2 crossed with y = x gives (0, 0), which is 20 units of orientation off the vertical line |
| `Lines.GetIntersectionAxisPairUndefined` | src/Geometry/Line.cs:74 | a horizontal and a vertical segment both get slope 0, so the source divides by zero although the lines are not parallel |
| `Lines.LineIntersection` | src/Geometry/Line.cs:58-78 | corrected intersection: for any two non-parallel lines the returned point lies on both |
| `Lines.LineIntersectionOnLines` | src/Geometry/Line.cs:74-75 | the point P + t·(Q - P), with t the ratio of two cross products, lies on both lines |
| `Lines.LinesMeetOnce` | src/Geometry/Line.cs:58-78 | two non-parallel lines share at most one point |
| `Lines.DifferentSlopesNotParallel` | src/Geometry/Line.cs:64-74 | two non-vertical segments with different slopes are not parallel |
| `Polygons.Polygon.constructor` | src/Geometry/Polyline.cs:12-15 | the sides are stored and both caches start empty (same for src/Geometry/Polygon.cs:42-45 and src/Geometry.cs:42-45) |
| `Polygons.Polygon.CalculateArea` | src/Geometry/Polyline.cs:32-44 | the loop over i < n-1 (`Sides.Length - 1` iterations, none for no sides), then halved, returns `AreaOf(Sides)` (same loop in src/Geometry/Polygon.cs and src/Geometry.cs:47-59) |
| `Polygons.Polygon.Area` | src/Geometry/Polygon.cs:14-25 | returns `AreaOf(Sides)`; runs the loop and stores its result only when the cache holds 0, so a zero area is recomputed on every read; keeps the cache invariant (same getter in Polyline.cs:20-28 and src/Geometry.cs:14-25) |
| `Polygons.Polygon.CalculateCentroid` | src/Geometry/Polygon.cs:62-82 | returns `CentroidOf(Sides)`: both moment sums divided by six times the area read through the getter; the area loop runs at most once (same code in Polyline.cs:47-67 and src/Geometry.cs:62-82) |
| `Polygons.Polygon.Centroid` | src/Geometry/Polygon.cs:27-38 | returns `CentroidOf(Sides)`; computes and caches it on the first read and afterwards returns the cached point without touching the area; the area loop runs once at most, and only when neither cache is filled (same getter in Polyline.cs:30 and src/Geometry.cs:27-38) |
| `Polygons.Concat` | src/Geometry/Polyline.cs:69-72 | a fresh polygon whose sides are a's followed by b's, with empty caches (same operator in src/Geometry/Polygon.cs:84-87; the older Polygon in src/Geometry.cs has none) |
| `Polygons.AreaOfConcat` | src/Geometry/Polygon.cs:84-87 | the joined polygon's area is the two areas plus the one loop iteration that links a's last side to b's first |
| `Polygons.AreaSumConcatLeft` | src/Geometry/Polyline.cs:71 | the first iterations over a + b are a's |
| `Polygons.AreaSumConcatRight` | src/Geometry/Polyline.cs:71 | the iterations over a + b that start inside b are b's |
| `Polygons.ShortAreaZero` | src/Geometry/Polyline.cs:35 | with fewer than two sides the loop never runs and the area is 0 |
| `Polygons.ChainedAreaSum` | src/Geometry/Polyline.cs:37-38 | on sides joined end to end, the term linking a side to the next vanishes and the loop sums the sides' own cross products |
| `Polygons.ChainedAreaDropsLastSide` | src/Geometry/Polygon.cs:47-59 | on a chain, the computed area is the closed shoelace area minus half the last side's cross product |
| `Polygons.RectangleTruncatedArea` | src/Geometry.cs:47-59 | the computed area of an axis-parallel rectangle is its width times its height plus half of x0 times the height, so it depends on position |
| `Polygons.UnitSquareAreaOff` | src/Geometry/Polyline.cs:32-44 | the unit square with its corner at (1, 1) gets area 1.5, while its closed shoelace area is 1 |
| `Polygons.RectangleClosedArea` | src/Geometry/Polyline.cs:17-19 | corrected area: the closed shoelace gives every axis-parallel rectangle its width times its height |
| `Polygons.SideCrossSumConcat` | src/Geometry/Polyline.cs:69-72 | the closed sums of a + b are a's sum followed by b's |
| `Polygons.SideCrossSumPrefix` | src/Geometry/Polyline.cs:71 | the first k terms of the closed sum over a + b are a's |
| `Polygons.ClosedAreaOfConcat` | src/Geometry/Polygon.cs:84-87 | the corrected area is additive under `+` |
| `Polygons.ChainedMomentSum` | src/Geometry/Polyline.cs:54-60 | on a chain, the centroid loop sums each side's own moment and misses the last side's |
| `Polygons.MomentTermOfChain` | src/Geometry/Polyline.cs:55-60 | the moment of the term linking a side to the next vanishes on a chain |
| `Polygons.RectangleTruncatedMoment` | src/Geometry/Polygon.cs:62-82 | on an axis-parallel rectangle the centroid sums are the closed ones minus the closing side's moment |
| `Polygons.RectangleClosedCentroid` | src/Geometry.cs:62-82 | corrected centroid: the closed sums put every non-degenerate rectangle's centroid at its centre |
| `Polygons.RectangleOnYAxis` | src/Geometry.cs:47-82 | a rectangle whose left side lies on the Y axis loses nothing to the missing closing side: the loops give its width times its height and its centre |
| `Polygons.SquareExample` | src/Geometry/Polygon.cs:47-82 | the square with side 10 at the origin, (0, 0), (10, 0), (10, 10), (0, 10), gets area 100 and centroid (5, 5) |
| `Polygons.Reversed` | src/Geometry/Polygon.cs:47-59 | the contour traversed the other way: as many sides, the i-th being the swap of the i-th from the end |
| `Polygons.ClosedAreaOfReversed` | src/Geometry/Polygon.cs:47-59 | corrected area: traversing a contour the other way negates its signed area |
| `Polygons.SideMomentSwapped` | src/Geometry/Polygon.cs:67-74 | swapping a side negates its own contribution to both centroid sums |
| `Polygons.SideMomentSumReversed` | src/Geometry/Polygon.cs:67-74 | corrected centroid sums: traversing a contour the other way negates both |
| `Polygons.ClosedCentroidOfReversed` | src/Geometry/Polygon.cs:62-82 | corrected centroid: it does not depend on the direction of travel |
| `Polygons.ReversedRectangle` | src/Geometry/Polygon.cs:47-59 | a rectangle reversed is the chain (x0, y0), (x0, y1), (x1, y1), (x1, y0) back to (x0, y0) |
| `Polygons.ReversedRectangleTruncatedArea` | src/Geometry/Polygon.cs:47-59 | the loop gives a reversed rectangle minus its width times its height minus half of y0 times its width, which is not the negation of the other direction's result |
| `Polygons.ReversalDoesNotNegateArea` | src/Geometry/Polygon.cs:50-54 | the rectangle (1, 1)-(2, 3) gets area 3 one way round and -2.5 the other; the corrected areas are 2 and -2 |
| `Polygons.RectangleTruncatedCentroid` | src/Geometry/Polygon.cs:62-82 | the centroid abscissa the loops give any rectangle, in closed form, whenever the loop's area is not zero |
| `Polygons.CentroidOutsideBoundingBox` | src/Geometry/Polygon.cs:62-82 | the unit square with its corner at (100, 0) gets area 51 and a centroid abscissa of 20603/306, about 67.3, outside its bounding box [100, 101] |

## Left out

- Floating point: every `float` is a real. Rounding, overflow to infinity and NaN are not modelled. A division by zero is therefore a precondition: `GetIntersection` with equal slopes, and `CalculateCentroid`/`Centroid` with zero area. In C# these return infinities or NaN.
- `GetLength` takes a square root. The model keeps its square (`SquaredLength`), since reals have no square root here.
- Edges.SquaredLengthFacts: states only that a degenerate segment has squared length 0. It does not state the converse, that squared length 0 means the endpoints coincide.
- The side arrays hold `Segment`/`Line` objects by reference. The model holds their values. A `Swap` on a side after the area was cached would leave the source's cache stale; that aliasing is not modelled.
- `Point2D` in src/Geometry/Point2D.cs has public mutable fields. No core operation writes them, so points are values.
- Null `P`, `Q` or side objects, and null arguments to `DoesIntersect`/`GetIntersection`, are not modelled; `Equals` arguments are (`ObjectRef`).
- That the centroid of a convex contour lies inside its bounding box is proved only for rectangles (`Polygons.RectangleClosedCentroid`, the corrected centroid is the centre). A general convex contour would need a convexity predicate and a sign argument over every side. That proof is not part of this model.
- `ToString` and `ToPair` format numbers as text and are left out.
- The slicing code that builds these objects (src/Slicer.cs, src/models, src/formats) and file input/output are not part of this model.

## Findings

| source | as written | input that shows it | evidently intended | confidence | as-written member | corrected member |
|---|---|---|---|---|---|---|
| src/Geometry/Polygon.cs:50-54 | the shoelace loop runs for i < n-1 and never adds the last side nor the term closing the polygon | the unit square (1,1), (2,1), (2,2), (1,2) gets area 1.5; the rectangle (1,1)-(2,3) gets 3 one way round and -2.5 the other (`Polygons.ReversalDoesNotNegateArea`); the unit square at (100,0) gets centroid abscissa about 67.3, outside [100, 101] (`Polygons.CentroidOutsideBoundingBox`) | sum every side, including the closing one, giving area 1; then reversing a contour negates its area (`Polygons.ClosedAreaOfReversed`) and a rectangle's centroid is its centre (`Polygons.RectangleClosedCentroid`) | high (not executed) | `Polygons.UnitSquareAreaOff` | `Polygons.RectangleClosedArea` |
| src/Geometry/Line.cs:61-74 | a vertical line gets slope 0, the slope of a horizontal line, and x is then solved from slope-form equations | x = 2 crossed with y = x gives (0, 0), not (2, 2); a vertical line crossed with a horizontal one divides by zero | the intersection of the two lines, defined whenever they are not parallel | high (not executed) | `Lines.GetIntersectionVerticalMisplaced` | `Lines.LineIntersection` |
