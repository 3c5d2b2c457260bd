/**
 * Flattening vertex references onto the working plane, and the polygon
 * winding chosen once per face from its lexicographically least corner.
 */
module Projection {
  import opened Math
  import opened Mesh
  import opened Geometry

  /** `OBJ::pos`: the 1-based position lookup. */
  function Pos(obj: Obj, v: Vertex): (p: Vec3)
    requires VertexInMesh(obj, v)
    ensures p in obj.positions
  {
    obj.positions[v.position - 1]
  }

  /** `OBJ::point`: transform the position and keep its x and z components. */
  function Project(obj: Obj, v: Vertex, tf: Mat3): Point
    requires VertexInMesh(obj, v)
  {
    var p := Mul(tf, Pos(obj, v));
    Point(p.x, p.z)
  }

  /** The projected point of the polygon's `i`-th vertex. */
  function PointAt(obj: Obj, tf: Mat3, polygon: seq<Vertex>, i: nat): Point
    requires PolygonInMesh(obj, polygon) && i < |polygon|
  {
    Project(obj, polygon[i], tf)
  }

  /** Index before `i` in a loop whose last index is `maxIndex`. */
  function WrapPrev(i: nat, maxIndex: nat): nat
  {
    if i > 0 then i - 1 else maxIndex
  }

  /** Index after `i` in a loop whose last index is `maxIndex`. */
  function WrapNext(i: nat, maxIndex: nat): nat
  {
    if i < maxIndex then i + 1 else 0
  }

  /** Strictly smaller x, or the same x and a strictly smaller y. */
  predicate LexLess(p: Point, q: Point)
  {
    p.x < q.x || (p.x == q.x && p.y < q.y)
  }

  /**
   * Among the first `n` vertices, the first one whose projected point is
   * lexicographically least.
   */
  function LeftmostUpTo(obj: Obj, tf: Mat3, polygon: seq<Vertex>, n: nat): (r: nat)
    requires PolygonInMesh(obj, polygon) && 1 <= n <= |polygon|
    ensures r < n
    ensures forall k :: 0 <= k < n ==>
              !LexLess(PointAt(obj, tf, polygon, k), PointAt(obj, tf, polygon, r))
    ensures forall k :: 0 <= k < r ==>
              LexLess(PointAt(obj, tf, polygon, r), PointAt(obj, tf, polygon, k))
    decreases n
  {
    if n == 1 then 0
    else
      var j := LeftmostUpTo(obj, tf, polygon, n - 1);
      if LexLess(PointAt(obj, tf, polygon, n - 1), PointAt(obj, tf, polygon, j)) then n - 1 else j
  }

  /**
   * The polygon's winding: that of the triangle formed by the leftmost
   * vertex and its two neighbours in the loop.
   */
  function PolygonWindingOf(obj: Obj, tf: Mat3, polygon: seq<Vertex>): bool
    requires PolygonInMesh(obj, polygon) && 1 <= |polygon|
  {
    var i := LeftmostUpTo(obj, tf, polygon, |polygon|);
    var maxIndex := |polygon| - 1;
    Winding(Triangle(PointAt(obj, tf, polygon, WrapPrev(i, maxIndex)),
                     PointAt(obj, tf, polygon, i),
                     PointAt(obj, tf, polygon, WrapNext(i, maxIndex))))
  }

  /** The scan of `polygon_winding`: one pass keeping the best index and point so far. */
  method FindLeftmost(polygon: seq<Vertex>, obj: Obj, tf: Mat3) returns (index: nat)
    requires PolygonInMesh(obj, polygon) && 1 <= |polygon|
    ensures index == LeftmostUpTo(obj, tf, polygon, |polygon|)
  {
    index := 0;
    var left := Project(obj, polygon[index], tf);
    for i := 0 to |polygon|
      invariant index == LeftmostUpTo(obj, tf, polygon, if i == 0 then 1 else i)
      invariant left == PointAt(obj, tf, polygon, index)
    {
      var point := Project(obj, polygon[i], tf);
      if point.x < left.x || (point.x == left.x && point.y < left.y) {
        index := i;
        left := point;
      }
    }
  }

  /** `polygon_winding`: the winding at the leftmost vertex. */
  method PolygonWinding(polygon: seq<Vertex>, obj: Obj, tf: Mat3) returns (w: bool)
    requires PolygonInMesh(obj, polygon) && 1 <= |polygon|
    ensures w == PolygonWindingOf(obj, tf, polygon)
  {
    var index := FindLeftmost(polygon, obj, tf);
    var maxIndex := |polygon| - 1;
    w := Winding(Triangle(Project(obj, polygon[if index > 0 then index - 1 else maxIndex], tf),
                          Project(obj, polygon[index], tf),
                          Project(obj, polygon[if index < maxIndex then index + 1 else 0], tf)));
  }

  /**
   * On a three-vertex loop every corner sees the same two neighbours up to
   * rotation, so the polygon winding is the winding of the loop itself.
   */
  lemma TrianglePolygonWinding(obj: Obj, tf: Mat3, polygon: seq<Vertex>)
    requires PolygonInMesh(obj, polygon) && |polygon| == 3
    ensures PolygonWindingOf(obj, tf, polygon)
         == Winding(Triangle(PointAt(obj, tf, polygon, 0),
                             PointAt(obj, tf, polygon, 1),
                             PointAt(obj, tf, polygon, 2)))
  {
    var t := Triangle(PointAt(obj, tf, polygon, 0),
                      PointAt(obj, tf, polygon, 1),
                      PointAt(obj, tf, polygon, 2));
    WindingRotation(t);
    WindingRotation(Triangle(t.b, t.c, t.a));
  }
}
