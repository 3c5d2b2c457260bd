/**
 * Ear clipping of a whole polygon: the batch `triangulate` and the
 * specification of what a face iterator yields.
 */
module EarClipping {
  import opened Wrappers
  import opened Math
  import opened Mesh
  import opened Geometry
  import opened Projection
  import opened EarSearch

  /** Errors related to triangulation using ear clipping. */
  datatype Error =
    | TooFewVertices
    | NoEarFound
    | NoValidFacesFound
    | NoValidGroupsFound
    | NoValidObjectsFound

  datatype Result<T> = Ok(value: T) | Err(error: Error)

  /** An emitted triangle: three vertex references, not coordinates. */
  datatype Tri = Corners(v0: Vertex, v1: Vertex, v2: Vertex)

  /** `Vec::remove`: drop position `i`, the others keep their order. */
  function RemoveAt<T>(s: seq<T>, i: nat): (r: seq<T>)
    requires i < |s|
    ensures |r| == |s| - 1
    ensures forall k :: 0 <= k < i ==> r[k] == s[k]
    ensures forall k :: i <= k < |r| ==> r[k] == s[k + 1]
    ensures forall x :: x in r ==> x in s
  {
    s[..i] + s[i + 1..]
  }

  /**
   * Removing a vertex removes its point: the search after a clip runs on the
   * previous search's points with the ear's point taken out.
   */
  lemma PointsRemoveAt(obj: Obj, tf: Mat3, polygon: seq<Vertex>, e: nat)
    requires PolygonInMesh(obj, polygon) && e < |polygon|
    ensures PolygonInMesh(obj, RemoveAt(polygon, e))
    ensures Points(obj, tf, RemoveAt(polygon, e)) == RemoveAt(Points(obj, tf, polygon), e)
  {
    var before, after := Points(obj, tf, polygon), Points(obj, tf, RemoveAt(polygon, e));
    assert |after| == |RemoveAt(before, e)|;
    forall k | 0 <= k < |after|
      ensures after[k] == RemoveAt(before, e)[k]
    {
      if k < e {
        assert after[k] == before[k];
      } else {
        assert after[k] == before[k + 1];
      }
    }
  }

  /** The triangle `[polygon[prev], polygon[ear], polygon[next]]` of an accepted ear. */
  function EarTri(polygon: seq<Vertex>, ear: nat): Tri
    requires ear < |polygon|
  {
    var maxIndex := |polygon| - 1;
    Corners(polygon[WrapPrev(ear, maxIndex)], polygon[ear], polygon[WrapNext(ear, maxIndex)])
  }

  /**
   * The neighbours of the ear are the vertices one before and one after it
   * modulo the polygon's length.
   */
  lemma EarTriModular(polygon: seq<Vertex>, ear: nat)
    requires ear < |polygon|
    ensures EarTri(polygon, ear)
         == Corners(polygon[(ear + |polygon| - 1) % |polygon|], polygon[ear], polygon[(ear + 1) % |polygon|])
  {
    var n := |polygon|;
    if ear == 0 {
      ModOfSmall(n - 1, n);
    } else {
      ModOfWrapped(ear - 1, n);
    }
    if ear == n - 1 {
      ModOfWrapped(0, n);
    } else {
      ModOfSmall(ear + 1, n);
    }
  }

  lemma ModOfSmall(x: int, n: int)
    requires 0 <= x < n
    ensures x % n == x
  {
  }

  lemma ModOfWrapped(x: int, n: int)
    requires 0 <= x < n
    ensures (x + n) % n == x
  {
  }

  /**
   * The batch clipping loop from a given working polygon: one ear triangle
   * per step until fewer than three vertices remain, or `NoEarFound` as soon
   * as a search fails.
   */
  function Clip(g: Tests, obj: Obj, tf: Mat3, w: bool, polygon: seq<Vertex>): Result<seq<Tri>>
    requires PolygonInMesh(obj, polygon)
    decreases |polygon|
  {
    if |polygon| < 3 then Ok([])
    else
      match FindEar(g, Points(obj, tf, polygon), w)
      case None => Err(NoEarFound)
      case Some(e) =>
        match Clip(g, obj, tf, w, RemoveAt(polygon, e))
        case Err(err) => Err(err)
        case Ok(rest) => Ok([EarTri(polygon, e)] + rest)
  }

  /**
   * The triangles a face iterator yields from a given working polygon: the
   * same steps as `Clip`, but a failed search ends the sequence instead of
   * producing an error.
   */
  function FaceOutput(g: Tests, obj: Obj, tf: Mat3, w: bool, polygon: seq<Vertex>): seq<Tri>
    requires PolygonInMesh(obj, polygon)
    decreases |polygon|, 1
  {
    if |polygon| < 3 then [] else EarStep(g, obj, tf, w, polygon)
  }

  /** One call to `next` on a polygon of three or more vertices, then the rest. */
  function EarStep(g: Tests, obj: Obj, tf: Mat3, w: bool, polygon: seq<Vertex>): seq<Tri>
    requires PolygonInMesh(obj, polygon) && |polygon| >= 3
    decreases |polygon|, 0
  {
    match FindEar(g, Points(obj, tf, polygon), w)
    case None => []
    case Some(e) => [EarTri(polygon, e)] + FaceOutput(g, obj, tf, w, RemoveAt(polygon, e))
  }

  /** `triangles` followed by the outcome of the rest of the clipping. */
  function Prepend(triangles: seq<Tri>, rest: Result<seq<Tri>>): Result<seq<Tri>>
  {
    match rest
    case Err(err) => Err(err)
    case Ok(ts) => Ok(triangles + ts)
  }

  /** A failed search fails the whole clipping. */
  lemma ClipFails(g: Tests, obj: Obj, tf: Mat3, w: bool, polygon: seq<Vertex>)
    requires PolygonInMesh(obj, polygon) && |polygon| >= 3
    requires FindEar(g, Points(obj, tf, polygon), w) == None
    ensures Clip(g, obj, tf, w, polygon) == Err(NoEarFound)
  {
  }

  /** One step of the batch loop keeps the overall outcome. */
  lemma ClipAdvance(g: Tests, obj: Obj, tf: Mat3, w: bool, triangles: seq<Tri>, polygon: seq<Vertex>, e: nat)
    requires PolygonInMesh(obj, polygon) && |polygon| >= 3
    requires FindEar(g, Points(obj, tf, polygon), w) == Some(e)
    ensures e < |polygon| && PolygonInMesh(obj, RemoveAt(polygon, e))
    ensures Prepend(triangles, Clip(g, obj, tf, w, polygon))
         == Prepend(triangles + [EarTri(polygon, e)], Clip(g, obj, tf, w, RemoveAt(polygon, e)))
  {
    var rest := Clip(g, obj, tf, w, RemoveAt(polygon, e));
    if rest.Ok? {
      assert triangles + ([EarTri(polygon, e)] + rest.value) == (triangles + [EarTri(polygon, e)]) + rest.value;
    }
  }

  /**
   * `triangulate`. `flatten` gives the face's flattening matrix, standing for
   * `unit_align(fit_plane_normal(obj, polygon), UNIT_Y)`.
   */
  method Triangulate(polygon: seq<Vertex>, obj: Obj, flatten: seq<Vertex> -> Mat3)
      returns (r: Result<seq<Tri>>)
    requires |polygon| <= 3 || PolygonInMesh(obj, polygon)
    ensures |polygon| < 3 ==> r == Err(TooFewVertices)
    ensures |polygon| == 3 ==> r == Ok([Corners(polygon[0], polygon[1], polygon[2])])
    ensures |polygon| > 3 ==>
              r == Clip(Exact, obj, flatten(polygon), PolygonWindingOf(obj, flatten(polygon), polygon), polygon)
    ensures |polygon| > 3 && r.Ok? ==> |r.value| == |polygon| - 2
    ensures |polygon| > 3 && r.Err? ==> r.error == NoEarFound
  {
    if |polygon| <= 2 {
      return Err(TooFewVertices);
    }
    if |polygon| == 3 {
      return Ok([Corners(polygon[0], polygon[1], polygon[2])]);
    }
    var tf := flatten(polygon);
    var polygonWinding := PolygonWinding(polygon, obj, tf);
    ghost var whole := Clip(Exact, obj, tf, polygonWinding, polygon);
    var triangles: seq<Tri> := [];
    var working := polygon;
    assert whole == Prepend(triangles, whole) by {
      if whole.Ok? { assert [] + whole.value == whole.value; }
    }
    while |working| >= 3
      invariant PolygonInMesh(obj, working)
      invariant |working| >= 2
      invariant |triangles| + |working| == |polygon|
      invariant whole == Prepend(triangles, Clip(Exact, obj, tf, polygonWinding, working))
      decreases |working|
    {
      var ear, reflexIndices := SearchEar(Exact, obj, tf, polygonWinding, working);
      if ear.None? {
        ClipFails(Exact, obj, tf, polygonWinding, working);
        return Err(NoEarFound);
      }
      var e := ear.value;
      var tri := EarTri(working, e);
      ClipAdvance(Exact, obj, tf, polygonWinding, triangles, working, e);
      triangles := triangles + [tri];
      working := RemoveAt(working, e);
    }
    assert Clip(Exact, obj, tf, polygonWinding, working) == Ok([]);
    assert triangles + [] == triangles;
    return Ok(triangles);
  }

  /** The projected triangle of an emitted triangle. */
  function ProjectTri(obj: Obj, tf: Mat3, t: Tri): Triangle
    requires VertexInMesh(obj, t.v0) && VertexInMesh(obj, t.v1) && VertexInMesh(obj, t.v2)
  {
    Triangle(Project(obj, t.v0, tf), Project(obj, t.v1, tf), Project(obj, t.v2, tf))
  }

  /**
   * The iterator yields at most `n - 2` triangles from an `n`-vertex polygon,
   * exactly `n - 2` when no search fails, and then the same triangles as the
   * batch loop; the batch loop succeeds exactly when the iterator reaches
   * `n - 2`.
   */
  lemma {:induction false} FaceOutputAgreesWithClip(g: Tests, obj: Obj, tf: Mat3, w: bool, polygon: seq<Vertex>)
    requires PolygonInMesh(obj, polygon) && |polygon| >= 2
    ensures |FaceOutput(g, obj, tf, w, polygon)| <= |polygon| - 2
    ensures Clip(g, obj, tf, w, polygon).Ok? <==> |FaceOutput(g, obj, tf, w, polygon)| == |polygon| - 2
    ensures Clip(g, obj, tf, w, polygon).Ok? ==>
              Clip(g, obj, tf, w, polygon).value == FaceOutput(g, obj, tf, w, polygon)
    decreases |polygon|
  {
    if |polygon| >= 3 {
      match FindEar(g, Points(obj, tf, polygon), w)
      case None =>
      case Some(e) =>
        FaceOutputAgreesWithClip(g, obj, tf, w, RemoveAt(polygon, e));
    }
  }

  /** An accepted ear's triangle lies in the mesh and has the polygon's winding. */
  lemma EarTriWinding(g: Tests, obj: Obj, tf: Mat3, w: bool, polygon: seq<Vertex>, e: nat)
    requires PolygonInMesh(obj, polygon) && |polygon| >= 3
    requires FindEar(g, Points(obj, tf, polygon), w) == Some(e)
    ensures e < |polygon|
    ensures var t := EarTri(polygon, e);
            VertexInMesh(obj, t.v0) && VertexInMesh(obj, t.v1) && VertexInMesh(obj, t.v2)
            && g.winding(ProjectTri(obj, tf, t)) == w
  {
    var pts := Points(obj, tf, polygon);
    FindEarFromIsFirstEar(g, pts, w, 0);
    assert ProjectTri(obj, tf, EarTri(polygon, e)) == CandidateTriangle(pts, e);
  }

  /** Every triangle of `tris` lies in the mesh and has winding `w`. */
  predicate AllWound(g: Tests, obj: Obj, tf: Mat3, w: bool, tris: seq<Tri>)
  {
    forall i :: 0 <= i < |tris| ==>
      VertexInMesh(obj, tris[i].v0) && VertexInMesh(obj, tris[i].v1) && VertexInMesh(obj, tris[i].v2)
      && g.winding(ProjectTri(obj, tf, tris[i])) == w
  }

  lemma AllWoundPrepend(g: Tests, obj: Obj, tf: Mat3, w: bool, t: Tri, rest: seq<Tri>)
    requires VertexInMesh(obj, t.v0) && VertexInMesh(obj, t.v1) && VertexInMesh(obj, t.v2)
    requires g.winding(ProjectTri(obj, tf, t)) == w
    requires AllWound(g, obj, tf, w, rest)
    ensures AllWound(g, obj, tf, w, [t] + rest)
  {
  }

  /**
   * Every triangle the iterator yields (and so every triangle of a
   * successful batch run) has the polygon's winding.
   */
  lemma {:induction false} FaceOutputWinding(g: Tests, obj: Obj, tf: Mat3, w: bool, polygon: seq<Vertex>)
    requires PolygonInMesh(obj, polygon)
    ensures AllWound(g, obj, tf, w, FaceOutput(g, obj, tf, w, polygon))
    decreases |polygon|
  {
    if |polygon| >= 3 {
      match FindEar(g, Points(obj, tf, polygon), w)
      case None =>
      case Some(e) =>
        var rest := FaceOutput(g, obj, tf, w, RemoveAt(polygon, e));
        FaceOutputWinding(g, obj, tf, w, RemoveAt(polygon, e));
        EarTriWinding(g, obj, tf, w, polygon, e);
        AllWoundPrepend(g, obj, tf, w, EarTri(polygon, e), rest);
    }
  }

  /**
   * On a three-vertex polygon the iterator accepts candidate 0 and yields
   * the loop rotated to start at the last vertex, where the batch function
   * returns the loop unchanged.
   */
  lemma TriangleFaceOutput(obj: Obj, tf: Mat3, polygon: seq<Vertex>)
    requires PolygonInMesh(obj, polygon) && |polygon| == 3
    ensures FaceOutput(Exact, obj, tf, PolygonWindingOf(obj, tf, polygon), polygon)
         == [Corners(polygon[2], polygon[0], polygon[1])]
  {
    var pts := Points(obj, tf, polygon);
    var w := PolygonWindingOf(obj, tf, polygon);
    TrianglePolygonWinding(obj, tf, polygon);
    var tri := CandidateTriangle(pts, 0);
    assert tri == Triangle(pts[2], pts[0], pts[1]);
    WindingRotation(tri);
    assert !IsReflex(Exact, pts, w, 0);
    assert ReflexBefore(Exact, pts, w, 0) == [];
    assert IsCorner(tri, pts[1]) && IsCorner(tri, pts[2]);
    assert !LaterInside(Exact, pts, 0);
    assert IsEar(Exact, pts, w, 0);
    assert FindEar(Exact, pts, w) == Some(0);
    assert FaceOutput(Exact, obj, tf, w, RemoveAt(polygon, 0)) == [];
    assert EarStep(Exact, obj, tf, w, polygon) == [EarTri(polygon, 0)];
  }
}
