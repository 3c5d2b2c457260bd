/**
 * The lazy face triangulator: an iterator that clips one ear per call to
 * `Next` from a working copy of the face's polygon.
 */
module FaceTriangulation {
  import opened Wrappers
  import opened Math
  import opened Mesh
  import opened Projection
  import opened EarSearch
  import opened EarClipping

  /** `FaceTriangulator`: the remaining polygon and the per-face constants. */
  class FaceTriangulator {
    var polygon: seq<Vertex>
    const obj: Obj
    const polygonWinding: bool
    var reflexIndices: seq<nat>
    const tfFlatten: Mat3

    /** Every vertex still in the working polygon has a position in the mesh. */
    ghost predicate Valid()
      reads this
    {
      PolygonInMesh(obj, polygon)
    }

    /** The triangles the remaining calls to `Next` will yield, in order. */
    ghost function Pending(): seq<Tri>
      reads this
      requires Valid()
    {
      FaceOutput(Exact, obj, tfFlatten, polygonWinding, polygon)
    }

    constructor (obj: Obj, polygon: seq<Vertex>, polygonWinding: bool, tfFlatten: Mat3)
      ensures this.obj == obj && this.polygon == polygon
      ensures this.polygonWinding == polygonWinding && this.tfFlatten == tfFlatten
      ensures reflexIndices == []
    {
      this.obj := obj;
      this.polygon := polygon;
      this.polygonWinding := polygonWinding;
      this.tfFlatten := tfFlatten;
      reflexIndices := [];
    }

    /**
     * `from_obj_polygon`: refuses a polygon with fewer than three vertices,
     * otherwise fixes the flattening matrix and the polygon's winding.
     * `flatten` stands for `unit_align(fit_plane_normal(obj, polygon), UNIT_Y)`.
     */
    static method FromObjPolygon(obj: Obj, flatten: seq<Vertex> -> Mat3, polygon: seq<Vertex>)
        returns (r: Result<FaceTriangulator>)
      requires |polygon| < 3 || PolygonInMesh(obj, polygon)
      ensures r.Err? <==> |polygon| < 3
      ensures r.Err? ==> r.error == TooFewVertices
      ensures r.Ok? ==> fresh(r.value) && r.value.Valid()
      ensures r.Ok? ==> r.value.obj == obj && r.value.polygon == polygon && r.value.reflexIndices == []
      ensures r.Ok? ==> r.value.tfFlatten == flatten(polygon)
      ensures r.Ok? ==> r.value.polygonWinding == PolygonWindingOf(obj, flatten(polygon), polygon)
    {
      if |polygon| < 3 {
        return Err(TooFewVertices);
      }
      var tfFlatten := flatten(polygon);
      var polygonWinding := PolygonWinding(polygon, obj, tfFlatten);
      var t := new FaceTriangulator(obj, polygon, polygonWinding, tfFlatten);
      return Ok(t);
    }

    /** `new`: a triangulator for the face's vertex loop. */
    static method New(obj: Obj, flatten: seq<Vertex> -> Mat3, face: Face) returns (r: Result<FaceTriangulator>)
      requires FaceInMesh(obj, face)
      ensures r.Err? <==> |Vertices(face)| < 3
      ensures r.Err? ==> r.error == TooFewVertices
      ensures r.Ok? ==> fresh(r.value) && r.value.Valid() && r.value.obj == obj
      ensures r.Ok? ==> r.value.Pending() == FaceRun(obj, flatten, face)
    {
      r := FromObjPolygon(obj, flatten, Vertices(face));
    }

    /**
     * `next`: searches the working polygon for an ear; yields its triangle
     * and removes the ear vertex, or empties the polygon when the search
     * fails.
     *
     * The detailed postcondition binds the searched points with a quantifier
     * rather than a `var`: its trigger keeps the ear search from being
     * unfolded in callers that only use `Pending()`, which keeps their proofs
     * small. `pts` has exactly one value, `Points(obj, tfFlatten, old(polygon))`.
     */
    method Next() returns (r: Option<Tri>)
      requires Valid()
      modifies this
      ensures Valid()
      ensures |old(polygon)| < 3 ==>
                r == None && polygon == old(polygon) && reflexIndices == old(reflexIndices)
      ensures forall pts {:trigger FindEar(Exact, pts, polygonWinding)} ::
                |old(polygon)| >= 3 && pts == Points(obj, tfFlatten, old(polygon)) ==>
                match FindEar(Exact, pts, polygonWinding)
                case None =>
                  r == None && polygon == []
                  && reflexIndices == ReflexBefore(Exact, pts, polygonWinding, |old(polygon)| - 1)
                case Some(e) =>
                  r == Some(EarTri(old(polygon), e)) && polygon == RemoveAt(old(polygon), e)
                  && reflexIndices == ReflexBefore(Exact, pts, polygonWinding, e)
      ensures r.None? <==> old(Pending()) == []
      ensures r.Some? ==> old(Pending()) == [r.value] + Pending()
      ensures r.None? ==> Pending() == []
    {
      if |polygon| < 3 {
        return None;
      }
      ghost var step := EarStep(Exact, obj, tfFlatten, polygonWinding, polygon);
      assert Pending() == step;
      var ear, reflex := SearchEar(Exact, obj, tfFlatten, polygonWinding, polygon);
      reflexIndices := reflex;
      if ear.None? {
        polygon := [];
        return None;
      }
      var e := ear.value;
      var tri := EarTri(polygon, e);
      polygon := RemoveAt(polygon, e);
      return Some(tri);
    }

    /**
     * `size_hint`: `|polygon| - 2`, saturating at 0, for both bounds. It is
     * an upper bound of what remains; it is exact unless a later search
     * fails.
     */
    method SizeHint() returns (lower: nat, upper: Option<nat>)
      requires Valid()
      ensures lower == if |polygon| >= 2 then |polygon| - 2 else 0
      ensures upper == Some(lower)
      ensures |Pending()| <= lower
      ensures |polygon| >= 2 ==>
                (|Pending()| == lower <==> Clip(Exact, obj, tfFlatten, polygonWinding, polygon).Ok?)
    {
      lower := if |polygon| >= 2 then |polygon| - 2 else 0;
      upper := Some(lower);
      if |polygon| >= 2 {
        FaceOutputAgreesWithClip(Exact, obj, tfFlatten, polygonWinding, polygon);
      }
    }
  }

  /** All the triangles a triangulator built for `face` yields. */
  function FaceRun(obj: Obj, flatten: seq<Vertex> -> Mat3, face: Face): seq<Tri>
    requires FaceInMesh(obj, face)
  {
    var vs := Vertices(face);
    if |vs| < 3 then []
    else FaceOutput(Exact, obj, flatten(vs), PolygonWindingOf(obj, flatten(vs), vs), vs)
  }
}
