/**
 * One ear search over the current working polygon: candidates are tried in
 * index order, mismatched corners are collected as reflex, and the first
 * candidate passing all three tests is the ear. The tests are stated over
 * `pts`, the projected points of the working polygon in loop order.
 */
module EarSearch {
  import opened Wrappers
  import opened Math
  import opened Mesh
  import opened Geometry
  import opened Projection

  /** The projected points of a polygon, index by index. */
  function Points(obj: Obj, tf: Mat3, polygon: seq<Vertex>): seq<Point>
    requires PolygonInMesh(obj, polygon)
  {
    seq(|polygon|, i requires 0 <= i < |polygon| => Project(obj, polygon[i], tf))
  }

  /**
   * The two geometric tests an ear search applies. The search is stated over
   * them so that its bookkeeping can be reasoned about without their
   * arithmetic; `Exact` is the instance the triangulators use.
   */
  datatype Tests = Tests(winding: Triangle -> bool, inside: (Triangle, Point) -> bool)

  const Exact: Tests := Tests(Winding, Contains)

  /** The projected triangle `(prev, ear, next)`, neighbours wrapping around the loop. */
  function CandidateTriangle(pts: seq<Point>, ear: nat): Triangle
    requires ear < |pts|
  {
    var maxIndex := |pts| - 1;
    Triangle(pts[WrapPrev(ear, maxIndex)], pts[ear], pts[WrapNext(ear, maxIndex)])
  }

  /** A candidate whose triangle winds against the polygon is reflex. */
  predicate IsReflex(g: Tests, pts: seq<Point>, w: bool, ear: nat)
    requires ear < |pts|
  {
    g.winding(CandidateTriangle(pts, ear)) != w
  }

  /** The reflex indices collected by a search that has reached candidate `ear`. */
  function ReflexBefore(g: Tests, pts: seq<Point>, w: bool, ear: nat): (r: seq<nat>)
    requires ear < |pts|
    ensures forall i :: 0 <= i < |r| ==> r[i] < ear
    decreases ear
  {
    if ear == 0 then []
    else ReflexBefore(g, pts, w, ear - 1) + (if IsReflex(g, pts, w, ear - 1) then [ear - 1] else [])
  }

  /** The reflex buffer holds exactly the reflex candidates before `ear`. */
  lemma {:induction false} ReflexBeforeMembers(g: Tests, pts: seq<Point>, w: bool, ear: nat)
    requires ear < |pts|
    ensures forall j: nat :: j in ReflexBefore(g, pts, w, ear) <==> j < ear && IsReflex(g, pts, w, j)
    decreases ear
  {
    if ear > 0 {
      ReflexBeforeMembers(g, pts, w, ear - 1);
      var prev := ReflexBefore(g, pts, w, ear - 1);
      var tail := if IsReflex(g, pts, w, ear - 1) then [ear - 1] else [];
      assert ReflexBefore(g, pts, w, ear) == prev + tail;
      forall j: nat
        ensures j in prev + tail <==> j < ear && IsReflex(g, pts, w, j)
      {
        assert j in prev + tail <==> j in prev || j in tail;
      }
    }
  }

  /** The reflex buffer is in increasing order. */
  lemma {:induction false} ReflexBeforeIncreasing(g: Tests, pts: seq<Point>, w: bool, ear: nat)
    requires ear < |pts|
    ensures forall i, k :: 0 <= i < k < |ReflexBefore(g, pts, w, ear)| ==>
              ReflexBefore(g, pts, w, ear)[i] < ReflexBefore(g, pts, w, ear)[k]
    decreases ear
  {
    if ear > 0 {
      ReflexBeforeIncreasing(g, pts, w, ear - 1);
      var prev := ReflexBefore(g, pts, w, ear - 1);
      var tail := if IsReflex(g, pts, w, ear - 1) then [ear - 1] else [];
      assert ReflexBefore(g, pts, w, ear) == prev + tail;
      forall i, k | 0 <= i < k < |prev + tail|
        ensures (prev + tail)[i] < (prev + tail)[k]
      {
        if k < |prev| {
          assert prev[i] < prev[k];
        } else {
          assert (prev + tail)[i] == prev[i];
        }
      }
    }
  }

  /**
   * Some recorded reflex vertex other than the candidate's neighbours lies in
   * the candidate triangle.
   */
  predicate ReflexInside(g: Tests, pts: seq<Point>, reflex: seq<nat>, ear: nat)
    requires ear < |pts|
    requires forall j :: j in reflex ==> j < |pts|
  {
    var maxIndex := |pts| - 1;
    exists j: nat :: j in reflex && j != WrapPrev(ear, maxIndex) && j != WrapNext(ear, maxIndex)
                     && g.inside(CandidateTriangle(pts, ear), pts[j])
  }

  predicate IsCorner(tri: Triangle, p: Point)
  {
    p == tri.a || p == tri.b || p == tri.c
  }

  /**
   * Some vertex after the candidate whose point is not one of the triangle's
   * corners lies in the candidate triangle.
   */
  predicate LaterInside(g: Tests, pts: seq<Point>, ear: nat)
    requires ear < |pts|
  {
    exists k :: ear < k < |pts| && !IsCorner(CandidateTriangle(pts, ear), pts[k])
                && g.inside(CandidateTriangle(pts, ear), pts[k])
  }

  /** Candidate `ear` passes all three tests of the search. */
  predicate IsEar(g: Tests, pts: seq<Point>, w: bool, ear: nat)
    requires ear < |pts|
  {
    !IsReflex(g, pts, w, ear)
    && !ReflexInside(g, pts, ReflexBefore(g, pts, w, ear), ear)
    && !LaterInside(g, pts, ear)
  }

  /**
   * The first ear at or after candidate `ear`. The last index is never a
   * candidate, so the search gives up once it reaches `|pts| - 1`.
   */
  function FindEarFrom(g: Tests, pts: seq<Point>, w: bool, ear: nat): (r: Option<nat>)
    requires ear < |pts|
    ensures r.Some? ==> ear <= r.value < |pts| - 1
    decreases |pts| - ear
  {
    if ear >= |pts| - 1 then None
    else if IsEar(g, pts, w, ear) then Some(ear)
    else FindEarFrom(g, pts, w, ear + 1)
  }

  /**
   * The search from `ear` finds the first candidate in `[ear, |pts| - 1)`
   * that passes the tests, and fails exactly when none does.
   */
  lemma {:induction false} FindEarFromIsFirstEar(g: Tests, pts: seq<Point>, w: bool, ear: nat)
    requires ear < |pts|
    ensures var r := FindEarFrom(g, pts, w, ear);
            (r.Some? ==> IsEar(g, pts, w, r.value) && forall k :: ear <= k < r.value ==> !IsEar(g, pts, w, k))
            && (r.None? ==> forall k :: ear <= k < |pts| - 1 ==> !IsEar(g, pts, w, k))
    decreases |pts| - ear
  {
    if ear < |pts| - 1 && !IsEar(g, pts, w, ear) {
      FindEarFromIsFirstEar(g, pts, w, ear + 1);
    }
  }

  /** The search as a whole, started from candidate 0. */
  function FindEar(g: Tests, pts: seq<Point>, w: bool): Option<nat>
    requires 1 <= |pts|
  {
    FindEarFrom(g, pts, w, 0)
  }

  /**
   * The `'find_ear` loop over the working polygon. The projected points are
   * computed once per search instead of on every access; the triangulators
   * pass `Exact` for `g`. The reflex buffer starts empty; it ends holding the reflex
   * candidates before the accepted ear, or before the last index when the
   * search fails.
   */
  method SearchEar(g: Tests, obj: Obj, tf: Mat3, w: bool, polygon: seq<Vertex>)
      returns (ear: Option<nat>, reflex: seq<nat>)
    requires 3 <= |polygon| && PolygonInMesh(obj, polygon)
    ensures ear == FindEar(g, Points(obj, tf, polygon), w)
    ensures reflex == ReflexBefore(g, Points(obj, tf, polygon), w,
                                   if ear.Some? then ear.value else |polygon| - 1)
  {
    var pts := Points(obj, tf, polygon);
    reflex := [];
    var maxIndex := |polygon| - 1;
    var e := 0;
    while true
      invariant e <= maxIndex
      invariant reflex == ReflexBefore(g, pts, w, e)
      invariant FindEar(g, pts, w) == FindEarFrom(g, pts, w, e)
      decreases maxIndex - e
    {
      if e >= maxIndex {
        return None, reflex;
      }
      var tri := CandidateTriangle(pts, e);
      if g.winding(tri) != w {
        assert ReflexBefore(g, pts, w, e + 1) == reflex + [e];
        assert FindEarFrom(g, pts, w, e) == FindEarFrom(g, pts, w, e + 1);
        reflex := reflex + [e];
        e := e + 1;
        continue;
      }
      assert ReflexBefore(g, pts, w, e + 1) == reflex;
      if ReflexInside(g, pts, reflex, e) {
        assert FindEarFrom(g, pts, w, e) == FindEarFrom(g, pts, w, e + 1);
        e := e + 1;
        continue;
      }
      if LaterInside(g, pts, e) {
        assert FindEarFrom(g, pts, w, e) == FindEarFrom(g, pts, w, e + 1);
        e := e + 1;
        continue;
      }
      break;
    }
    ear := Some(e);
  }
}
