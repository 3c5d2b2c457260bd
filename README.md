# Ear-clipping triangulation of OBJ meshes, modelled in Dafny

This project models the triangulation engine of the `mol` crate
(`src/triangulate/earclipping.rs`). It turns the polygonal faces of an OBJ mesh
into triangles by ear clipping. Each face is flattened onto a plane, and its
winding is fixed once, from its lexicographically least projected corner. Then
ears are clipped one at a time. Each clip emits a triangle of vertex references
`(prev, ear, next)` and removes the ear from the working polygon.

The model has these parts:

- **Geometry** (`geometry.dfy`): the points and triangles of the plane, the
  barycentric test `contains` and the winding test. Coordinates are reals, and
  the tolerance of `approx_eq!` is read as exact equality.
- **Mesh** (`mesh.dfy`): vertex triples with a 1-based position index, faces
  (`Tri`, `Quad`, `NGon`), groups, objects and the OBJ value. It also has
  predicates saying every referenced position exists.
- **Projection** (`projection.dfy`): `OBJ::pos`, `OBJ::point`, the wrap-around
  neighbours and `polygon_winding`.
  - `polygon_winding` is the method `PolygonWinding`. Its scan for the
    leftmost vertex is the loop method `FindLeftmost`, proved against the
    recursive specification `LeftmostUpTo`.
- **Ear search** (`ear_search.dfy`): one run of the `'find_ear` loop.
  - The ear candidate and the reflex buffer are stated as functions of the
    working polygon: `FindEar` and `ReflexBefore`.
  - The loop `SearchEar` is proved to compute exactly these.
  - The search is stated over a pair of tests (`Tests`). `Exact`, which is
    `Winding` with `Contains`, is the instance every triangulator uses. Lemmas
    about the bookkeeping hold for any pair of tests.
- **Ear clipping** (`ear_clipping.dfy`):
  - the batch function `triangulate`, proved against the recursive
    specification `Clip`;
  - `FaceOutput`, the sequence of triangles a face iterator yields;
  - how the two relate, and the winding of every emitted triangle.
- **Face triangulator** (`face_triangulator.dfy`): the `FaceTriangulator`
  class.
  - Its ghost `Pending()` is the list of triangles the remaining `next` calls
    will yield.
  - Each `Next` either yields the head of that list and keeps the rest, or
    yields `None` exactly when the list is empty.
- **Hierarchy** (`hierarchy.dfy`): the group, object and whole-mesh
  triangulators produced by `make_triangulation_iterator!`.
  - Each is a class with an index field and a child triangulator field.
  - Its `Pending()` is what the current child still yields, followed by the
    complete output of every later child.
  - Constructors and `next` are proved to yield `GroupRun`, `ObjectRun` and
    `MeshRun`. These are the in-order concatenations of the children's outputs;
    children whose constructor fails contribute nothing.

The flattening matrix `unit_align(fit_plane_normal(obj, polygon), UNIT_Y)` is
a parameter `flatten` from the polygon to a matrix. The proofs hold for every
such function.

The batch function and the iterator differ on a triangle face:
- `triangulate` returns a three-vertex polygon as it is.
- The iterator accepts candidate 0 and yields the same loop rotated to start at
  its last vertex (`TriangleFaceOutput`).

`FaceTriangulator::next` also returns `None` when an ear search fails on a
polygon of three or more vertices. It then clears the polygon, so later calls
return `None` too.

## Model

| member | source | states |
|---|---|---|
| Geometry.Contains | src/triangulate/earclipping.rs:36-62 | a degenerate triangle (zero signed area) contains every point |
| Geometry.Winding | src/triangulate/earclipping.rs:66-69 | counter-clockwise (true) exactly when the determinant that `contains` divides by is positive |
| Geometry.ContainsBySigns | src/triangulate/earclipping.rs:36-62 | the division-based barycentric test equals a sign test on the three determinants, for every triangle and point |
| Geometry.DetIsSignedArea | src/triangulate/earclipping.rs:39-69 | the determinant `contains` divides by is twice the signed area that `winding` compares with zero |
| Geometry.WindingRotation | src/triangulate/earclipping.rs:66-69 | rotating a triangle's corners does not change its winding |
| Geometry.ContainsCorners | src/triangulate/earclipping.rs:36-62 | for a proper triangle, `contains` rejects corners `a` and `b` but accepts corner `c`, so the later-vertex test must exclude corners explicitly |
| Math.Mul | src/math/mat3.rs:15-21 | computes the row-major matrix times column vector: each output component is one matrix row applied to the vector |
| Mesh.Vertices | src/triangulate/earclipping.rs:153-157 | the face's vertex loop in order; a `Tri` or a `Quad` always gives three or four vertices, so only an `NGon` can be too small |
| Projection.Pos | src/triangulate/earclipping.rs:87-89 | looks up the position at the 1-based index `position`; the result is one of the mesh's positions |
| Projection.Project | src/triangulate/earclipping.rs:94-97 | transforms the vertex's position by `tf` and keeps the x and z components as the planar point |
| Projection.LeftmostUpTo | src/triangulate/earclipping.rs:104-112 | the chosen index is lexicographically least among the first `n` points, and strictly less than every earlier one (the first minimum) |
| Projection.FindLeftmost | src/triangulate/earclipping.rs:104-112 | the scan that keeps `index` and `left` ends with the first lexicographically least point |
| Projection.PolygonWinding | src/triangulate/earclipping.rs:103-121 | the result is the winding of (wrapping predecessor, leftmost, wrapping successor) |
| Projection.TrianglePolygonWinding | src/triangulate/earclipping.rs:103-121 | on a three-vertex loop the polygon winding is the winding of the loop itself, whichever vertex is leftmost |
| EarSearch.ReflexBefore | src/triangulate/earclipping.rs:211-214 | every index pushed to the reflex buffer is smaller than the current candidate |
| EarSearch.ReflexBeforeMembers | src/triangulate/earclipping.rs:191-214 | the buffer, cleared at the start of a search, holds exactly the earlier candidates whose triangle winds against the polygon |
| EarSearch.ReflexBeforeIncreasing | src/triangulate/earclipping.rs:211-214 | the buffer is in strictly increasing order |
| EarSearch.ReflexInside | src/triangulate/earclipping.rs:471-473 | some recorded reflex index other than the candidate's wrapping neighbours has its point inside the candidate triangle |
| EarSearch.IsCorner | src/triangulate/earclipping.rs:481 | the point equals one of the candidate triangle's three corners |
| EarSearch.LaterInside | src/triangulate/earclipping.rs:478-484 | some vertex after the candidate, whose point is not a corner of the candidate triangle, lies inside it |
| EarSearch.FindEarFrom | src/triangulate/earclipping.rs:195-201 | an accepted candidate lies in `[from, len - 1)`: the last index is never a candidate |
| EarSearch.FindEarFromIsFirstEar | src/triangulate/earclipping.rs:195-232 | the search accepts the first candidate passing all three tests, and fails exactly when no candidate below `len - 1` passes |
| EarSearch.SearchEar | src/triangulate/earclipping.rs:191-232 | the loop's ear equals `FindEar` and its reflex buffer equals `ReflexBefore` at the accepted ear, or at `len - 1` on failure |
| EarClipping.RemoveAt | src/triangulate/earclipping.rs:494 | removal drops exactly position `i`, and the other vertices keep their order |
| EarClipping.PointsRemoveAt | src/triangulate/earclipping.rs:478-494 | the points searched after a clip are the previous search's points with the ear's point removed |
| EarClipping.EarTri | src/triangulate/earclipping.rs:488-492 | the emitted triple of vertex references: wrapping predecessor, ear, wrapping successor |
| EarClipping.EarTriModular | src/triangulate/earclipping.rs:488-492 | the predecessor and successor are the vertices at `(ear - 1) mod n` and `(ear + 1) mod n` |
| EarClipping.ClipFails | src/triangulate/earclipping.rs:452-456 | a failed ear search makes the whole clipping `NoEarFound` |
| EarClipping.ClipAdvance | src/triangulate/earclipping.rs:488-494 | pushing the ear triangle and removing the ear keeps the overall outcome |
| EarClipping.Triangulate | src/triangulate/earclipping.rs:431-498 | `TooFewVertices` below three vertices; a three-vertex polygon unchanged; otherwise the outcome of `Clip`, with exactly `n - 2` triangles on success and only `NoEarFound` as error |
| EarClipping.FaceOutputAgreesWithClip | src/triangulate/earclipping.rs:181-243 | the iterator yields at most `n - 2` triangles; the batch loop succeeds exactly when it yields `n - 2`, and then both give the same triangles |
| EarClipping.EarTriWinding | src/triangulate/earclipping.rs:205-238 | an accepted ear's triangle references mesh positions and has the polygon's winding |
| EarClipping.FaceOutputWinding | src/triangulate/earclipping.rs:181-243 | every triangle a face yields has the polygon's winding |
| EarClipping.TriangleFaceOutput | src/triangulate/earclipping.rs:234-242 | on a three-vertex face the iterator yields the single triangle `[p2, p0, p1]` |
| FaceTriangulation.FaceTriangulator.constructor | src/triangulate/earclipping.rs:169-175 | the fields take the given values and the reflex buffer starts empty |
| FaceTriangulation.FaceTriangulator.FromObjPolygon | src/triangulate/earclipping.rs:161-176 | `TooFewVertices` exactly below three vertices; otherwise a fresh triangulator holding the polygon, its flattening matrix and its polygon winding |
| FaceTriangulation.FaceTriangulator.New | src/triangulate/earclipping.rs:150-159 | fails exactly when the face has fewer than three vertices; otherwise the triangulator will yield `FaceRun` of the face |
| FaceTriangulation.FaceTriangulator.Next | src/triangulate/earclipping.rs:181-243 | `None` with nothing changed below three vertices; otherwise the ear triangle with the ear removed, or `None` with the polygon cleared; the reflex buffer as `ReflexBefore`; yields the head of `Pending()` |
| FaceTriangulation.FaceTriangulator.SizeHint | src/triangulate/earclipping.rs:245-248 | both bounds are `len - 2`, saturating at zero; an upper bound on what remains, reached exactly when no later search fails |
| Hierarchy.FaceRunSkip | src/triangulate/earclipping.rs:314-324 | a face with fewer than three vertices yields nothing, so skipping it loses no triangle |
| Hierarchy.GroupRunSkip | src/triangulate/earclipping.rs:363-373 | a group that yields nothing can be skipped without losing a triangle |
| Hierarchy.ObjectRunSkip | src/triangulate/earclipping.rs:408-418 | an object that yields nothing can be skipped without losing a triangle |
| Hierarchy.NoValidFaceYieldsNothing | src/triangulate/earclipping.rs:313-326 | a group whose faces all have fewer than three vertices yields no triangle |
| Hierarchy.NoValidGroupYieldsNothing | src/triangulate/earclipping.rs:362-375 | an object whose groups are all invalid yields no triangle |
| Hierarchy.NoValidObjectYieldsNothing | src/triangulate/earclipping.rs:407-419 | a mesh whose objects are all invalid yields no triangle |
| Hierarchy.GroupTriangulator.constructor | src/triangulate/earclipping.rs:317-322 | with a valid child for face `i`, the triangulator yields the faces' runs from `i` on |
| Hierarchy.GroupTriangulator.SeekFace | src/triangulate/earclipping.rs:314-324 | returns the first face from `from` on with three or more vertices, with a fresh triangulator for it, or the end of the list; the skipped faces yield nothing |
| Hierarchy.GroupTriangulator.New | src/triangulate/earclipping.rs:313-326 | `NoValidFacesFound` exactly when no face has three vertices; otherwise a triangulator that yields `GroupRun` |
| Hierarchy.GroupTriangulator.AdvanceFace | src/triangulate/earclipping.rs:270-281 | the face index strictly grows, and what remains is the concatenation of the later faces' runs |
| Hierarchy.GroupTriangulator.NextFromFace | src/triangulate/earclipping.rs:265-281 | either yields the head of `Pending()`, or moves to a later face with `Pending()` unchanged |
| Hierarchy.GroupTriangulator.Next | src/triangulate/earclipping.rs:259-283 | yields the head of `Pending()` and keeps the rest, `None` exactly when nothing is pending (and then the index is past the end), and the face index never decreases |
| Hierarchy.ObjectTriangulator.constructor | src/triangulate/earclipping.rs:366-371 | with a valid child for group `i`, the triangulator yields the groups' runs from `i` on |
| Hierarchy.ObjectTriangulator.SeekGroup | src/triangulate/earclipping.rs:363-373 | returns the first group from `from` on with a valid face, with a fresh triangulator for it, or the end of the list; the skipped groups yield nothing |
| Hierarchy.ObjectTriangulator.New | src/triangulate/earclipping.rs:362-375 | `NoValidGroupsFound` exactly when no group has a valid face; otherwise a triangulator that yields `ObjectRun` |
| Hierarchy.ObjectTriangulator.AdvanceGroup | src/triangulate/earclipping.rs:270-281 | the group index strictly grows, and what remains is the concatenation of the later groups' runs |
| Hierarchy.ObjectTriangulator.NextFromGroup | src/triangulate/earclipping.rs:265-281 | either yields the head of `Pending()`, or moves to a later group with `Pending()` unchanged |
| Hierarchy.ObjectTriangulator.Next | src/triangulate/earclipping.rs:259-283 | yields the head of `Pending()` and keeps the rest, `None` exactly when nothing is pending, and the group index never decreases |
| Hierarchy.ObjTriangulator.constructor | src/triangulate/earclipping.rs:411-415 | with a valid child for object `i`, the triangulator yields the objects' runs from `i` on |
| Hierarchy.ObjTriangulator.SeekObject | src/triangulate/earclipping.rs:408-418 | returns the first object from `from` on with a valid group, with a fresh triangulator for it, or the end of the list; the skipped objects yield nothing |
| Hierarchy.ObjTriangulator.FromObj | src/triangulate/earclipping.rs:407-419 | `NoValidObjectsFound` exactly when no object has a valid group; otherwise a triangulator that yields `MeshRun` |
| Hierarchy.ObjTriangulator.AdvanceObject | src/triangulate/earclipping.rs:270-281 | the object index strictly grows, and what remains is the concatenation of the later objects' runs |
| Hierarchy.ObjTriangulator.NextFromObject | src/triangulate/earclipping.rs:265-281 | either yields the head of `Pending()`, or moves to a later object with `Pending()` unchanged |
| Hierarchy.ObjTriangulator.Next | src/triangulate/earclipping.rs:259-283 | yields the head of `Pending()` and keeps the rest, `None` exactly when nothing is pending, and the object index never decreases |

## Left out

- `fit_plane_normal` and `Vec3::unit_align` (floating-point vector algebra) are not modelled. The model takes the flattening matrix from a parameter `flatten`, so it states nothing about which plane is chosen or about the division by zero when the normal is anti-parallel to `UNIT_Y`.
- Reading a position that does not exist is not modelled. `OBJ::pos` panics when a vertex's position index is zero or past the end of `positions`. The model instead requires every vertex of a face with three or more vertices to reference an existing position (for `triangulate`, of a polygon with four or more vertices). Faces that are rejected as too small never read a position, so they are not constrained.
- `f32` rounding is not modelled: coordinates are reals, and the `f32::EPSILON` tolerance of `approx_eq!` is read as exact equality.
- Geometric correctness of the output is not modelled: areas summing to the polygon's area, ears not overlapping, and the rotated-plane tests built on `sin_cos`. These depend on trigonometry and float tolerances.
- The `usize::MAX` start and `wrapping_add` of the ear counter are modelled as a counter starting at 0, which is the value the first wrapping step gives.
- EarSearch.SearchEar computes the projected points of the working polygon once per search instead of at each access. The values are the same, since the polygon does not change during a search.
- Hierarchy.GroupTriangulator.AdvanceFace, Hierarchy.ObjectTriangulator.AdvanceGroup and Hierarchy.ObjTriangulator.AdvanceObject scan with a local index and assign the index field once. The source increments the field in place at each step. The final state is the same, because no child is consulted in between.
- `GroupTriangulator::new`, `ObjectTriangulator::new` and `ObjTriangulator::from_obj` are modelled in the same way: their loop is the Seek method, followed by the constructor.
- Rust lifetimes and borrows are not modelled. Children are referenced by value, and the `obj` and `group`/`object` references are immutable fields.
- `src/lib.rs`, `tests/lib.rs` (file input and printing), `src/math/vec2.rs` and the `Display` formatting are not part of this model. The mesh shape is the one `earclipping.rs` uses (`objects`, `groups`, `faces`, `Vec3` positions).
- The behaviour of `next` after the hierarchy has ended is stated through `Pending()`: once it is empty, every later call returns `None`, by the same contract.
