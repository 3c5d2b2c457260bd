/**
 * The scene graph the triangulators walk: an OBJ holds the global position
 * array and its objects; an object holds groups, a group holds faces, and a
 * face is a loop of vertex references.
 */
module Mesh {
  import opened Wrappers
  import opened Math

  /**
   * A vertex reference: indices of a position, a texture coordinate and a
   * normal. The position index is 1-based.
   */
  datatype Vertex = Vertex(position: nat, texcoord: nat, normal: nat)

  datatype Face =
    | Tri(a: Vertex, b: Vertex, c: Vertex)
    | Quad(a: Vertex, b: Vertex, c: Vertex, d: Vertex)
    | NGon(vertices: seq<Vertex>)

  datatype Group = Group(name: string, faces: seq<Face>, material: Option<string>)

  datatype Object = Object(name: string, groups: seq<Group>)

  datatype Obj = Obj(positions: seq<Vec3>, objects: seq<Object>)

  /**
   * The face's vertex loop, copied into a vector for every variant. Only an
   * `NGon` can have fewer than three vertices.
   */
  function Vertices(face: Face): (vs: seq<Vertex>)
    ensures !face.NGon? ==> 3 <= |vs| <= 4
  {
    match face
    case Tri(a, b, c) => [a, b, c]
    case Quad(a, b, c, d) => [a, b, c, d]
    case NGon(vertices) => vertices
  }

  /** The position lookup `positions[vertex[0] - 1]` is defined (it panics otherwise). */
  predicate VertexInMesh(obj: Obj, v: Vertex)
  {
    1 <= v.position <= |obj.positions|
  }

  predicate PolygonInMesh(obj: Obj, polygon: seq<Vertex>)
  {
    forall v :: v in polygon ==> VertexInMesh(obj, v)
  }

  /**
   * A face with fewer than three vertices is rejected before any position is
   * read, so only larger faces need valid references.
   */
  predicate FaceInMesh(obj: Obj, face: Face)
  {
    |Vertices(face)| < 3 || PolygonInMesh(obj, Vertices(face))
  }

  predicate FacesInMesh(obj: Obj, faces: seq<Face>)
  {
    forall f :: f in faces ==> FaceInMesh(obj, f)
  }

  predicate GroupsInMesh(obj: Obj, groups: seq<Group>)
  {
    forall g :: g in groups ==> FacesInMesh(obj, g.faces)
  }

  predicate ObjectsInMesh(obj: Obj, objects: seq<Object>)
  {
    forall o :: o in objects ==> GroupsInMesh(obj, o.groups)
  }
}
