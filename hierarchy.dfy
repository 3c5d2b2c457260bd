/**
 * The group, object and whole-mesh triangulators: each walks its list of
 * children, keeping one child triangulator at a time and skipping children
 * that cannot be triangulated at all.
 */
module Hierarchy {
  import opened Wrappers
  import opened Math
  import opened Mesh
  import opened EarClipping
  import opened FaceTriangulation

  /** No face of the list has three or more vertices. */
  predicate NoValidFace(faces: seq<Face>)
  {
    forall k :: 0 <= k < |faces| ==> |Vertices(faces[k])| < 3
  }

  /** No group of the list has a face with three or more vertices. */
  predicate NoValidGroup(groups: seq<Group>)
  {
    forall k :: 0 <= k < |groups| ==> NoValidFace(groups[k].faces)
  }

  /** No object of the list has a group with a face with three or more vertices. */
  predicate NoValidObject(objects: seq<Object>)
  {
    forall k :: 0 <= k < |objects| ==> NoValidGroup(objects[k].groups)
  }

  /** The runs from index `i` on, one after another. */
  function Concat(runs: seq<seq<Tri>>, i: nat): seq<Tri>
    decreases |runs| - i
  {
    if i >= |runs| then [] else runs[i] + Concat(runs, i + 1)
  }

  /** One step of `Concat`. */
  lemma ConcatAt(runs: seq<seq<Tri>>, i: nat)
    requires i < |runs|
    ensures Concat(runs, i) == runs[i] + Concat(runs, i + 1)
  {
  }

  /** Empty runs concatenate to nothing. */
  lemma {:induction false} ConcatOfEmpty(runs: seq<seq<Tri>>, i: nat)
    requires forall k :: i <= k < |runs| ==> runs[k] == []
    ensures Concat(runs, i) == []
    decreases |runs| - i
  {
    if i < |runs| {
      ConcatOfEmpty(runs, i + 1);
    }
  }

  /** Taking a triangle off the front of a run leaves the later runs in place. */
  lemma PrependAssoc(t: Tri, s: seq<Tri>, later: seq<Tri>)
    ensures ([t] + s) + later == [t] + (s + later)
  {
  }

  /** What each face of the list yields, in list order. */
  function FaceRunsOf(obj: Obj, flatten: seq<Vertex> -> Mat3, faces: seq<Face>): seq<seq<Tri>>
    requires FacesInMesh(obj, faces)
  {
    seq(|faces|, k requires 0 <= k < |faces| => FaceRun(obj, flatten, faces[k]))
  }

  /** All the triangles a group triangulator yields: its faces' triangles, face after face. */
  function GroupRun(obj: Obj, flatten: seq<Vertex> -> Mat3, group: Group): seq<Tri>
    requires FacesInMesh(obj, group.faces)
  {
    Concat(FaceRunsOf(obj, flatten, group.faces), 0)
  }

  /** What each group of the list yields, in list order. */
  function GroupRunsOf(obj: Obj, flatten: seq<Vertex> -> Mat3, groups: seq<Group>): seq<seq<Tri>>
    requires GroupsInMesh(obj, groups)
  {
    seq(|groups|, k requires 0 <= k < |groups| => GroupRun(obj, flatten, groups[k]))
  }

  /** All the triangles an object triangulator yields: its groups' triangles, group after group. */
  function ObjectRun(obj: Obj, flatten: seq<Vertex> -> Mat3, meshObject: Object): seq<Tri>
    requires GroupsInMesh(obj, meshObject.groups)
  {
    Concat(GroupRunsOf(obj, flatten, meshObject.groups), 0)
  }

  /** What each object of the list yields, in list order. */
  function ObjectRunsOf(obj: Obj, flatten: seq<Vertex> -> Mat3, objects: seq<Object>): seq<seq<Tri>>
    requires ObjectsInMesh(obj, objects)
  {
    seq(|objects|, k requires 0 <= k < |objects| => ObjectRun(obj, flatten, objects[k]))
  }

  /** All the triangles a whole-mesh triangulator yields: its objects' triangles, object after object. */
  function MeshRun(obj: Obj, flatten: seq<Vertex> -> Mat3): seq<Tri>
    requires ObjectsInMesh(obj, obj.objects)
  {
    Concat(ObjectRunsOf(obj, flatten, obj.objects), 0)
  }

  /**
   * `runs` records what each face yields. A triangulator keeps such a record
   * of its children so that its own proofs need not unfold what a child
   * computes: the link to `FaceRun` is used only where that run is mentioned.
   */
  ghost predicate RecordedFaceRuns(obj: Obj, flatten: seq<Vertex> -> Mat3, faces: seq<Face>, runs: seq<seq<Tri>>)
  {
    FacesInMesh(obj, faces) && |runs| == |faces|
    && forall k {:trigger FaceRun(obj, flatten, faces[k])} ::
         0 <= k < |faces| ==> runs[k] == FaceRun(obj, flatten, faces[k])
  }

  /** `FaceRunsOf` is such a record. */
  lemma FaceRunsOfRecorded(obj: Obj, flatten: seq<Vertex> -> Mat3, faces: seq<Face>)
    requires FacesInMesh(obj, faces)
    ensures RecordedFaceRuns(obj, flatten, faces, FaceRunsOf(obj, flatten, faces))
  {
  }

  /** `runs` records what each group yields. */
  ghost predicate RecordedGroupRuns(obj: Obj, flatten: seq<Vertex> -> Mat3, groups: seq<Group>, runs: seq<seq<Tri>>)
  {
    GroupsInMesh(obj, groups) && |runs| == |groups|
    && forall k {:trigger GroupRun(obj, flatten, groups[k])} ::
         0 <= k < |groups| ==> runs[k] == GroupRun(obj, flatten, groups[k])
  }

  /** `GroupRunsOf` is such a record. */
  lemma GroupRunsOfRecorded(obj: Obj, flatten: seq<Vertex> -> Mat3, groups: seq<Group>)
    requires GroupsInMesh(obj, groups)
    ensures RecordedGroupRuns(obj, flatten, groups, GroupRunsOf(obj, flatten, groups))
  {
  }

  /** `runs` records what each object yields. */
  ghost predicate RecordedObjectRuns(obj: Obj, flatten: seq<Vertex> -> Mat3, objects: seq<Object>, runs: seq<seq<Tri>>)
  {
    ObjectsInMesh(obj, objects) && |runs| == |objects|
    && forall k {:trigger ObjectRun(obj, flatten, objects[k])} ::
         0 <= k < |objects| ==> runs[k] == ObjectRun(obj, flatten, objects[k])
  }

  /** `ObjectRunsOf` is such a record. */
  lemma ObjectRunsOfRecorded(obj: Obj, flatten: seq<Vertex> -> Mat3, objects: seq<Object>)
    requires ObjectsInMesh(obj, objects)
    ensures RecordedObjectRuns(obj, flatten, objects, ObjectRunsOf(obj, flatten, objects))
  {
  }

  /** A face with fewer than three vertices yields nothing. */
  lemma FaceRunSkip(obj: Obj, flatten: seq<Vertex> -> Mat3, faces: seq<Face>, runs: seq<seq<Tri>>, i: nat)
    requires RecordedFaceRuns(obj, flatten, faces, runs) && i < |faces| && |Vertices(faces[i])| < 3
    ensures runs[i] == [] && Concat(runs, i) == Concat(runs, i + 1)
  {
    assert runs[i] == FaceRun(obj, flatten, faces[i]);
  }

  /** A group that yields nothing leaves the concatenation unchanged. */
  lemma GroupRunSkip(obj: Obj, flatten: seq<Vertex> -> Mat3, groups: seq<Group>, runs: seq<seq<Tri>>, i: nat)
    requires RecordedGroupRuns(obj, flatten, groups, runs) && i < |groups| && GroupRun(obj, flatten, groups[i]) == []
    ensures runs[i] == [] && Concat(runs, i) == Concat(runs, i + 1)
  {
  }

  /** An object that yields nothing leaves the concatenation unchanged. */
  lemma ObjectRunSkip(obj: Obj, flatten: seq<Vertex> -> Mat3, objects: seq<Object>, runs: seq<seq<Tri>>, i: nat)
    requires RecordedObjectRuns(obj, flatten, objects, runs) && i < |objects| && ObjectRun(obj, flatten, objects[i]) == []
    ensures runs[i] == [] && Concat(runs, i) == Concat(runs, i + 1)
  {
  }

  /** A group none of whose faces has three vertices yields nothing. */
  lemma NoValidFaceYieldsNothing(obj: Obj, flatten: seq<Vertex> -> Mat3, group: Group)
    requires FacesInMesh(obj, group.faces) && NoValidFace(group.faces)
    ensures GroupRun(obj, flatten, group) == []
  {
    var runs := FaceRunsOf(obj, flatten, group.faces);
    FaceRunsOfRecorded(obj, flatten, group.faces);
    forall k | 0 <= k < |runs|
      ensures runs[k] == []
    {
      assert runs[k] == FaceRun(obj, flatten, group.faces[k]);
    }
    ConcatOfEmpty(runs, 0);
  }

  /** An object none of whose groups has a face with three vertices yields nothing. */
  lemma NoValidGroupYieldsNothing(obj: Obj, flatten: seq<Vertex> -> Mat3, meshObject: Object)
    requires GroupsInMesh(obj, meshObject.groups) && NoValidGroup(meshObject.groups)
    ensures ObjectRun(obj, flatten, meshObject) == []
  {
    var runs := GroupRunsOf(obj, flatten, meshObject.groups);
    GroupRunsOfRecorded(obj, flatten, meshObject.groups);
    forall k | 0 <= k < |runs|
      ensures runs[k] == []
    {
      NoValidFaceYieldsNothing(obj, flatten, meshObject.groups[k]);
    }
    ConcatOfEmpty(runs, 0);
  }

  /** A mesh none of whose objects has a face with three vertices yields nothing. */
  lemma NoValidObjectYieldsNothing(obj: Obj, flatten: seq<Vertex> -> Mat3)
    requires ObjectsInMesh(obj, obj.objects) && NoValidObject(obj.objects)
    ensures MeshRun(obj, flatten) == []
  {
    var runs := ObjectRunsOf(obj, flatten, obj.objects);
    ObjectRunsOfRecorded(obj, flatten, obj.objects);
    forall k | 0 <= k < |runs|
      ensures runs[k] == []
    {
      NoValidGroupYieldsNothing(obj, flatten, obj.objects[k]);
    }
    ConcatOfEmpty(runs, 0);
  }

  /** `GroupTriangulator`: the current face and the triangulator for it. */
  class GroupTriangulator {
    const obj: Obj
    const flatten: seq<Vertex> -> Mat3
    const group: Group
    var faceIndex: nat
    var triangulator: FaceTriangulator
    /** What each face of the group yields. */
    ghost const runs: seq<seq<Tri>>

    ghost predicate Valid()
      reads this, triangulator
    {
      RecordedFaceRuns(obj, flatten, group.faces, runs) && faceIndex <= |group.faces| && triangulator.Valid()
    }

    /** What the current face still yields, then every later face. */
    ghost function Pending(): seq<Tri>
      reads this, triangulator
      requires Valid()
    {
      if faceIndex < |group.faces| then triangulator.Pending() + Concat(runs, faceIndex + 1)
      else []
    }

    constructor (obj: Obj, flatten: seq<Vertex> -> Mat3, group: Group, faceIndex: nat,
                 triangulator: FaceTriangulator, ghost runs: seq<seq<Tri>>)
      requires RecordedFaceRuns(obj, flatten, group.faces, runs) && faceIndex < |group.faces|
      requires triangulator.Valid() && triangulator.Pending() == runs[faceIndex]
      ensures this.obj == obj && this.flatten == flatten && this.group == group
      ensures this.faceIndex == faceIndex && this.triangulator == triangulator && this.runs == runs
      ensures Valid() && Pending() == Concat(runs, faceIndex)
    {
      this.obj := obj;
      this.flatten := flatten;
      this.group := group;
      this.faceIndex := faceIndex;
      this.triangulator := triangulator;
      this.runs := runs;
      ConcatAt(runs, faceIndex);
    }

    /**
     * The search both `new` and `next` make: the first face from index
     * `from` on that a triangulator can be built for, with that
     * triangulator, or the end of the list.
     */
    static method SeekFace(obj: Obj, flatten: seq<Vertex> -> Mat3, faces: seq<Face>, ghost runs: seq<seq<Tri>>, from: nat)
        returns (index: nat, t: Option<FaceTriangulator>)
      requires RecordedFaceRuns(obj, flatten, faces, runs) && from <= |faces|
      ensures from <= index <= |faces|
      ensures forall k :: from <= k < index ==> |Vertices(faces[k])| < 3
      ensures t.None? <==> index == |faces|
      ensures t.Some? ==> |Vertices(faces[index])| >= 3
      ensures t.Some? ==> fresh(t.value) && t.value.Valid() && t.value.obj == obj
      ensures t.Some? ==> t.value.Pending() == runs[index] && Concat(runs, from) == Concat(runs, index)
      ensures t.None? ==> Concat(runs, from) == []
    {
      index := from;
      while index < |faces|
        invariant from <= index <= |faces|
        invariant forall k :: from <= k < index ==> |Vertices(faces[k])| < 3
        invariant Concat(runs, from) == Concat(runs, index)
        decreases |faces| - index
      {
        var r := FaceTriangulator.New(obj, flatten, faces[index]);
        if r.Ok? {
          return index, Some(r.value);
        }
        FaceRunSkip(obj, flatten, faces, runs, index);
        index := index + 1;
      }
      return index, None;
    }

    /**
     * `new`: starts at the first face with three or more vertices, or fails
     * with `NoValidFacesFound` when there is none.
     */
    static method New(obj: Obj, flatten: seq<Vertex> -> Mat3, group: Group) returns (r: Result<GroupTriangulator>)
      requires FacesInMesh(obj, group.faces)
      ensures r.Err? <==> NoValidFace(group.faces)
      ensures r.Err? ==> r.error == NoValidFacesFound && GroupRun(obj, flatten, group) == []
      ensures r.Ok? ==> fresh(r.value) && fresh(r.value.triangulator) && r.value.Valid()
      ensures r.Ok? ==> r.value.obj == obj && r.value.flatten == flatten && r.value.group == group
      ensures r.Ok? ==> r.value.Pending() == GroupRun(obj, flatten, group)
    {
      ghost var runs := FaceRunsOf(obj, flatten, group.faces);
      FaceRunsOfRecorded(obj, flatten, group.faces);
      var index, t := SeekFace(obj, flatten, group.faces, runs, 0);
      if t.None? {
        return Err(NoValidFacesFound);
      }
      var g := new GroupTriangulator(obj, flatten, group, index, t.value, runs);
      return Ok(g);
    }

    /**
     * The inner loop of `next`: moves past the current face to the next one
     * a triangulator can be built for, or to the end of the list.
     */
    method AdvanceFace()
      requires Valid() && faceIndex < |group.faces|
      modifies this
      ensures Valid() && old(faceIndex) < faceIndex
      ensures triangulator == old(triangulator) || fresh(triangulator)
      ensures Pending() == Concat(runs, old(faceIndex) + 1)
    {
      var index, t := SeekFace(obj, flatten, group.faces, runs, faceIndex + 1);
      faceIndex := index;
      if t.Some? {
        triangulator := t.value;
        ConcatAt(runs, index);
      }
    }

    /**
     * One pass of the outer loop of `next`: asks the current face's
     * triangulator for a triangle and, when it has none left, moves to the
     * next face that can be triangulated.
     */
    method NextFromFace() returns (r: Option<Tri>)
      requires Valid() && faceIndex < |group.faces|
      modifies this, triangulator
      ensures Valid() && old(faceIndex) <= faceIndex
      ensures triangulator == old(triangulator) || fresh(triangulator)
      ensures r.Some? ==> old(Pending()) == [r.value] + Pending()
      ensures r.None? ==> old(Pending()) == Pending() && old(faceIndex) < faceIndex
    {
      r := triangulator.Next();
      if r.None? {
        assert old(Pending()) == Concat(runs, faceIndex + 1);
        AdvanceFace();
      } else {
        PrependAssoc(r.value, triangulator.Pending(), Concat(runs, faceIndex + 1));
      }
    }

    /**
     * `next`: the current face's next triangle; when that face is done,
     * moves on to the next face that can be triangulated and tries again.
     */
    method Next() returns (r: Option<Tri>)
      requires Valid()
      modifies this, triangulator
      ensures Valid()
      ensures r.None? <==> old(Pending()) == []
      ensures r.Some? ==> old(Pending()) == [r.value] + Pending()
      ensures r.None? ==> Pending() == [] && faceIndex >= |group.faces|
      ensures old(faceIndex) <= faceIndex
      ensures triangulator == old(triangulator) || fresh(triangulator)
    {
      while true
        invariant Valid() && Pending() == old(Pending())
        invariant old(faceIndex) <= faceIndex
        invariant triangulator == old(triangulator) || fresh(triangulator)
        decreases |group.faces| - faceIndex
      {
        if faceIndex >= |group.faces| {
          return None;
        }
        r := NextFromFace();
        if r.Some? {
          return r;
        }
      }
    }
  }

  /** `ObjectTriangulator`: the current group and the triangulator for it. */
  class ObjectTriangulator {
    const obj: Obj
    const flatten: seq<Vertex> -> Mat3
    const meshObject: Object
    var groupIndex: nat
    var triangulator: GroupTriangulator
    /** What each group of the object yields. */
    ghost const runs: seq<seq<Tri>>

    ghost predicate Valid()
      reads this, triangulator, triangulator.triangulator
    {
      RecordedGroupRuns(obj, flatten, meshObject.groups, runs) && groupIndex <= |meshObject.groups|
      && triangulator.Valid()
    }

    /** What the current group still yields, then every later group. */
    ghost function Pending(): seq<Tri>
      reads this, triangulator, triangulator.triangulator
      requires Valid()
    {
      if groupIndex < |meshObject.groups| then triangulator.Pending() + Concat(runs, groupIndex + 1)
      else []
    }

    constructor (obj: Obj, flatten: seq<Vertex> -> Mat3, meshObject: Object, groupIndex: nat,
                 triangulator: GroupTriangulator, ghost runs: seq<seq<Tri>>)
      requires RecordedGroupRuns(obj, flatten, meshObject.groups, runs) && groupIndex < |meshObject.groups|
      requires triangulator.Valid() && triangulator.Pending() == runs[groupIndex]
      ensures this.obj == obj && this.flatten == flatten && this.meshObject == meshObject
      ensures this.groupIndex == groupIndex && this.triangulator == triangulator && this.runs == runs
      ensures Valid() && Pending() == Concat(runs, groupIndex)
    {
      this.obj := obj;
      this.flatten := flatten;
      this.meshObject := meshObject;
      this.groupIndex := groupIndex;
      this.triangulator := triangulator;
      this.runs := runs;
      ConcatAt(runs, groupIndex);
    }

    /**
     * The search both `new` and `next` make: the first group from index
     * `from` on that a triangulator can be built for, with that
     * triangulator, or the end of the list.
     */
    static method SeekGroup(obj: Obj, flatten: seq<Vertex> -> Mat3, groups: seq<Group>, ghost runs: seq<seq<Tri>>, from: nat)
        returns (index: nat, t: Option<GroupTriangulator>)
      requires RecordedGroupRuns(obj, flatten, groups, runs) && from <= |groups|
      ensures from <= index <= |groups|
      ensures forall k :: from <= k < index ==> NoValidFace(groups[k].faces)
      ensures t.None? <==> index == |groups|
      ensures t.Some? ==> !NoValidFace(groups[index].faces)
      ensures t.Some? ==> fresh(t.value) && fresh(t.value.triangulator) && t.value.Valid()
      ensures t.Some? ==> t.value.Pending() == runs[index] && Concat(runs, from) == Concat(runs, index)
      ensures t.None? ==> Concat(runs, from) == []
    {
      index := from;
      while index < |groups|
        invariant from <= index <= |groups|
        invariant forall k :: from <= k < index ==> NoValidFace(groups[k].faces)
        invariant Concat(runs, from) == Concat(runs, index)
        decreases |groups| - index
      {
        var r := GroupTriangulator.New(obj, flatten, groups[index]);
        if r.Ok? {
          return index, Some(r.value);
        }
        GroupRunSkip(obj, flatten, groups, runs, index);
        index := index + 1;
      }
      return index, None;
    }

    /**
     * `new`: starts at the first group that has a face with three or more
     * vertices, or fails with `NoValidGroupsFound` when there is none.
     */
    static method New(obj: Obj, flatten: seq<Vertex> -> Mat3, meshObject: Object) returns (r: Result<ObjectTriangulator>)
      requires GroupsInMesh(obj, meshObject.groups)
      ensures r.Err? <==> NoValidGroup(meshObject.groups)
      ensures r.Err? ==> r.error == NoValidGroupsFound && ObjectRun(obj, flatten, meshObject) == []
      ensures r.Ok? ==> fresh(r.value) && fresh(r.value.triangulator) && fresh(r.value.triangulator.triangulator)
      ensures r.Ok? ==> r.value.Valid()
      ensures r.Ok? ==> r.value.obj == obj && r.value.flatten == flatten && r.value.meshObject == meshObject
      ensures r.Ok? ==> r.value.Pending() == ObjectRun(obj, flatten, meshObject)
    {
      ghost var runs := GroupRunsOf(obj, flatten, meshObject.groups);
      GroupRunsOfRecorded(obj, flatten, meshObject.groups);
      var index, t := SeekGroup(obj, flatten, meshObject.groups, runs, 0);
      if t.None? {
        return Err(NoValidGroupsFound);
      }
      var o := new ObjectTriangulator(obj, flatten, meshObject, index, t.value, runs);
      return Ok(o);
    }

    /**
     * The inner loop of `next`: moves past the current group to the next one
     * a triangulator can be built for, or to the end of the list.
     */
    method AdvanceGroup()
      requires Valid() && groupIndex < |meshObject.groups|
      modifies this
      ensures Valid() && old(groupIndex) < groupIndex
      ensures triangulator == old(triangulator) || (fresh(triangulator) && fresh(triangulator.triangulator))
      ensures Pending() == Concat(runs, old(groupIndex) + 1)
    {
      var index, t := SeekGroup(obj, flatten, meshObject.groups, runs, groupIndex + 1);
      groupIndex := index;
      if t.Some? {
        triangulator := t.value;
        ConcatAt(runs, index);
      }
    }

    /**
     * One pass of the outer loop of `next`: asks the current group's
     * triangulator for a triangle and, when it has none left, moves to the
     * next group that can be triangulated.
     */
    method NextFromGroup() returns (r: Option<Tri>)
      requires Valid() && groupIndex < |meshObject.groups|
      modifies this, triangulator, triangulator.triangulator
      ensures Valid() && old(groupIndex) <= groupIndex
      ensures triangulator == old(triangulator) || fresh(triangulator)
      ensures triangulator.triangulator == old(triangulator.triangulator) || fresh(triangulator.triangulator)
      ensures r.Some? ==> old(Pending()) == [r.value] + Pending()
      ensures r.None? ==> old(Pending()) == Pending() && old(groupIndex) < groupIndex
    {
      r := triangulator.Next();
      if r.None? {
        assert old(Pending()) == Concat(runs, groupIndex + 1);
        AdvanceGroup();
      } else {
        PrependAssoc(r.value, triangulator.Pending(), Concat(runs, groupIndex + 1));
      }
    }

    /**
     * `next`: the current group's next triangle; when that group is done,
     * moves on to the next group that can be triangulated and tries again.
     */
    method Next() returns (r: Option<Tri>)
      requires Valid()
      modifies this, triangulator, triangulator.triangulator
      ensures Valid()
      ensures r.None? <==> old(Pending()) == []
      ensures r.Some? ==> old(Pending()) == [r.value] + Pending()
      ensures r.None? ==> Pending() == [] && groupIndex >= |meshObject.groups|
      ensures old(groupIndex) <= groupIndex
      ensures triangulator == old(triangulator) || fresh(triangulator)
      ensures triangulator.triangulator == old(triangulator.triangulator) || fresh(triangulator.triangulator)
    {
      while true
        invariant Valid() && Pending() == old(Pending())
        invariant old(groupIndex) <= groupIndex
        invariant triangulator == old(triangulator) || fresh(triangulator)
        invariant triangulator.triangulator == old(triangulator.triangulator) || fresh(triangulator.triangulator)
        decreases |meshObject.groups| - groupIndex
      {
        if groupIndex >= |meshObject.groups| {
          return None;
        }
        r := NextFromGroup();
        if r.Some? {
          return r;
        }
      }
    }
  }

  /** `ObjTriangulator`: the current object of the whole mesh and the triangulator for it. */
  class ObjTriangulator {
    const obj: Obj
    const flatten: seq<Vertex> -> Mat3
    var objectIndex: nat
    var triangulator: ObjectTriangulator
    /** What each object of the mesh yields. */
    ghost const runs: seq<seq<Tri>>

    ghost predicate Valid()
      reads this, triangulator, triangulator.triangulator, triangulator.triangulator.triangulator
    {
      RecordedObjectRuns(obj, flatten, obj.objects, runs) && objectIndex <= |obj.objects| && triangulator.Valid()
    }

    /** What the current object still yields, then every later object. */
    ghost function Pending(): seq<Tri>
      reads this, triangulator, triangulator.triangulator, triangulator.triangulator.triangulator
      requires Valid()
    {
      if objectIndex < |obj.objects| then triangulator.Pending() + Concat(runs, objectIndex + 1)
      else []
    }

    constructor (obj: Obj, flatten: seq<Vertex> -> Mat3, objectIndex: nat,
                 triangulator: ObjectTriangulator, ghost runs: seq<seq<Tri>>)
      requires RecordedObjectRuns(obj, flatten, obj.objects, runs) && objectIndex < |obj.objects|
      requires triangulator.Valid() && triangulator.Pending() == runs[objectIndex]
      ensures this.obj == obj && this.flatten == flatten
      ensures this.objectIndex == objectIndex && this.triangulator == triangulator && this.runs == runs
      ensures Valid() && Pending() == Concat(runs, objectIndex)
    {
      this.obj := obj;
      this.flatten := flatten;
      this.objectIndex := objectIndex;
      this.triangulator := triangulator;
      this.runs := runs;
      ConcatAt(runs, objectIndex);
    }

    /**
     * The search both `from_obj` and `next` make: the first object from
     * index `from` on that a triangulator can be built for, with that
     * triangulator, or the end of the list.
     */
    static method SeekObject(obj: Obj, flatten: seq<Vertex> -> Mat3, objects: seq<Object>, ghost runs: seq<seq<Tri>>, from: nat)
        returns (index: nat, t: Option<ObjectTriangulator>)
      requires RecordedObjectRuns(obj, flatten, objects, runs) && from <= |objects|
      ensures from <= index <= |objects|
      ensures forall k :: from <= k < index ==> NoValidGroup(objects[k].groups)
      ensures t.None? <==> index == |objects|
      ensures t.Some? ==> !NoValidGroup(objects[index].groups)
      ensures t.Some? ==> fresh(t.value) && fresh(t.value.triangulator) && fresh(t.value.triangulator.triangulator)
      ensures t.Some? ==> t.value.Valid()
      ensures t.Some? ==> t.value.Pending() == runs[index] && Concat(runs, from) == Concat(runs, index)
      ensures t.None? ==> Concat(runs, from) == []
    {
      index := from;
      while index < |objects|
        invariant from <= index <= |objects|
        invariant forall k :: from <= k < index ==> NoValidGroup(objects[k].groups)
        invariant Concat(runs, from) == Concat(runs, index)
        decreases |objects| - index
      {
        var r := ObjectTriangulator.New(obj, flatten, objects[index]);
        if r.Ok? {
          return index, Some(r.value);
        }
        ObjectRunSkip(obj, flatten, objects, runs, index);
        index := index + 1;
      }
      return index, None;
    }

    /**
     * `from_obj`: starts at the first object that has a face with three or
     * more vertices, or fails with `NoValidObjectsFound` when there is none.
     */
    static method FromObj(obj: Obj, flatten: seq<Vertex> -> Mat3) returns (r: Result<ObjTriangulator>)
      requires ObjectsInMesh(obj, obj.objects)
      ensures r.Err? <==> NoValidObject(obj.objects)
      ensures r.Err? ==> r.error == NoValidObjectsFound && MeshRun(obj, flatten) == []
      ensures r.Ok? ==> fresh(r.value) && fresh(r.value.triangulator)
      ensures r.Ok? ==> fresh(r.value.triangulator.triangulator) && fresh(r.value.triangulator.triangulator.triangulator)
      ensures r.Ok? ==> r.value.Valid() && r.value.obj == obj && r.value.flatten == flatten
      ensures r.Ok? ==> r.value.Pending() == MeshRun(obj, flatten)
    {
      ghost var runs := ObjectRunsOf(obj, flatten, obj.objects);
      ObjectRunsOfRecorded(obj, flatten, obj.objects);
      var index, t := SeekObject(obj, flatten, obj.objects, runs, 0);
      if t.None? {
        return Err(NoValidObjectsFound);
      }
      var o := new ObjTriangulator(obj, flatten, index, t.value, runs);
      return Ok(o);
    }

    /**
     * The inner loop of `next`: moves past the current object to the next
     * one a triangulator can be built for, or to the end of the list.
     */
    method AdvanceObject()
      requires Valid() && objectIndex < |obj.objects|
      modifies this
      ensures Valid() && old(objectIndex) < objectIndex
      ensures triangulator == old(triangulator)
              || (fresh(triangulator) && fresh(triangulator.triangulator) && fresh(triangulator.triangulator.triangulator))
      ensures Pending() == Concat(runs, old(objectIndex) + 1)
    {
      var index, t := SeekObject(obj, flatten, obj.objects, runs, objectIndex + 1);
      objectIndex := index;
      if t.Some? {
        triangulator := t.value;
        ConcatAt(runs, index);
      }
    }

    /**
     * One pass of the outer loop of `next`: asks the current object's
     * triangulator for a triangle and, when it has none left, moves to the
     * next object that can be triangulated.
     */
    method NextFromObject() returns (r: Option<Tri>)
      requires Valid() && objectIndex < |obj.objects|
      modifies this, triangulator, triangulator.triangulator, triangulator.triangulator.triangulator
      ensures Valid() && old(objectIndex) <= objectIndex
      ensures triangulator == old(triangulator) || fresh(triangulator)
      ensures triangulator.triangulator == old(triangulator.triangulator) || fresh(triangulator.triangulator)
      ensures triangulator.triangulator.triangulator == old(triangulator.triangulator.triangulator)
              || fresh(triangulator.triangulator.triangulator)
      ensures r.Some? ==> old(Pending()) == [r.value] + Pending()
      ensures r.None? ==> old(Pending()) == Pending() && old(objectIndex) < objectIndex
    {
      r := triangulator.Next();
      if r.None? {
        AdvanceObject();
      } else {
        PrependAssoc(r.value, triangulator.Pending(), Concat(runs, objectIndex + 1));
      }
    }

    /**
     * `next`: the current object's next triangle; when that object is done,
     * moves on to the next object that can be triangulated and tries again.
     */
    method Next() returns (r: Option<Tri>)
      requires Valid()
      modifies this, triangulator, triangulator.triangulator, triangulator.triangulator.triangulator
      ensures Valid()
      ensures r.None? <==> old(Pending()) == []
      ensures r.Some? ==> old(Pending()) == [r.value] + Pending()
      ensures r.None? ==> Pending() == [] && objectIndex >= |obj.objects|
      ensures old(objectIndex) <= objectIndex
    {
      while true
        invariant Valid() && Pending() == old(Pending())
        invariant old(objectIndex) <= objectIndex
        invariant triangulator == old(triangulator) || fresh(triangulator)
        invariant triangulator.triangulator == old(triangulator.triangulator) || fresh(triangulator.triangulator)
        invariant triangulator.triangulator.triangulator == old(triangulator.triangulator.triangulator)
                  || fresh(triangulator.triangulator.triangulator)
        decreases |obj.objects| - objectIndex
      {
        if objectIndex >= |obj.objects| {
          return None;
        }
        r := NextFromObject();
        if r.Some? {
          return r;
        }
      }
    }
  }
}
