/** The scene (common/Scene.cpp): an ordered list of object pointers, an
    ordered render pass that skips null objects and objects without a
    shader, and a destructor that deletes every entry. The render pass and
    the destructor report what they do as a trace of events. */
module SceneGraph {

  /** A shader program; only its identity matters here. */
  class Shader {
    const programID: nat

    constructor (programID: nat)
      ensures this.programID == programID
    {
      this.programID := programID;
    }
  }

  /** A drawable object with the shader it is drawn with (possibly none). */
  class SceneObject {
    var shader: Shader?

    constructor (shader: Shader?)
      ensures this.shader == shader
    {
      this.shader := shader;
    }
  }

  /** What the render pass does for a drawn entry: bind `shader`, then
      render `obj`, the object at `index`. */
  datatype Visit = Visit(index: nat, shader: Shader, obj: SceneObject)

  /** Entry `i` is drawn: it is an object and it has a shader. */
  predicate Renderable(objs: seq<SceneObject?>, i: int)
    reads set o: SceneObject | o in objs
  {
    0 <= i < |objs| && objs[i] != null && objs[i].shader != null
  }

  /** The visits a render pass over `objs` makes, entry by entry. */
  function Trace(objs: seq<SceneObject?>): seq<Visit>
    reads set o: SceneObject | o in objs
    decreases |objs|
  {
    if objs == [] then []
    else
      var i := |objs| - 1;
      assert forall o: SceneObject | o in objs[..i] :: o in objs;
      Trace(objs[..i]) + (if Renderable(objs, i) then [Visit(i, objs[i].shader, objs[i])] else [])
  }

  /** Every visit is of a renderable entry, with that entry's own shader and object. */
  lemma {:induction false} VisitsMatchEntries(objs: seq<SceneObject?>)
    ensures forall k :: 0 <= k < |Trace(objs)| ==>
      Renderable(objs, Trace(objs)[k].index)
      && Trace(objs)[k].obj == objs[Trace(objs)[k].index]
      && Trace(objs)[k].shader == objs[Trace(objs)[k].index].shader
    decreases |objs|
  {
    if objs != [] {
      var i := |objs| - 1;
      var prefix := objs[..i];
      VisitsMatchEntries(prefix);
      forall k | 0 <= k < |Trace(prefix)|
        ensures prefix[Trace(prefix)[k].index] == objs[Trace(prefix)[k].index]
      {
      }
    }
  }

  /** Visits come in strictly ascending index order, so no entry is visited twice. */
  lemma {:induction false} VisitsAscending(objs: seq<SceneObject?>)
    ensures forall k, l :: 0 <= k < l < |Trace(objs)| ==> Trace(objs)[k].index < Trace(objs)[l].index
    decreases |objs|
  {
    if objs != [] {
      var prefix := objs[..|objs| - 1];
      VisitsAscending(prefix);
      VisitsMatchEntries(prefix);
    }
  }

  /** Every renderable entry is visited. */
  lemma {:induction false} RenderableVisited(objs: seq<SceneObject?>, j: int)
    requires Renderable(objs, j)
    ensures exists k :: 0 <= k < |Trace(objs)| && Trace(objs)[k].index == j
    decreases |objs|
  {
    var i := |objs| - 1;
    var prefix := objs[..i];
    var t := Trace(prefix);
    if j < i {
      assert prefix[j] == objs[j];
      RenderableVisited(prefix, j);
      var k :| 0 <= k < |t| && t[k].index == j;
      assert Trace(objs)[k] == t[k];
    } else {
      assert Trace(objs)[|t|].index == j;
    }
  }

  /** Entries that are not renderable are never visited. */
  lemma SkippedNeverVisited(objs: seq<SceneObject?>, i: int)
    requires 0 <= i < |objs| && (objs[i] == null || objs[i].shader == null)
    ensures forall k :: 0 <= k < |Trace(objs)| ==> Trace(objs)[k].index != i
  {
    VisitsMatchEntries(objs);
  }

  class Scene {
    var sceneObjects: seq<SceneObject?>

    constructor ()
      ensures sceneObjects == []
    {
      sceneObjects := [];
    }

    /** addObject: appends at the end. */
    method AddObject(obj: SceneObject?)
      modifies this
      ensures sceneObjects == old(sceneObjects) + [obj]
      ensures |sceneObjects| == |old(sceneObjects)| + 1
      ensures sceneObjects[..|old(sceneObjects)|] == old(sceneObjects)
    {
      sceneObjects := sceneObjects + [obj];
    }

    /** render: the shader binds and draws, in order. */
    method Render() returns (trace: seq<Visit>)
      ensures trace == Trace(sceneObjects)
    {
      trace := [];
      var i := 0;
      while i < |sceneObjects|
        invariant 0 <= i <= |sceneObjects|
        invariant trace == Trace(sceneObjects[..i])
      {
        assert sceneObjects[..i + 1][..i] == sceneObjects[..i];
        var obj := sceneObjects[i];
        if obj == null {
          i := i + 1;
          continue;
        }
        var shader := obj.shader;
        if shader == null {
          i := i + 1;
          continue;
        }
        trace := trace + [Visit(i, shader, obj)];
        i := i + 1;
      }
      assert sceneObjects[..|sceneObjects|] == sceneObjects;
    }

    /** The destructor: deletes every entry in order (deleting null does
        nothing), then empties the list. */
    method Destroy() returns (deleted: seq<SceneObject>)
      modifies this
      ensures sceneObjects == []
      ensures forall o :: o in deleted <==> o in old(sceneObjects)
      ensures |deleted| <= |old(sceneObjects)|
    {
      deleted := [];
      var i := 0;
      while i < |sceneObjects|
        invariant 0 <= i <= |sceneObjects|
        invariant forall o :: o in deleted <==> o in sceneObjects[..i]
        invariant |deleted| <= i
      {
        var obj := sceneObjects[i];
        if obj != null {
          deleted := deleted + [obj];
        }
        assert sceneObjects[..i + 1] == sceneObjects[..i] + [obj];
        i := i + 1;
      }
      assert sceneObjects[..|sceneObjects|] == sceneObjects;
      sceneObjects := [];
    }
  }
}
