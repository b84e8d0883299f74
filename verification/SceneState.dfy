/** The scene cache: planning scene messages are accumulated into an insertion-ordered dictionary of
    collision objects, which is converted to the published scene objects; a reset command builds
    the diff that makes the scene hold exactly the requested objects. */
module SceneState {
  import opened Quaternion
  import opened PoseMath
  import opened Sequences
  import opened Wrappers

  datatype Operation = ADD | REMOVE | APPEND | MOVE

  datatype Primitive = Primitive(kind: int, dimensions: seq<real>)

  /** Meshes are only counted; a mesh is published by its pose. */
  datatype CollisionObject = CollisionObject(
    id: string, frame: string, operation: Operation, pose: Pose,
    primitives: seq<Primitive>, primitivePoses: seq<Pose>, meshes: nat, meshPoses: seq<Pose>)

  datatype SceneObject = SceneObject(name: string, kind: string, dimensions: seq<real>, pose: Pose)

  /** The dictionary, as its values in insertion order; the key of a value is its id. */
  type Cache = seq<CollisionObject>

  ghost predicate Distinct(cache: Cache) {
    forall i, j :: 0 <= i < j < |cache| ==> cache[i].id != cache[j].id
  }

  function Find(cache: Cache, id: string): Option<CollisionObject> {
    if cache == [] then None
    else if cache[0].id == id then Some(cache[0])
    else Find(cache[1..], id)
  }

  /** An existing key keeps its place. */
  function Put(cache: Cache, obj: CollisionObject): (r: Cache) {
    if cache == [] then [obj]
    else if cache[0].id == obj.id then [obj] + cache[1..]
    else [cache[0]] + Put(cache[1..], obj)
  }

  function Delete(cache: Cache, id: string): Cache {
    if cache == [] then []
    else if cache[0].id == id then cache[1..]
    else [cache[0]] + Delete(cache[1..], id)
  }

  /** What a MOVE does to a known object: its geometry stays. */
  function Moved(known: CollisionObject, msg: CollisionObject): CollisionObject {
    known.(pose := msg.pose,
           primitivePoses := if msg.primitivePoses != [] then msg.primitivePoses else known.primitivePoses,
           meshPoses := if msg.meshPoses != [] then msg.meshPoses else known.meshPoses)
  }

  function ApplyOperation(cache: Cache, msg: CollisionObject): Cache {
    match msg.operation
    case REMOVE => if msg.id == "" then [] else Delete(cache, msg.id)
    case MOVE =>
      var known := Find(cache, msg.id);
      if known == None then cache else Put(cache, Moved(known.value, msg))
    case _ => Put(cache, msg)
  }

  function Fold(cache: Cache, diff: seq<CollisionObject>): Cache
    decreases |diff|
  {
    if diff == [] then cache else Fold(ApplyOperation(cache, diff[0]), diff[1..])
  }

  function PutAll(cache: Cache, objects: seq<CollisionObject>): Cache
    decreases |objects|
  {
    if objects == [] then cache else PutAll(Put(cache, objects[0]), objects[1..])
  }

  /** A full scene replaces the cache, a diff is folded in. */
  function OnPlanningScene(cache: Cache, isDiff: bool, objects: seq<CollisionObject>): Cache {
    if isDiff then Fold(cache, objects) else PutAll([], objects)
  }

  // -------- the cache as a dictionary

  lemma {:induction false} FindMember(cache: Cache, id: string)
    ensures Find(cache, id).Some? <==> exists i :: 0 <= i < |cache| && cache[i].id == id
    ensures Find(cache, id).Some? ==> Find(cache, id).value in cache && Find(cache, id).value.id == id
  {
    if cache != [] && cache[0].id != id {
      FindMember(cache[1..], id);
      assert forall i :: 0 < i < |cache| ==> cache[i] == cache[1..][i - 1];
    }
  }

  lemma DistinctCons(obj: CollisionObject, tail: Cache)
    ensures Distinct([obj] + tail) <==> Distinct(tail) && Find(tail, obj.id) == None
  {
    FindMember(tail, obj.id);
    var all := [obj] + tail;
    assert forall i :: 0 <= i < |tail| ==> tail[i] == all[i + 1];
    if Distinct(all) {
      forall i, j | 0 <= i < j < |tail| ensures tail[i].id != tail[j].id {
        assert all[i + 1].id != all[j + 1].id;
      }
      forall i | 0 <= i < |tail| ensures tail[i].id != obj.id {
        assert all[0].id != all[i + 1].id;
      }
    }
  }

  lemma {:induction false} PutLaw(cache: Cache, obj: CollisionObject, id: string)
    ensures Find(Put(cache, obj), id) == if id == obj.id then Some(obj) else Find(cache, id)
    ensures |Put(cache, obj)| == |cache| + if Find(cache, obj.id) == None then 1 else 0
    ensures Find(cache, obj.id) == None ==> Put(cache, obj) == cache + [obj]
  {
    if cache != [] && cache[0].id != obj.id {
      PutLaw(cache[1..], obj, id);
    }
  }

  lemma {:induction false} PutDistinct(cache: Cache, obj: CollisionObject)
    requires Distinct(cache)
    ensures Distinct(Put(cache, obj))
  {
    hide Distinct;
    if cache == [] {
      DistinctCons(obj, []);
      assert [obj] + [] == [obj];
    } else {
      var tail := cache[1..];
      assert cache == [cache[0]] + tail;
      DistinctCons(cache[0], tail);
      if cache[0].id == obj.id {
        DistinctCons(obj, tail);
      } else {
        PutDistinct(tail, obj);
        PutLaw(tail, obj, cache[0].id);
        DistinctCons(cache[0], Put(tail, obj));
      }
    }
  }

  lemma {:induction false} DeleteLaw(cache: Cache, gone: string, id: string)
    requires Distinct(cache)
    ensures Distinct(Delete(cache, gone))
    ensures Find(Delete(cache, gone), id) == if id == gone then None else Find(cache, id)
  {
    hide Distinct;
    if cache != [] {
      var tail := cache[1..];
      assert cache == [cache[0]] + tail;
      DistinctCons(cache[0], tail);
      if cache[0].id != gone {
        DeleteLaw(tail, gone, cache[0].id);
        DeleteLaw(tail, gone, id);
        DistinctCons(cache[0], Delete(tail, gone));
      }
    }
  }

  /** What one message does to the entry of one id. */
  function Effect(entry: Option<CollisionObject>, msg: CollisionObject, id: string): Option<CollisionObject> {
    if msg.operation == REMOVE && msg.id == "" then None
    else if msg.id != id then entry
    else
      match msg.operation
      case REMOVE => None
      case MOVE => if entry == None then None else Some(Moved(entry.value, msg))
      case _ => Some(msg)
  }

  function EffectOfAll(entry: Option<CollisionObject>, diff: seq<CollisionObject>, id: string): Option<CollisionObject>
    decreases |diff|
  {
    if diff == [] then entry else EffectOfAll(Effect(entry, diff[0], id), diff[1..], id)
  }

  lemma ApplyLaw(cache: Cache, msg: CollisionObject, id: string)
    requires Distinct(cache)
    ensures Distinct(ApplyOperation(cache, msg))
    ensures Find(ApplyOperation(cache, msg), id) == Effect(Find(cache, id), msg, id)
  {
    hide Distinct;
    match msg.operation
    case REMOVE =>
      EmptyDistinct();
      DeleteLaw(cache, msg.id, id);
    case MOVE =>
      FindMember(cache, msg.id);
      var known := Find(cache, msg.id);
      if known.Some? {
        PutDistinct(cache, Moved(known.value, msg));
        PutLaw(cache, Moved(known.value, msg), id);
      }
    case _ =>
      PutDistinct(cache, msg);
      PutLaw(cache, msg, id);
  }

  lemma EmptyDistinct()
    ensures Distinct([])
  {
  }

  /** Whatever sequence of messages is folded in, ids stay distinct, and the entry of an id is
      decided by the messages that name it and by the clearing ones alone. */
  lemma {:induction false} FoldLaw(cache: Cache, diff: seq<CollisionObject>, id: string)
    requires Distinct(cache)
    ensures Distinct(Fold(cache, diff))
    ensures Find(Fold(cache, diff), id) == EffectOfAll(Find(cache, id), diff, id)
    decreases |diff|
  {
    hide Distinct;
    if diff != [] {
      ApplyLaw(cache, diff[0], id);
      FoldLaw(ApplyOperation(cache, diff[0]), diff[1..], id);
    }
  }

  /** In particular a diff that neither names an object nor clears the scene leaves it alone. */
  lemma {:induction false} UntouchedStays(cache: Cache, diff: seq<CollisionObject>, id: string)
    requires Distinct(cache)
    requires forall i :: 0 <= i < |diff| ==> diff[i].id != id && !(diff[i].operation == REMOVE && diff[i].id == "")
    ensures Find(OnPlanningScene(cache, true, diff), id) == Find(cache, id)
    decreases |diff|
  {
    hide Distinct;
    if diff != [] {
      ApplyLaw(cache, diff[0], id);
      UntouchedStays(ApplyOperation(cache, diff[0]), diff[1..], id);
    }
  }

  /** After a MOVE a known object is at the message's pose, with the poses of its parts that the message
      gives and the others it had; an unknown id stays unknown. */
  lemma MoveLaw(cache: Cache, msg: CollisionObject)
    requires Distinct(cache) && msg.operation == MOVE
    ensures var before, after := Find(cache, msg.id), Find(ApplyOperation(cache, msg), msg.id);
            && (after.Some? <==> before.Some?)
            && (before.Some? ==>
                  && after.value.pose == msg.pose
                  && after.value.primitivePoses == (if |msg.primitivePoses| > 0 then msg.primitivePoses else before.value.primitivePoses)
                  && after.value.meshPoses == (if |msg.meshPoses| > 0 then msg.meshPoses else before.value.meshPoses)
                  && SameShape(after.value, before.value))
  {
    hide Distinct;
    ApplyLaw(cache, msg, msg.id);
    FindMember(cache, msg.id);
  }

  function NotNamed(id: string): CollisionObject -> bool {
    (obj: CollisionObject) => obj.id != id
  }

  lemma {:induction false} DeleteFilters(cache: Cache, gone: string)
    requires Distinct(cache)
    ensures Delete(cache, gone) == Filter(cache, NotNamed(gone))
  {
    hide Distinct;
    if cache != [] {
      var tail := cache[1..];
      assert cache == [cache[0]] + tail;
      DistinctCons(cache[0], tail);
      DeleteFilters(tail, gone);
      if cache[0].id == gone {
        FindMember(tail, gone);
        FilterAll(tail, NotNamed(gone));
      }
    }
  }

  /** Removing keeps the other objects in their order: an empty id removes all, another id the object
      that has it. */
  lemma RemoveLaw(cache: Cache, msg: CollisionObject)
    requires Distinct(cache) && msg.operation == REMOVE
    ensures ApplyOperation(cache, msg) == (if |msg.id| == 0 then [] else Filter(cache, NotNamed(msg.id)))
  {
    DeleteFilters(cache, msg.id);
  }

  // -------- commands

  /** shape_msgs/SolidPrimitive's numbering. */
  function PrimitiveName(kind: int): Option<string> {
    match kind
    case 1 => Some("box")
    case 2 => Some("sphere")
    case 3 => Some("cylinder")
    case 4 => Some("cone")
    case 5 => Some("prism")
    case _ => None
  }

  function PrimitiveType(name: string): Option<int> {
    if name == "box" then Some(1)
    else if name == "sphere" then Some(2)
    else if name == "cylinder" then Some(3)
    else if name == "cone" then Some(4)
    else if name == "prism" then Some(5)
    else None
  }

  lemma NamesInvert(name: string, kind: int)
    ensures PrimitiveType(name) == Some(kind) <==> PrimitiveName(kind) == Some(name)
  {
  }

  predicate Supported(obj: SceneObject) {
    PrimitiveType(obj.kind).Some?
  }

  function ToCollisionObject(obj: SceneObject, base: string): CollisionObject
    requires Supported(obj)
  {
    CollisionObject(obj.name, base, ADD, obj.pose,
      [Primitive(PrimitiveType(obj.kind).value, obj.dimensions)], [IDENTITY_POSE], 0, [])
  }

  const DEFAULT_POSE := Pose(ORIGIN, IDENTITY)

  /** Clears everything: an empty id. */
  const CLEAR_ALL := CollisionObject("", "", REMOVE, DEFAULT_POSE, [], [], 0, [])

  function Adds(objects: seq<SceneObject>, base: string): (adds: seq<CollisionObject>)
    requires forall i :: 0 <= i < |objects| ==> Supported(objects[i])
    ensures |adds| == |objects|
  {
    seq(|objects|, i requires 0 <= i < |objects| => ToCollisionObject(objects[i], base))
  }

  datatype Reason = UnsupportedCommand(command: string) | ServiceNotReady | UnsupportedType(kind: string, name: string)

  /** Either the diff that is sent to the planning scene, or why nothing is. */
  method OnCommand(command: string, objects: seq<SceneObject>, serviceReady: bool, base: string)
      returns (r: Result<seq<CollisionObject>, Reason>)
    ensures r.Ok? <==> command == "reset" && serviceReady && forall i :: 0 <= i < |objects| ==> Supported(objects[i])
    ensures r.Ok? ==> r.value == [CLEAR_ALL] + Adds(objects, base)
    ensures command != "reset" ==> r == Err(UnsupportedCommand(command))
    ensures command == "reset" && !serviceReady ==> r == Err(ServiceNotReady)
    ensures command == "reset" && serviceReady && r.Err? ==>
              exists i :: 0 <= i < |objects| && !Supported(objects[i])
                && (forall k :: 0 <= k < i ==> Supported(objects[k]))
                && r.error == UnsupportedType(objects[i].kind, objects[i].name)
  {
    if command != "reset" {
      return Err(UnsupportedCommand(command));
    }
    if !serviceReady {
      return Err(ServiceNotReady);
    }
    var diff := [CLEAR_ALL];
    var i := 0;
    while i < |objects|
      invariant 0 <= i <= |objects|
      invariant forall k :: 0 <= k < i ==> Supported(objects[k])
      invariant diff == [CLEAR_ALL] + Adds(objects[..i], base)
    {
      if !Supported(objects[i]) {
        return Err(UnsupportedType(objects[i].kind, objects[i].name));
      }
      diff := diff + [ToCollisionObject(objects[i], base)];
      i := i + 1;
    }
    assert objects[..i] == objects;
    return Ok(diff);
  }

  // -------- publishing

  /** A default-constructed all-zero orientation counts as no rotation. */
  function AsTuples(p: Pose): Pose {
    if p.quat == Quat(0.0, 0.0, 0.0, 0.0) then Pose(p.pos, IDENTITY) else p
  }

  /** transform(f) is the pose of frame f in the base frame, None if it cannot be looked up. */
  function ToBaseFrame(obj: CollisionObject, local: Pose, base: string, transform: string -> Option<Pose>): Option<Pose> {
    var inObject := ComposePose(AsTuples(obj.pose), AsTuples(local));
    var frame := if obj.frame == "" then base else obj.frame;
    if frame == base then Some(inObject)
    else if transform(frame) == None then None
    else Some(ComposePose(transform(frame).value, inObject))
  }

  function FirstPose(poses: seq<Pose>): Pose {
    if poses == [] then DEFAULT_POSE else poses[0]
  }

  function Convert(obj: CollisionObject, base: string, transform: string -> Option<Pose>): Option<SceneObject> {
    var kind :=
      if obj.primitives != [] then PrimitiveName(obj.primitives[0].kind)
      else if obj.meshes > 0 then Some("mesh")
      else None;
    var dimensions := if obj.primitives != [] then obj.primitives[0].dimensions else [];
    var local := FirstPose(if obj.primitives != [] then obj.primitivePoses else obj.meshPoses);
    if kind == None then None
    else
      var pose := ToBaseFrame(obj, local, base, transform);
      if pose == None then None else Some(SceneObject(obj.id, kind.value, dimensions, pose.value))
  }

  /** Objects that cannot be converted are left out. */
  function Published(cache: Cache, base: string, transform: string -> Option<Pose>): (r: seq<SceneObject>)
    ensures |r| <= |cache|
  {
    if cache == [] then []
    else
      var first := Convert(cache[0], base, transform);
      (if first.Some? then [first.value] else []) + Published(cache[1..], base, transform)
  }

  /** The geometry that is published: the first primitive, if it is of a known type, or else a mesh. */
  predicate HasGeometry(obj: CollisionObject) {
    if |obj.primitives| > 0 then 1 <= obj.primitives[0].kind <= 5 else obj.meshes > 0
  }

  /** Where the geometry is in the object: its first pose, or the object's origin. */
  function LocalPose(obj: CollisionObject): Pose {
    var poses := if |obj.primitives| > 0 then obj.primitivePoses else obj.meshPoses;
    if |poses| > 0 then poses[0] else Pose(Vec3(0.0, 0.0, 0.0), Quat(0.0, 0.0, 0.0, 1.0))
  }

  predicate InBaseFrame(obj: CollisionObject, base: string) {
    |obj.frame| == 0 || obj.frame == base
  }

  /** An object is published if and only if it has geometry and its frame is known; then under its id
      and with the geometry's type and dimensions. */
  lemma ConvertIff(obj: CollisionObject, base: string, transform: string -> Option<Pose>)
    ensures var r := Convert(obj, base, transform);
            && (r.Some? <==> HasGeometry(obj) && (InBaseFrame(obj, base) || transform(obj.frame).Some?))
            && (r.Some? ==> r.value.name == obj.id)
            && (r.Some? && |obj.primitives| > 0 ==>
                  PrimitiveType(r.value.kind) == Some(obj.primitives[0].kind) && r.value.dimensions == obj.primitives[0].dimensions)
            && (r.Some? && |obj.primitives| == 0 ==> r.value.kind == "mesh" && r.value.dimensions == [])
  {
    hide ComposePose;
    if obj.primitives != [] && PrimitiveName(obj.primitives[0].kind).Some? {
      NamesInvert(PrimitiveName(obj.primitives[0].kind).value, obj.primitives[0].kind);
    }
  }

  /** A pose with an all-zero orientation does not turn. */
  lemma AsTuplesActs(p: Pose, v: Vec3)
    ensures Act(AsTuples(p), v) == (if p.quat == Quat(0.0, 0.0, 0.0, 0.0) then Plus(p.pos, v) else Act(p, v))
  {
    hide RotateVec;
    if p.quat == Quat(0.0, 0.0, 0.0, 0.0) {
      var one := 1.0;
      RealDoesNotTurn(one, v);
      assert Scale(one * one, v) == v;
    }
  }

  /** The published pose takes a point of the geometry to where the object's frame takes it after the
      object and the geometry's own pose have: no rotation is lost on the way. */
  lemma PublishedPoseActs(obj: CollisionObject, base: string, transform: string -> Option<Pose>, v: Vec3)
    requires Convert(obj, base, transform).Some?
    requires Unit(AsTuples(obj.pose).quat)
    requires !InBaseFrame(obj, base) ==> transform(obj.frame).Some? && Unit(transform(obj.frame).value.quat)
    ensures var inObject := Act(AsTuples(obj.pose), Act(AsTuples(LocalPose(obj)), v));
            Act(Convert(obj, base, transform).value.pose, v)
            == if InBaseFrame(obj, base) then inObject else Act(transform(obj.frame).value, inObject)
  {
    hide ComposePose, Act, AsTuples, NormSq;
    var local := AsTuples(LocalPose(obj));
    ComposeActs(AsTuples(obj.pose), local, v);
    if !InBaseFrame(obj, base) {
      ComposeActs(transform(obj.frame).value, ComposePose(AsTuples(obj.pose), local), v);
    }
  }

  /** Every convertible object is published, in the order of the cache, and nothing else: publishing
      part by part publishes the whole, and one object is published or left out by itself. */
  lemma {:induction false} PublishedConcat(a: Cache, b: Cache, base: string, transform: string -> Option<Pose>)
    ensures Published(a + b, base, transform) == Published(a, base, transform) + Published(b, base, transform)
    ensures |a| == 1 ==>
              Published(a, base, transform)
              == (if Convert(a[0], base, transform).Some? then [Convert(a[0], base, transform).value] else [])
  {
    hide Convert;
    if a == [] {
      assert a + b == b;
    } else {
      var first := if Convert(a[0], base, transform).Some? then [Convert(a[0], base, transform).value] else [];
      PublishedConcat(a[1..], b, base, transform);
      assert (a + b)[1..] == a[1..] + b;
      var x, y := Published(a[1..], base, transform), Published(b, base, transform);
      assert first + (x + y) == (first + x) + y;
    }
  }

  // -------- the round trip of a reset

  lemma AddOne(cache: Cache, first: CollisionObject, rest: seq<CollisionObject>)
    requires Distinct(cache)
    ensures Distinct(Put(cache, first))
    ensures Find(cache, first.id) == None ==> Put(cache, first) + rest == cache + ([first] + rest)
    ensures Find(cache, first.id).Some? ==> |Put(cache, first)| == |cache| && !Distinct(cache + ([first] + rest))
    ensures |Put(cache, first)| <= |cache| + 1
  {
    PutDistinct(cache, first);
    PutLaw(cache, first, first.id);
    hide Put, Find, Distinct;
    Regroup(cache, first, rest);
    if Find(cache, first.id).Some? {
      Repeated(cache, first, rest);
    }
  }

  lemma Regroup(cache: Cache, first: CollisionObject, rest: seq<CollisionObject>)
    ensures cache + ([first] + rest) == (cache + [first]) + rest
  {
  }

  lemma FoldAdd(cache: Cache, first: CollisionObject, rest: seq<CollisionObject>)
    requires first.operation == ADD
    ensures Fold(cache, [first] + rest) == Fold(Put(cache, first), rest)
  {
    assert ([first] + rest)[1..] == rest;
  }

  /** Adding objects to a cache that holds none of them appends them, provided their ids differ;
      with a repeated id the cache ends up shorter. */
  lemma {:induction false} AddsAppend(cache: Cache, adds: seq<CollisionObject>)
    requires Distinct(cache) && forall i :: 0 <= i < |adds| ==> adds[i].operation == ADD
    ensures |Fold(cache, adds)| <= |cache| + |adds|
    ensures Distinct(cache + adds) ==> Fold(cache, adds) == cache + adds
    ensures !Distinct(cache + adds) ==> |Fold(cache, adds)| < |cache| + |adds|
    decreases |adds|
  {
    hide Distinct, Put, Find;
    if adds == [] {
      assert cache + adds == cache;
    } else {
      hide Fold;
      var first, rest := adds[0], adds[1..];
      AddOne(cache, first, rest);
      FoldAdd(cache, first, rest);
      assert [first] + rest == adds;
      AddsAppend(Put(cache, first), rest);
    }
  }

  lemma Repeated(cache: Cache, first: CollisionObject, rest: Cache)
    requires Find(cache, first.id).Some?
    ensures !Distinct((cache + [first]) + rest)
  {
    FindMember(cache, first.id);
    var i :| 0 <= i < |cache| && cache[i].id == first.id;
    var all := (cache + [first]) + rest;
    assert all[i].id == all[|cache|].id;
  }

  function WithRotation(objects: seq<SceneObject>): seq<SceneObject> {
    if objects == [] then []
    else [objects[0].(pose := AsTuples(objects[0].pose))] + WithRotation(objects[1..])
  }

  /** A requested object is added as one primitive of its type and dimensions, in the base frame, with a
      pose for the primitive that leaves it where the object is. */
  lemma AddedAsOnePrimitive(obj: SceneObject, base: string, v: Vec3)
    requires Supported(obj)
    ensures var msg := ToCollisionObject(obj, base);
            && msg.operation == ADD && msg.id == obj.name && msg.frame == base && msg.pose == obj.pose
            && |msg.primitives| == |msg.primitivePoses| == 1 && msg.meshes == 0
            && PrimitiveName(msg.primitives[0].kind) == Some(obj.kind) && msg.primitives[0].dimensions == obj.dimensions
            && Act(msg.primitivePoses[0], v) == v
  {
    hide RotateVec;
    var one := 1.0;
    RealDoesNotTurn(one, v);
    assert Scale(one * one, v) == v;
    NamesInvert(obj.kind, PrimitiveType(obj.kind).value);
  }

  lemma ConvertBack(obj: SceneObject, base: string, transform: string -> Option<Pose>)
    requires Supported(obj)
    ensures Convert(ToCollisionObject(obj, base), base, transform) == Some(obj.(pose := AsTuples(obj.pose)))
  {
    hide ComposePose;
    NamesInvert(obj.kind, PrimitiveType(obj.kind).value);
    ComposeIdentity(AsTuples(obj.pose));
  }

  lemma {:induction false} PublishedAdds(objects: seq<SceneObject>, base: string, transform: string -> Option<Pose>)
    requires forall i :: 0 <= i < |objects| ==> Supported(objects[i])
    ensures Published(Adds(objects, base), base, transform) == WithRotation(objects)
  {
    hide Convert;
    if objects != [] {
      ConvertBack(objects[0], base, transform);
      PublishedAdds(objects[1..], base, transform);
      assert Adds(objects, base)[1..] == Adds(objects[1..], base);
    }
  }

  lemma {:induction false} WithRotationSame(objects: seq<SceneObject>)
    ensures |WithRotation(objects)| == |objects|
    ensures WithRotation(objects) == objects
            <==> forall i :: 0 <= i < |objects| ==> objects[i].pose.quat != Quat(0.0, 0.0, 0.0, 0.0)
  {
    if objects != [] {
      var first, rest := objects[0], objects[1..];
      WithRotationSame(rest);
      assert objects == [first] + rest;
      assert forall i :: 0 < i < |objects| ==> objects[i] == rest[i - 1];
      assert WithRotation(objects)[0] == first.(pose := AsTuples(first.pose));
      assert WithRotation(objects)[1..] == WithRotation(rest);
    }
  }

  /** From any cache and with any transforms: folding in the diff of a reset and publishing gives
      exactly the requested objects, in order, with name, type, dimensions and pose unchanged, if
      and only if their names differ and none of them has an all-zero orientation. */
  lemma ResetRoundTrip(cache: Cache, objects: seq<SceneObject>, base: string, transform: string -> Option<Pose>)
    requires forall i :: 0 <= i < |objects| ==> Supported(objects[i])
    ensures Published(OnPlanningScene(cache, true, [CLEAR_ALL] + Adds(objects, base)), base, transform) == objects
            <==> && (forall i, j :: 0 <= i < j < |objects| ==> objects[i].name != objects[j].name)
                 && (forall i :: 0 <= i < |objects| ==> objects[i].pose.quat != Quat(0.0, 0.0, 0.0, 0.0))
  {
    hide Published, Distinct;
    var adds := Adds(objects, base);
    ResetClears(cache, adds);
    EmptyDistinct();
    AddsAppend([], adds);
    assert [] + adds == adds;
    AddsDistinct(objects, base);
    PublishedAdds(objects, base, transform);
    WithRotationSame(objects);
  }

  lemma ResetClears(cache: Cache, adds: seq<CollisionObject>)
    ensures OnPlanningScene(cache, true, [CLEAR_ALL] + adds) == Fold([], adds)
  {
    assert ([CLEAR_ALL] + adds)[1..] == adds;
    assert ApplyOperation(cache, CLEAR_ALL) == [];
  }

  lemma AddsDistinct(objects: seq<SceneObject>, base: string)
    requires forall i :: 0 <= i < |objects| ==> Supported(objects[i])
    ensures Distinct(Adds(objects, base)) <==> forall i, j :: 0 <= i < j < |objects| ==> objects[i].name != objects[j].name
  {
    var adds := Adds(objects, base);
    assert forall i :: 0 <= i < |objects| ==> adds[i].id == objects[i].name;
  }

  /** A full scene without removals and moves is what clearing and adding would give. */
  lemma {:induction false} FullSceneIsClearAndAdd(cache: Cache, objects: seq<CollisionObject>)
    requires forall i :: 0 <= i < |objects| ==> objects[i].operation in {ADD, APPEND}
    ensures OnPlanningScene(cache, false, objects) == OnPlanningScene(cache, true, [CLEAR_ALL] + objects)
  {
    ResetClears(cache, objects);
    PutAllFolds([], objects);
  }

  lemma {:induction false} PutAllFolds(cache: Cache, objects: seq<CollisionObject>)
    requires forall i :: 0 <= i < |objects| ==> objects[i].operation in {ADD, APPEND}
    ensures PutAll(cache, objects) == Fold(cache, objects)
    decreases |objects|
  {
    if objects != [] {
      assert objects[0].operation in {ADD, APPEND};
      PutAllFolds(Put(cache, objects[0]), objects[1..]);
    }
  }

  // -------- moves and frames

  predicate SameShape(a: CollisionObject, b: CollisionObject) {
    a.id == b.id && a.frame == b.frame && a.primitives == b.primitives && a.meshes == b.meshes
  }

  ghost predicate SameShapes(a: Cache, b: Cache) {
    |a| == |b| && forall i :: 0 <= i < |a| ==> SameShape(a[i], b[i])
  }

  lemma {:induction false} PutSameShape(cache: Cache, obj: CollisionObject)
    requires Find(cache, obj.id).Some? && SameShape(Find(cache, obj.id).value, obj)
    ensures SameShapes(Put(cache, obj), cache)
  {
    if cache[0].id != obj.id {
      PutSameShape(cache[1..], obj);
      assert forall i :: 0 < i < |cache| ==> cache[i] == cache[1..][i - 1];
    }
  }

  /** Moves, however many and of whatever objects, never add, remove, reorder or reshape anything. */
  lemma {:induction false} MovesKeepShapes(cache: Cache, diff: seq<CollisionObject>)
    requires forall i :: 0 <= i < |diff| ==> diff[i].operation == MOVE
    ensures SameShapes(OnPlanningScene(cache, true, diff), cache)
    decreases |diff|
  {
    if diff != [] {
      var next := ApplyOperation(cache, diff[0]);
      FindMember(cache, diff[0].id);
      if Find(cache, diff[0].id).Some? {
        PutSameShape(cache, Moved(Find(cache, diff[0].id).value, diff[0]));
      }
      assert SameShapes(next, cache);
      MovesKeepShapes(next, diff[1..]);
    }
  }

  /** With unit rotations the two composition steps may as well be taken from the outside in: the
      object's pose in the base frame, then the primitive in the object. */
  lemma BaseFrameIsOneFrame(obj: CollisionObject, local: Pose, base: string, transform: string -> Option<Pose>)
    requires obj.frame != "" && obj.frame != base && transform(obj.frame).Some?
    requires Unit(transform(obj.frame).value.quat) && Unit(AsTuples(obj.pose).quat)
    ensures ToBaseFrame(obj, local, base, transform)
         == Some(ComposePose(ComposePose(transform(obj.frame).value, AsTuples(obj.pose)), AsTuples(local)))
  {
    ComposeAssociative(transform(obj.frame).value, AsTuples(obj.pose), AsTuples(local));
  }

  // -------- the node object

  class MockSceneStateNode {
    const base: string
    var objects: Cache

    constructor (base: string)
      ensures objects == [] && this.base == base
    {
      this.base, objects := base, [];
    }

    method Apply(msg: CollisionObject)
      modifies this`objects
      ensures objects == ApplyOperation(old(objects), msg)
    {
      if msg.operation == REMOVE {
        if msg.id == "" {
          objects := [];
        } else {
          objects := Delete(objects, msg.id);
        }
        return;
      }
      if msg.operation == MOVE {
        var existing := Find(objects, msg.id);
        if existing == None {
          return;
        }
        var moved := existing.value.(pose := msg.pose);
        if msg.primitivePoses != [] {
          moved := moved.(primitivePoses := msg.primitivePoses);
        }
        if msg.meshPoses != [] {
          moved := moved.(meshPoses := msg.meshPoses);
        }
        objects := Put(objects, moved);
        return;
      }
      objects := Put(objects, msg);
    }

    /** The dictionary's keys stay distinct; entries change as Effect says, by FoldLaw. */
    method PlanningScene(isDiff: bool, messages: seq<CollisionObject>)
      modifies this`objects
      ensures objects == OnPlanningScene(old(objects), isDiff, messages)
      ensures Distinct(old(objects)) ==> Distinct(objects)
    {
      hide Distinct, Put, ApplyOperation;
      var i := 0;
      if !isDiff {
        objects := [];
        EmptyDistinct();
        while i < |messages|
          invariant 0 <= i <= |messages|
          invariant PutAll(objects, messages[i..]) == PutAll([], messages)
          invariant Distinct(objects)
        {
          PutDistinct(objects, messages[i]);
          objects := Put(objects, messages[i]);
          i := i + 1;
        }
        return;
      }
      while i < |messages|
        invariant 0 <= i <= |messages|
        invariant Fold(objects, messages[i..]) == Fold(old(objects), messages)
        invariant Distinct(old(objects)) ==> Distinct(objects)
      {
        if Distinct(objects) {
          ApplyLaw(objects, messages[i], messages[i].id);
        }
        Apply(messages[i]);
        i := i + 1;
      }
    }

    method OnTimer(transform: string -> Option<Pose>) returns (published: seq<SceneObject>)
      ensures published == Published(objects, base, transform)
    {
      hide Convert;
      published := [];
      var i := 0;
      while i < |objects|
        invariant 0 <= i <= |objects|
        invariant published + Published(objects[i..], base, transform) == Published(objects, base, transform)
      {
        var converted := Convert(objects[i], base, transform);
        if converted.Some? {
          published := published + [converted.value];
        }
        i := i + 1;
      }
    }
  }
}
