/** The body-management layer of the physics world: it builds rigid bodies for render
    objects, keeps the list of dynamic render objects, copies poses between the engine
    and the renderer, and answers contact queries over the engine's contact manifolds.
    The engine itself (stepping, shapes, inertia, manifold generation) is an input. */
module Physics {
  import opened Wrappers
  import opened Geometry

  // ------------------------------------------------------------------ constants

  /** Gravity the world is built with when none is given. */
  const DefaultGravity: Vec3 := Vec3(0.0, -100.0, 0.0)

  /** Collision margin set on every primitive shape (sphere, box, cylinder, cone, capsule). */
  const ShapeMargin: real := 0.05

  /** The engine's collision-flag bit for kinematic objects. */
  const KinematicObject: bv32 := 2

  /** The engine's activation state that keeps a body from ever going to sleep. */
  const DisableDeactivation: int := 4

  /** The engine's activation state of an awake body. */
  const ActiveTag: int := 1

  /** The friction an engine rigid body is constructed with. */
  const DefaultFriction: real := 0.5

  /** The angular factor an engine rigid body is constructed with: free rotation. */
  const FreeRotation: Vec3 := Vec3(1.0, 1.0, 1.0)

  /** The angular factor of a human body: rotation about the vertical axis only. */
  const VerticalRotationOnly: Vec3 := Vec3(0.0, 1.0, 0.0)

  // ------------------------------------------------------------------ shapes

  /** A face of a render mesh: a triangle, a quad, or some other kind of face. */
  datatype Face =
    | Face3(a: nat, b: nat, c: nat)
    | Face4(a: nat, b: nat, c: nat, d: nat)
    | OtherFace

  datatype Triangle = Triangle(p0: Vec3, p1: Vec3, p2: Vec3)

  /** The engine shapes the world builds, with the parameters passed to their constructors. */
  datatype ShapeKind =
    | Sphere(radius: real)
    | Box(halfExtents: Vec3)
    | Cylinder(halfExtents: Vec3)
    | Cone(radius: real, height: real)
    | Capsule(radius: real, height: real)
    | ConvexHull(points: seq<Vec3>)
    | TriangleMesh(triangles: seq<Triangle>)

  /** A shape and the margin set on it; `None` leaves the engine's default margin. */
  datatype Shape = Shape(kind: ShapeKind, margin: Option<real>)

  /** Every vertex index a triangle or quad face uses is a valid index into `n` vertices. */
  predicate FaceInRange(f: Face, n: nat) {
    match f
    case Face3(a, b, c) => a < n && b < n && c < n
    case Face4(a, b, c, d) => a < n && b < n && c < n && d < n
    case OtherFace => true
  }

  predicate FacesInRange(vertices: seq<Vec3>, faces: seq<Face>) {
    forall i :: 0 <= i < |faces| ==> FaceInRange(faces[i], |vertices|)
  }

  /** The triangles one face contributes to the mesh: a triangle as it is, a quad split
      along its b-d diagonal into (a, b, d) and (b, c, d), any other face nothing. */
  function FaceTriangles(vertices: seq<Vec3>, f: Face): seq<Triangle>
    requires FaceInRange(f, |vertices|)
  {
    match f
    case Face3(a, b, c) => [Triangle(vertices[a], vertices[b], vertices[c])]
    case Face4(a, b, c, d) =>
      [Triangle(vertices[a], vertices[b], vertices[d]), Triangle(vertices[b], vertices[c], vertices[d])]
    case OtherFace => []
  }

  /** The triangle list of a whole face list, face by face in order. */
  function TrianglesOf(vertices: seq<Vec3>, faces: seq<Face>): seq<Triangle>
    requires FacesInRange(vertices, faces)
  {
    if faces == [] then [] else FaceTriangles(vertices, faces[0]) + TrianglesOf(vertices, faces[1..])
  }

  function Face3Count(faces: seq<Face>): nat {
    if faces == [] then 0 else (if faces[0].Face3? then 1 else 0) + Face3Count(faces[1..])
  }

  function Face4Count(faces: seq<Face>): nat {
    if faces == [] then 0 else (if faces[0].Face4? then 1 else 0) + Face4Count(faces[1..])
  }

  /** Triangulating two face lists one after the other gives the two triangle lists one
      after the other: the mesh keeps the order of the faces. */
  lemma {:induction false} TrianglesOfAppend(vertices: seq<Vec3>, f1: seq<Face>, f2: seq<Face>)
    requires FacesInRange(vertices, f1) && FacesInRange(vertices, f2)
    ensures FacesInRange(vertices, f1 + f2)
    ensures TrianglesOf(vertices, f1 + f2) == TrianglesOf(vertices, f1) + TrianglesOf(vertices, f2)
  {
    if f1 == [] {
      assert f1 + f2 == f2;
    } else {
      assert (f1 + f2)[1..] == f1[1..] + f2;
      TrianglesOfAppend(vertices, f1[1..], f2);
    }
  }

  /** One triangle per Face3, two per Face4, none for any other face. */
  lemma {:induction false} TriangleCount(vertices: seq<Vec3>, faces: seq<Face>)
    requires FacesInRange(vertices, faces)
    ensures |TrianglesOf(vertices, faces)| == Face3Count(faces) + 2 * Face4Count(faces)
  {
    if faces != [] {
      TriangleCount(vertices, faces[1..]);
    }
  }

  /** Face `i`'s triangles sit in the mesh right after the triangles of the faces before it. */
  lemma FaceTrianglesAt(vertices: seq<Vec3>, faces: seq<Face>, i: nat)
    requires FacesInRange(vertices, faces) && i < |faces|
    ensures var start := |TrianglesOf(vertices, faces[..i])|;
            var tris := FaceTriangles(vertices, faces[i]);
            start + |tris| <= |TrianglesOf(vertices, faces)| &&
            TrianglesOf(vertices, faces)[start..start + |tris|] == tris
  {
    var before, rest := faces[..i], faces[i..];
    assert faces == before + rest;
    TrianglesOfAppend(vertices, before, rest);
    assert rest == [faces[i]] + rest[1..];
    TrianglesOfAppend(vertices, [faces[i]], rest[1..]);
    assert TrianglesOf(vertices, [faces[i]]) == FaceTriangles(vertices, faces[i]);
  }

  /** The face loop of addTriangleBody: collects the triangles of `faces` in face order. */
  method Triangulate(vertices: seq<Vec3>, faces: seq<Face>) returns (triangles: seq<Triangle>)
    requires FacesInRange(vertices, faces)
    ensures triangles == TrianglesOf(vertices, faces)
    ensures |triangles| == Face3Count(faces) + 2 * Face4Count(faces)
  {
    triangles := [];
    for i := 0 to |faces|
      invariant triangles == TrianglesOf(vertices, faces[..i])
    {
      match faces[i] {
        case Face3(a, b, c) =>
          triangles := triangles + [Triangle(vertices[a], vertices[b], vertices[c])];
        case Face4(a, b, c, d) =>
          triangles := triangles + [Triangle(vertices[a], vertices[b], vertices[d])];
          triangles := triangles + [Triangle(vertices[b], vertices[c], vertices[d])];
        case OtherFace =>
      }
      assert faces[..i + 1] == faces[..i] + [faces[i]];
      TrianglesOfAppend(vertices, faces[..i], [faces[i]]);
    }
    assert faces[..|faces|] == faces;
    TriangleCount(vertices, faces);
  }

  // ------------------------------------------------------------------ body creation

  /** What the engine answers when it builds a body: the heap address of the new body,
      the collision flags and activation state its constructor gives it, and the local
      inertia the shape reports for the requested mass. */
  datatype BodyAlloc = BodyAlloc(ptr: nat, flags: bv32, activationState: int, inertia: Vec3)

  /** Everything createBody decides about a new body. */
  datatype BodySetup = BodySetup(
    mass: real,
    localInertia: Vec3,
    transform: Transform,
    shape: Shape,
    collisionFlags: bv32,
    activationState: int)

  /** The engine transform of a pose: origin at the position, the quaternion as rotation;
      the origin and the identity rotation when none is given. */
  function CreateTransform(pos: Vec3 := Zero, q: Quat := IdentityRotation): (t: Transform)
    ensures t.origin == pos && t.rotation == q
  {
    Transform(pos, q)
  }

  /** createTransform's defaults: with no arguments, the identity pose at the origin. */
  lemma CreateTransformDefaults()
    ensures CreateTransform() == Transform(Zero, IdentityRotation)
    ensures CreateTransform(Zero) == CreateTransform()
  {
  }

  /** createBody: static and kinematic bodies get mass 0 and no inertia; a kinematic body
      gets the kinematic flag bit on top of its flags and is never deactivated. */
  function CreateBody(mass: real, transform: Transform, shape: Shape, alloc: BodyAlloc,
                      isKinematic: bool := false, isStatic: bool := false): (r: BodySetup)
    ensures r.transform == transform && r.shape == shape
    ensures isStatic || isKinematic ==> r.mass == 0.0 && r.localInertia == Zero
    ensures !isStatic && !isKinematic ==> r.mass == mass && r.localInertia == alloc.inertia
    ensures isKinematic ==> r.collisionFlags & KinematicObject == KinematicObject
    ensures isKinematic ==> r.collisionFlags & !KinematicObject == alloc.flags & !KinematicObject
    ensures isKinematic ==> r.activationState == DisableDeactivation
    ensures !isKinematic ==> r.collisionFlags == alloc.flags && r.activationState == alloc.activationState
  {
    var staticOrKinematic := isStatic || isKinematic;
    BodySetup(
      if staticOrKinematic then 0.0 else mass,
      if staticOrKinematic then Zero else alloc.inertia,
      transform,
      shape,
      if isKinematic then alloc.flags | KinematicObject else alloc.flags,
      if isKinematic then DisableDeactivation else alloc.activationState)
  }

  /** An engine rigid body, identified by its heap address `ptr`. */
  class RigidBody {
    const ptr: nat
    const mass: real
    const localInertia: Vec3
    const shape: Shape
    var collisionFlags: bv32
    var activationState: int
    var motionState: Option<Transform>
    var angularFactor: Vec3
    var friction: real

    /** The body is the one createBody made from `setup`, with the engine's defaults. */
    predicate Built(ptr: nat, setup: BodySetup)
      reads this
    {
      && this.ptr == ptr
      && mass == setup.mass
      && localInertia == setup.localInertia
      && shape == setup.shape
      && collisionFlags == setup.collisionFlags
      && activationState == setup.activationState
      && motionState == Some(setup.transform)
      && angularFactor == FreeRotation
      && friction == DefaultFriction
    }

    constructor (ptr: nat, setup: BodySetup)
      ensures Built(ptr, setup)
    {
      this.ptr := ptr;
      mass := setup.mass;
      localInertia := setup.localInertia;
      shape := setup.shape;
      collisionFlags := setup.collisionFlags;
      activationState := setup.activationState;
      motionState := Some(setup.transform);
      angularFactor := FreeRotation;
      friction := DefaultFriction;
    }
  }

  // ------------------------------------------------------------------ render objects

  /** A render object with the user-data slots the world uses: the attached body, the
      marker that keeps the world from moving it, and the hit annotation of the caller. */
  class RenderObject {
    var position: Vec3
    var quaternion: Quat
    var center: Option<Vec3>
    var size: Vec3
    var physicsBody: RigidBody?
    var ignorePhysics: bool
    var hits: Option<seq<Hit>>

    constructor (position: Vec3, quaternion: Quat, center: Option<Vec3>, size: Vec3)
      ensures this.position == position && this.quaternion == quaternion
      ensures this.center == center && this.size == size
      ensures physicsBody == null && !ignorePhysics && hits == None
    {
      this.position := position;
      this.quaternion := quaternion;
      this.center := center;
      this.size := size;
      physicsBody := null;
      ignorePhysics := false;
      hits := None;
    }
  }

  /** The pivot offset of a render object; the origin when it has none. */
  function CenterOf(obj: RenderObject): Vec3
    reads obj
  {
    obj.center.GetOr(Zero)
  }

  /** The attached body, as a set so that frames can name it when there is none. */
  function BodyOf(obj: RenderObject): set<RigidBody>
    reads obj
  {
    if obj.physicsBody == null then {} else {obj.physicsBody}
  }

  predicate HasMotionState(obj: RenderObject)
    reads obj, BodyOf(obj)
  {
    obj.physicsBody != null && obj.physicsBody.motionState.Some?
  }

  /** The render pose is the body's engine pose shifted back by the pivot offset. */
  predicate ModelPoseMatches(obj: RenderObject)
    reads obj, BodyOf(obj)
    requires HasMotionState(obj)
  {
    var t := obj.physicsBody.motionState.value;
    obj.position == Add(t.origin, CenterOf(obj)) && obj.quaternion == t.rotation
  }

  /** The engine origin of a render position: the position less the pivot offset. Adding
      the offset back gives the position again. */
  function ToPhysicsOrigin(position: Vec3, center: Vec3): (origin: Vec3)
    ensures Add(origin, center) == position
    ensures origin == position <==> center == Zero
  {
    Sub(position, center)
  }

  // ------------------------------------------------------------------ contact queries

  /** A contact point of a manifold: separation distance and world positions on each body. */
  datatype ContactPoint = ContactPoint(distance: real, positionWorldOnA: Vec3, positionWorldOnB: Vec3)

  /** A contact manifold as the dispatcher reports it: the two bodies' addresses and points. */
  datatype Manifold = Manifold(body0: nat, body1: nat, contacts: seq<ContactPoint>)

  datatype HitPoint = HitPoint(a: Vec3, b: Vec3)

  /** A reported hit: the two body addresses, and the penetrating points when asked for. */
  datatype Hit = Hit(a: nat, b: nat, pts: Option<seq<HitPoint>>)

  /** The points of the contacts with negative distance, in contact order. */
  function Penetrating(contacts: seq<ContactPoint>): seq<HitPoint> {
    if contacts == [] then []
    else
      var c := contacts[0];
      (if c.distance < 0.0 then [HitPoint(c.positionWorldOnA, c.positionWorldOnB)] else [])
      + Penetrating(contacts[1..])
  }

  /** A manifold counts when both of its bodies are in the target set. */
  predicate Qualifies(m: Manifold, targetPtrs: set<nat>) {
    m.body0 in targetPtrs && m.body1 in targetPtrs
  }

  function HitFor(m: Manifold, needHitPoint: bool): Hit {
    Hit(m.body0, m.body1, if needHitPoint then Some(Penetrating(m.contacts)) else None)
  }

  /** The hits of a manifold list: one per qualifying manifold, in manifold order. */
  function HitsOf(manifolds: seq<Manifold>, targetPtrs: set<nat>, needHitPoint: bool): seq<Hit> {
    if manifolds == [] then []
    else
      (if Qualifies(manifolds[0], targetPtrs) then [HitFor(manifolds[0], needHitPoint)] else [])
      + HitsOf(manifolds[1..], targetPtrs, needHitPoint)
  }

  lemma {:induction false} PenetratingAppend(c1: seq<ContactPoint>, c2: seq<ContactPoint>)
    ensures Penetrating(c1 + c2) == Penetrating(c1) + Penetrating(c2)
  {
    if c1 == [] {
      assert c1 + c2 == c2;
    } else {
      assert (c1 + c2)[1..] == c1[1..] + c2;
      PenetratingAppend(c1[1..], c2);
    }
  }

  /** Every reported point is the pair of positions of some contact with negative distance,
      and every such contact is reported; there are never more points than contacts. */
  lemma {:induction false} PenetratingExactly(contacts: seq<ContactPoint>)
    ensures |Penetrating(contacts)| <= |contacts|
    ensures forall p :: p in Penetrating(contacts) <==>
      exists c :: c in contacts && c.distance < 0.0 && p == HitPoint(c.positionWorldOnA, c.positionWorldOnB)
  {
    if contacts != [] {
      PenetratingExactly(contacts[1..]);
      assert contacts == [contacts[0]] + contacts[1..];
    }
  }

  lemma {:induction false} HitsOfAppend(m1: seq<Manifold>, m2: seq<Manifold>, targetPtrs: set<nat>, needHitPoint: bool)
    ensures HitsOf(m1 + m2, targetPtrs, needHitPoint)
         == HitsOf(m1, targetPtrs, needHitPoint) + HitsOf(m2, targetPtrs, needHitPoint)
  {
    if m1 == [] {
      assert m1 + m2 == m2;
    } else {
      assert (m1 + m2)[1..] == m1[1..] + m2;
      HitsOfAppend(m1[1..], m2, targetPtrs, needHitPoint);
    }
  }

  /** Manifold `i` adds exactly one hit, right after the hits of the manifolds before it,
      when both its bodies are targets, and nothing otherwise. */
  lemma HitOfManifold(manifolds: seq<Manifold>, targetPtrs: set<nat>, needHitPoint: bool, i: nat)
    requires i < |manifolds|
    ensures HitsOf(manifolds[..i + 1], targetPtrs, needHitPoint)
         == HitsOf(manifolds[..i], targetPtrs, needHitPoint)
          + (if Qualifies(manifolds[i], targetPtrs) then [HitFor(manifolds[i], needHitPoint)] else [])
  {
    assert manifolds[..i + 1] == manifolds[..i] + [manifolds[i]];
    HitsOfAppend(manifolds[..i], [manifolds[i]], targetPtrs, needHitPoint);
  }

  /** Every hit comes from a manifold whose two bodies are both targets, carries that
      manifold's bodies, and carries points exactly when they were asked for; there is at
      most one hit per manifold. */
  lemma {:induction false} HitsFromTargetManifolds(manifolds: seq<Manifold>, targetPtrs: set<nat>, needHitPoint: bool)
    ensures |HitsOf(manifolds, targetPtrs, needHitPoint)| <= |manifolds|
    ensures forall h :: h in HitsOf(manifolds, targetPtrs, needHitPoint) ==>
      h.a in targetPtrs && h.b in targetPtrs && (h.pts.Some? <==> needHitPoint) &&
      exists m :: m in manifolds && Qualifies(m, targetPtrs) && h == HitFor(m, needHitPoint)
  {
    if manifolds != [] {
      HitsFromTargetManifolds(manifolds[1..], targetPtrs, needHitPoint);
      assert manifolds == [manifolds[0]] + manifolds[1..];
    }
  }

  /** With hit points asked for, a hit's points are exactly the penetrating contacts of its
      manifold, in contact order. */
  lemma HitPointsArePenetrating(manifolds: seq<Manifold>, targetPtrs: set<nat>, h: Hit)
    requires h in HitsOf(manifolds, targetPtrs, true)
    ensures h.pts.Some?
    ensures exists m :: m in manifolds && Qualifies(m, targetPtrs) && m.body0 == h.a && m.body1 == h.b
                     && h.pts.value == Penetrating(m.contacts)
    ensures forall p :: p in h.pts.value ==>
      exists m, c :: m in manifolds && c in m.contacts && c.distance < 0.0 && p == HitPoint(c.positionWorldOnA, c.positionWorldOnB)
  {
    HitsFromTargetManifolds(manifolds, targetPtrs, true);
    var m :| m in manifolds && Qualifies(m, targetPtrs) && h == HitFor(m, true);
    PenetratingExactly(m.contacts);
  }

  /** The contact loop of hitTest. */
  method PenetratingPoints(contacts: seq<ContactPoint>) returns (pts: seq<HitPoint>)
    ensures pts == Penetrating(contacts)
  {
    pts := [];
    for j := 0 to |contacts|
      invariant pts == Penetrating(contacts[..j])
    {
      var pt := contacts[j];
      if pt.distance < 0.0 {
        pts := pts + [HitPoint(pt.positionWorldOnA, pt.positionWorldOnB)];
      }
      assert contacts[..j + 1] == contacts[..j] + [contacts[j]];
      PenetratingAppend(contacts[..j], [contacts[j]]);
    }
    assert contacts[..|contacts|] == contacts;
  }

  /** The manifold loop of hitTest: one hit per manifold whose bodies are both targets. */
  method CollectHits(manifolds: seq<Manifold>, targetPtrs: set<nat>, needHitPoint: bool) returns (hits: seq<Hit>)
    ensures hits == HitsOf(manifolds, targetPtrs, needHitPoint)
    ensures |hits| <= |manifolds|
  {
    hits := [];
    for i := 0 to |manifolds|
      invariant hits == HitsOf(manifolds[..i], targetPtrs, needHitPoint)
    {
      HitOfManifold(manifolds, targetPtrs, needHitPoint, i);
      var m := manifolds[i];
      if !(m.body0 in targetPtrs) || !(m.body1 in targetPtrs) {
        continue;
      }
      if needHitPoint {
        var pts := PenetratingPoints(m.contacts);
        hits := hits + [Hit(m.body0, m.body1, Some(pts))];
      } else {
        hits := hits + [Hit(m.body0, m.body1, None)];
      }
    }
    assert manifolds[..|manifolds|] == manifolds;
    HitsFromTargetManifolds(manifolds, targetPtrs, needHitPoint);
  }

  /** The addresses of the bodies attached to the targets; targets without a body add none. */
  function TargetPtrs(targets: map<string, RenderObject>): set<nat>
    reads targets.Values
  {
    set k | k in targets && targets[k].physicsBody != null :: targets[k].physicsBody.ptr
  }

  /** A hit of a query over `targets` names only bodies attached to some target. */
  lemma HitsNameTargetBodies(targets: map<string, RenderObject>, manifolds: seq<Manifold>, needHitPoint: bool)
    ensures forall h :: h in HitsOf(manifolds, TargetPtrs(targets), needHitPoint) ==>
      (exists k :: k in targets && targets[k].physicsBody != null && targets[k].physicsBody.ptr == h.a) &&
      (exists k :: k in targets && targets[k].physicsBody != null && targets[k].physicsBody.ptr == h.b)
  {
    HitsFromTargetManifolds(manifolds, TargetPtrs(targets), needHitPoint);
  }

  // ------------------------------------------------------------------ the world

  class PhysicsWorld {
    var gravity: Vec3
    /** Render objects whose pose follows their body; callers append to it. */
    var dynamicObjects: seq<RenderObject>
    /** The bodies added to the engine world, in order. */
    var bodies: seq<RigidBody>
    /** The dispatcher's contact manifolds after the last simulation step. */
    var manifolds: seq<Manifold>

    constructor (gravity: Vec3 := DefaultGravity)
      ensures this.gravity == gravity
      ensures dynamicObjects == [] && bodies == [] && manifolds == []
    {
      this.gravity := gravity;
      dynamicObjects := [];
      bodies := [];
      manifolds := [];
    }

    /** Copies the body's engine pose into the render object, shifted by its pivot offset;
        an object without a body or motion state keeps its pose. */
    method SetModelPose(obj: RenderObject)
      modifies obj`position, obj`quaternion
      ensures HasMotionState(obj) ==> ModelPoseMatches(obj)
      ensures !HasMotionState(obj) ==> obj.position == old(obj.position) && obj.quaternion == old(obj.quaternion)
    {
      if obj.physicsBody != null && obj.physicsBody.motionState.Some? {
        var t := obj.physicsBody.motionState.value;
        obj.position := Add(t.origin, CenterOf(obj));
        obj.quaternion := t.rotation;
      }
    }

    /** Wakes the attached body and gives it the render pose, less the pivot offset. */
    method SetPhysicsPose(obj: RenderObject)
      modifies BodyOf(obj)`motionState, BodyOf(obj)`activationState
      ensures obj.physicsBody != null ==>
        && obj.physicsBody.motionState == Some(Transform(ToPhysicsOrigin(obj.position, CenterOf(obj)), obj.quaternion))
        && obj.physicsBody.activationState == ActiveTag
    {
      var body := obj.physicsBody;
      if body != null {
        var origin := ToPhysicsOrigin(obj.position, CenterOf(obj));
        body.activationState := ActiveTag;
        body.motionState := Some(Transform(origin, obj.quaternion));
      }
    }

    /** Brings every dynamic object not marked ignorePhysics to its body's pose. */
    method UpdateDynamicObjectsModelPose()
      modifies (set o | o in dynamicObjects)`position, (set o | o in dynamicObjects)`quaternion
      ensures forall o | o in dynamicObjects ::
        if !o.ignorePhysics && HasMotionState(o) then ModelPoseMatches(o)
        else o.position == old(o.position) && o.quaternion == old(o.quaternion)
    {
      for i := 0 to |dynamicObjects|
        invariant forall o | o in dynamicObjects[..i] ::
          if !o.ignorePhysics && HasMotionState(o) then ModelPoseMatches(o)
          else o.position == old(o.position) && o.quaternion == old(o.quaternion)
        invariant forall o | o in dynamicObjects && o !in dynamicObjects[..i] ::
          o.position == old(o.position) && o.quaternion == old(o.quaternion)
      {
        var obj := dynamicObjects[i];
        if !obj.ignorePhysics {
          SetModelPose(obj);
        }
        assert dynamicObjects[..i + 1] == dynamicObjects[..i] + [obj];
      }
      assert dynamicObjects[..|dynamicObjects|] == dynamicObjects;
    }

    /** The shared tail of every add*Body: createBody with the defaults (neither kinematic
        nor static), store the body on the object, add it to the engine world. A body the
        object had before stays in the world. */
    method AttachBody(obj: RenderObject, shape: Shape, mass: real, alloc: BodyAlloc)
      modifies this`bodies, obj`physicsBody
      ensures obj.physicsBody != null && fresh(obj.physicsBody)
      ensures obj.physicsBody.Built(alloc.ptr, CreateBody(mass, CreateTransform(obj.position, obj.quaternion), shape, alloc))
      ensures bodies == old(bodies) + [obj.physicsBody]
    {
      var transform := CreateTransform(obj.position, obj.quaternion);
      var body := new RigidBody(alloc.ptr, CreateBody(mass, transform, shape, alloc));
      obj.physicsBody := body;
      bodies := bodies + [body];
    }

    method AddSphereBody(obj: RenderObject, radius: real, mass: real, alloc: BodyAlloc)
      modifies this`bodies, obj`physicsBody
      ensures obj.physicsBody != null && fresh(obj.physicsBody)
      ensures obj.physicsBody.Built(alloc.ptr, CreateBody(mass, CreateTransform(obj.position, obj.quaternion),
                                                          Shape(Sphere(radius), Some(ShapeMargin)), alloc))
      ensures bodies == old(bodies) + [obj.physicsBody]
    {
      AttachBody(obj, Shape(Sphere(radius), Some(ShapeMargin)), mass, alloc);
    }

    /** The box's half extents are half the given size on each axis. */
    method AddBoxBody(obj: RenderObject, size: Vec3, mass: real, alloc: BodyAlloc)
      modifies this`bodies, obj`physicsBody
      ensures obj.physicsBody != null && fresh(obj.physicsBody)
      ensures obj.physicsBody.Built(alloc.ptr, CreateBody(mass, CreateTransform(obj.position, obj.quaternion),
                                                          Shape(Box(Scale(size, 0.5)), Some(ShapeMargin)), alloc))
      ensures bodies == old(bodies) + [obj.physicsBody]
    {
      AttachBody(obj, Shape(Box(Scale(size, 0.5)), Some(ShapeMargin)), mass, alloc);
    }

    /** The cylinder's half extents are (radius, height / 2, radius). */
    method AddCylinderBody(obj: RenderObject, radius: real, height: real, mass: real, alloc: BodyAlloc)
      modifies this`bodies, obj`physicsBody
      ensures obj.physicsBody != null && fresh(obj.physicsBody)
      ensures obj.physicsBody.Built(alloc.ptr, CreateBody(mass, CreateTransform(obj.position, obj.quaternion),
                                                          Shape(Cylinder(Vec3(radius, height * 0.5, radius)), Some(ShapeMargin)), alloc))
      ensures bodies == old(bodies) + [obj.physicsBody]
    {
      AttachBody(obj, Shape(Cylinder(Vec3(radius, height * 0.5, radius)), Some(ShapeMargin)), mass, alloc);
    }

    method AddConeBody(obj: RenderObject, radius: real, height: real, mass: real, alloc: BodyAlloc)
      modifies this`bodies, obj`physicsBody
      ensures obj.physicsBody != null && fresh(obj.physicsBody)
      ensures obj.physicsBody.Built(alloc.ptr, CreateBody(mass, CreateTransform(obj.position, obj.quaternion),
                                                          Shape(Cone(radius, height), Some(ShapeMargin)), alloc))
      ensures bodies == old(bodies) + [obj.physicsBody]
    {
      AttachBody(obj, Shape(Cone(radius, height), Some(ShapeMargin)), mass, alloc);
    }

    /** The capsule is given half the height. */
    method AddCapsuleBody(obj: RenderObject, radius: real, height: real, mass: real, alloc: BodyAlloc)
      modifies this`bodies, obj`physicsBody
      ensures obj.physicsBody != null && fresh(obj.physicsBody)
      ensures obj.physicsBody.Built(alloc.ptr, CreateBody(mass, CreateTransform(obj.position, obj.quaternion),
                                                          Shape(Capsule(radius, height * 0.5), Some(ShapeMargin)), alloc))
      ensures bodies == old(bodies) + [obj.physicsBody]
    {
      AttachBody(obj, Shape(Capsule(radius, height * 0.5), Some(ShapeMargin)), mass, alloc);
    }

    /** A convex hull of all the vertices, in order, with the engine's default margin. */
    method AddConvexBody(obj: RenderObject, vertices: seq<Vec3>, mass: real, alloc: BodyAlloc)
      modifies this`bodies, obj`physicsBody
      ensures obj.physicsBody != null && fresh(obj.physicsBody)
      ensures obj.physicsBody.Built(alloc.ptr, CreateBody(mass, CreateTransform(obj.position, obj.quaternion),
                                                          Shape(ConvexHull(vertices), None), alloc))
      ensures bodies == old(bodies) + [obj.physicsBody]
    {
      var points: seq<Vec3> := [];
      for i := 0 to |vertices|
        invariant points == vertices[..i]
      {
        points := points + [vertices[i]];
      }
      assert vertices[..|vertices|] == vertices;
      AttachBody(obj, Shape(ConvexHull(points), None), mass, alloc);
    }

    /** A triangle mesh of the faces' triangles, in face order, with the engine's default margin. */
    method AddTriangleBody(obj: RenderObject, vertices: seq<Vec3>, faces: seq<Face>, mass: real, alloc: BodyAlloc)
      requires FacesInRange(vertices, faces)
      modifies this`bodies, obj`physicsBody
      ensures obj.physicsBody != null && fresh(obj.physicsBody)
      ensures obj.physicsBody.Built(alloc.ptr, CreateBody(mass, CreateTransform(obj.position, obj.quaternion),
                                                          Shape(TriangleMesh(TrianglesOf(vertices, faces)), None), alloc))
      ensures |obj.physicsBody.shape.kind.triangles| == Face3Count(faces) + 2 * Face4Count(faces)
      ensures bodies == old(bodies) + [obj.physicsBody]
    {
      var triangles := Triangulate(vertices, faces);
      var mesh: seq<Triangle> := [];
      for i := 0 to |triangles|
        invariant mesh == triangles[..i]
      {
        mesh := mesh + [triangles[i]];
      }
      assert triangles[..|triangles|] == triangles;
      AttachBody(obj, Shape(TriangleMesh(mesh), None), mass, alloc);
    }

    /** A capsule as wide as the diagonal of the object's horizontal footprint (times
        `scale`) and as tall as the object, turning only about the vertical axis.
        `diagonal` is the square root of x*x + z*z of the object's size. */
    method AddHumanBody(obj: RenderObject, diagonal: real, alloc: BodyAlloc,
                        scale: real := 1.0, friction: real := 1.0, mass: real := 200.0)
      requires diagonal >= 0.0 && diagonal * diagonal == obj.size.x * obj.size.x + obj.size.z * obj.size.z
      modifies this`bodies, obj`physicsBody
      ensures obj.physicsBody != null && fresh(obj.physicsBody)
      ensures var setup := CreateBody(mass, CreateTransform(obj.position, obj.quaternion),
                                      Shape(Capsule(diagonal * 0.5 * scale, obj.size.y * 0.5), Some(ShapeMargin)), alloc);
              && obj.physicsBody.ptr == alloc.ptr
              && obj.physicsBody.mass == setup.mass
              && obj.physicsBody.localInertia == setup.localInertia
              && obj.physicsBody.shape == setup.shape
              && obj.physicsBody.collisionFlags == setup.collisionFlags
              && obj.physicsBody.activationState == setup.activationState
              && obj.physicsBody.motionState == Some(setup.transform)
      ensures obj.physicsBody.angularFactor == VerticalRotationOnly
      ensures obj.physicsBody.friction == friction
      ensures bodies == old(bodies) + [obj.physicsBody]
    {
      AddCapsuleBody(obj, diagonal * 0.5 * scale, obj.size.y, mass, alloc);
      obj.physicsBody.angularFactor := VerticalRotationOnly;
      obj.physicsBody.friction := friction;
    }

    /** Clears the hit annotation of every target that has a body, then reports the hits
        among the targets' bodies over the current manifolds. Targets without a body keep
        their annotation and contribute no address. */
    method HitTest(targets: map<string, RenderObject>, needHitPoint: bool := false) returns (hits: seq<Hit>)
      modifies targets.Values`hits
      ensures hits == HitsOf(manifolds, TargetPtrs(targets), needHitPoint)
      ensures forall o | o in targets.Values :: o.hits == if o.physicsBody != null then None else old(o.hits)
    {
      var targetPtrs: set<nat> := {};
      var remaining := targets.Keys;
      while remaining != {}
        invariant remaining <= targets.Keys
        invariant targetPtrs ==
          set k | k in targets && k !in remaining && targets[k].physicsBody != null :: targets[k].physicsBody.ptr
        invariant forall k | k in targets && k !in remaining ::
          targets[k].physicsBody != null ==> targets[k].hits == None
        invariant forall o | o in targets.Values ::
          o.hits == old(o.hits) || (o.physicsBody != null && o.hits == None)
        decreases remaining
      {
        var key :| key in remaining;
        var target := targets[key];
        remaining := remaining - {key};
        if target.physicsBody == null {
          continue;
        }
        target.hits := None;
        targetPtrs := targetPtrs + {target.physicsBody.ptr};
      }
      assert targetPtrs == TargetPtrs(targets);
      hits := CollectHits(manifolds, targetPtrs, needHitPoint);
    }
  }

  /** A pose pushed to the engine and read back, with no step in between, is the pose the
      object had. */
  method PoseRoundTrip(world: PhysicsWorld, obj: RenderObject)
    requires obj in world.dynamicObjects && !obj.ignorePhysics && obj.physicsBody != null
    modifies obj.physicsBody, (set o | o in world.dynamicObjects)`position, (set o | o in world.dynamicObjects)`quaternion
    ensures obj.position == old(obj.position) && obj.quaternion == old(obj.quaternion)
  {
    world.SetPhysicsPose(obj);
    world.UpdateDynamicObjectsModelPose();
  }
}
