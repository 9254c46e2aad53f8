# Physics world and screen sprite, modelled in Dafny

This project models the two components of a small three.js helper library.

- **The physics world** (`physics_world.dfy`, module `Physics`) wraps a rigid-body
  engine. It builds a rigid body for a render object from a primitive shape, a convex
  hull or a triangle mesh. It keeps the list of dynamic render objects and copies poses
  between bodies and render objects, offset by the object's pivot `center`. It also
  answers contact queries over the engine's contact manifolds (`hitTest`).
- **The screen sprite** (`sprite.dfy`, module `ScreenSprite`) places a billboard in
  normalized screen coordinates. It anchors the billboard by one of five alignments and
  scales it against the viewport's aspect ratio.

`geometry.dfy` holds vectors, quaternions and transforms over `real`. `wrappers.dfy` holds
`Option`, which stands for JavaScript slots that may be `undefined`.

The engine is an input, not part of the model. Each body-building call receives a
`BodyAlloc`: the address the engine gives the new body, the collision flags and
activation state its constructor sets, and the inertia `calculateLocalInertia` reports.
The dispatcher's contact manifolds are the world's `manifolds` field. The browser window
is a `Viewport` argument. Coordinates are `real`, so an offset subtracted and added back
cancels exactly.

Two details of the code are worth noting:

- The cone shape gets the 0.05 margin like the other primitives (src/PhysicsWorld.js:72-73).
  Only the convex hull and the triangle mesh keep the engine's default margin.
- In `setPos`, right+bottom gives anchor (0, 1), the same as left+bottom
  (src/Sprite.js:30-31). `AnchorFor` and `CornerAnchors` state this behaviour as written:
  the bottom-right corner (1, 1) is never chosen, which looks unintended.

## Model

| member | source | states |
|---|---|---|
| `Physics.PhysicsWorld.constructor` | src/PhysicsWorld.js:4-11 | gravity defaults to (0, -100, 0); the dynamic-object list starts empty, and so do the world's bodies and manifolds |
| `Physics.PhysicsWorld.UpdateDynamicObjectsModelPose` | src/PhysicsWorld.js:33-41 | every listed object that is not marked `ignorePhysics` and has a motion state takes its body's pose plus its pivot offset; every other listed object keeps its position and rotation; nothing else changes |
| `Physics.PhysicsWorld.AttachBody` | src/PhysicsWorld.js:47-49 | the object gets a fresh body built by `createBody` from its current pose; that body is appended to the world's bodies; a body the object had before stays in the world |
| `Physics.PhysicsWorld.AddSphereBody` | src/PhysicsWorld.js:43-50 | a sphere of the given radius with margin 0.05, attached and added to the world |
| `Physics.PhysicsWorld.AddBoxBody` | src/PhysicsWorld.js:52-60 | a box whose half extents are half the given size, margin 0.05, attached and added |
| `Physics.PhysicsWorld.AddCylinderBody` | src/PhysicsWorld.js:62-69 | a cylinder with half extents (radius, height/2, radius), margin 0.05, attached and added |
| `Physics.PhysicsWorld.AddConeBody` | src/PhysicsWorld.js:71-78 | a cone of the given radius and height, margin 0.05, attached and added |
| `Physics.PhysicsWorld.AddCapsuleBody` | src/PhysicsWorld.js:80-87 | a capsule given the radius and half the height, margin 0.05, attached and added |
| `Physics.PhysicsWorld.AddConvexBody` | src/PhysicsWorld.js:89-99 | a convex hull of exactly the given vertices in order, engine-default margin, attached and added |
| `Physics.PhysicsWorld.AddTriangleBody` | src/PhysicsWorld.js:101-149 | a triangle mesh of the faces' triangles in face order, with #Face3 + 2·#Face4 triangles and engine-default margin, attached and added |
| `Physics.PhysicsWorld.AddHumanBody` | src/PhysicsWorld.js:151-155 | a capsule with radius half the footprint diagonal times `scale` and height the object's height; rotation only about the vertical axis; the given friction; defaults scale 1, friction 1, mass 200 |
| `Physics.Triangulate` | src/PhysicsWorld.js:103-128 | the collected triangles are exactly `TrianglesOf(vertices, faces)`, and there are #Face3 + 2·#Face4 of them |
| `Physics.TrianglesOfAppend` | src/PhysicsWorld.js:104-128 | triangulating two face lists in sequence gives their triangle lists in sequence, so face order is kept |
| `Physics.TriangleCount` | src/PhysicsWorld.js:104-128 | one triangle per Face3, two per Face4, none for any other face |
| `Physics.FaceTrianglesAt` | src/PhysicsWorld.js:106-125 | face i's triangles — (a,b,c) for a Face3, (a,b,d) then (b,c,d) for a Face4 — sit in the mesh right after the triangles of faces 0..i-1 |
| `Physics.CreateTransform` | src/PhysicsWorld.js:158-164 | the transform's origin is the given position and its rotation the given quaternion |
| `Physics.CreateTransformDefaults` | src/PhysicsWorld.js:158 | with no arguments, createTransform gives the identity rotation at the origin |
| `Physics.CreateBody` | src/PhysicsWorld.js:167-183 | static or kinematic: mass 0 and zero inertia; dynamic: the given mass and the shape's inertia; kinematic: flag bit 2 set, every other flag bit kept, activation state 4; otherwise flags and activation state as the engine set them |
| `Physics.RigidBody.constructor` | src/PhysicsWorld.js:173-182 | the new body carries exactly what `createBody` decided, its motion state holds the initial transform, and friction and angular factor are the engine's construction defaults |
| `Physics.ToPhysicsOrigin` | src/PhysicsWorld.js:190-194 | the engine origin plus the pivot offset gives back the render position; the origin equals the position exactly when the offset is zero |
| `Physics.PhysicsWorld.SetPhysicsPose` | src/PhysicsWorld.js:186-203 | with a body: its motion state becomes (position − center, rotation) and it is awake (activation state 1); without one: nothing changes |
| `Physics.PhysicsWorld.SetModelPose` | src/PhysicsWorld.js:206-220 | with a body and motion state: position becomes origin + center and the rotation is copied; otherwise the pose is unchanged |
| `Physics.PoseRoundTrip` | src/PhysicsWorld.js:186-220 | setPhysicsPose followed by updateDynamicObjectsModelPose, with no step in between, gives a listed, non-ignored object back its position and rotation exactly |
| `Physics.PenetratingPoints` | src/PhysicsWorld.js:242-251 | the collected points are `Penetrating(contacts)` |
| `Physics.PenetratingAppend` | src/PhysicsWorld.js:244-251 | the point filter keeps contact order |
| `Physics.PenetratingExactly` | src/PhysicsWorld.js:244-251 | a point is reported if and only if it is the pair of world positions of a contact with distance < 0; there are never more points than contacts |
| `Physics.CollectHits` | src/PhysicsWorld.js:233-259 | the hits are `HitsOf(manifolds, targetPtrs, needHitPoint)`, at most one per manifold |
| `Physics.HitsOfAppend` | src/PhysicsWorld.js:235-256 | the hits of two manifold lists in sequence are their hit lists in sequence, so manifold order is kept |
| `Physics.HitOfManifold` | src/PhysicsWorld.js:235-256 | manifold i adds one hit, after those of manifolds 0..i-1, exactly when both its bodies are in the target set, and adds nothing otherwise |
| `Physics.HitsFromTargetManifolds` | src/PhysicsWorld.js:233-256 | at most one hit per manifold; every hit names two target bodies, carries points exactly when they were asked for, and is the hit of some manifold whose two bodies are both targets |
| `Physics.HitPointsArePenetrating` | src/PhysicsWorld.js:241-255 | with hit points asked for, a hit's points are exactly the negative-distance contacts of its manifold, in contact order |
| `Physics.HitsNameTargetBodies` | src/PhysicsWorld.js:225-239 | both addresses of every hit belong to the body of some target that has one |
| `Physics.PhysicsWorld.HitTest` | src/PhysicsWorld.js:223-260 | the result is `HitsOf` over the world's manifolds and the addresses of exactly the targets' attached bodies; every target with a body has its hits annotation cleared; a target without one keeps it; nothing else changes |
| `ScreenSprite.Aspect` | src/Sprite.js:10 | the aspect ratio is never negative, is positive exactly when the width is, and times the height gives the width |
| `ScreenSprite.Sprite.constructor` | src/Sprite.js:4-13 | position (0, 0, depth), x = y = 0, anchor (0.5, 0.5), the remembered aspect is the viewport's, scale (imageWidth, imageHeight·aspect, depth), default depth 1, no logical size yet |
| `ScreenSprite.AnchorFor` | src/Sprite.js:22-32 | center wins and gives (0.5, 0.5); no anchor is chosen if and only if neither center nor a horizontal+vertical pair is set; the anchor is one of (0.5,0.5), (0,0), (0,1), (1,0) and never (1,1) |
| `ScreenSprite.CornerAnchors` | src/Sprite.js:24-31 | left+top (0,0), left+bottom (0,1), right+top (1,0), and right+bottom gives the same anchor as left+bottom |
| `ScreenSprite.PixelPosition` | src/Sprite.js:33-37 | the position is (innerWidth/2·x, innerHeight/2·y, depth): 0 on either axis maps to the middle, ±1 to the edges |
| `ScreenSprite.Sprite.SetPos` | src/Sprite.js:21-38 | the anchor is `AnchorFor(align)` or stays as it was when no case matches; x and y are stored; the position is the pixel point at the current depth; the default alignment is centred |
| `ScreenSprite.ScaleFor` | src/Sprite.js:43-44 | width and depth pass through; height × initial aspect = h × current aspect, so with an unchanged aspect the height is h |
| `ScreenSprite.Sprite.SetSize` | src/Sprite.js:40-45 | w and h are stored, and the scale is `ScaleFor` at the current viewport aspect and depth |
| `ScreenSprite.Sprite.SetDepth` | src/Sprite.js:47-49 | only the depth changes |
| `ScreenSprite.Sprite.OnResizeWindow` | src/Sprite.js:51-54 | the scale is recomputed from the stored w and h for the current aspect; nothing else changes |
| `ScreenSprite.ResizeWithSameViewport` | src/Sprite.js:40-54 | setSize followed by a resize with the same viewport leaves the scale setSize gave |
| `ScreenSprite.DepthThenPos` | src/Sprite.js:33-49 | after setDepth, the next setPos puts the new depth into the position, while the scale keeps its old depth |

## Left out

- Stepping the simulation (`update`, src/PhysicsWorld.js:29-31) is engine code. The cap of 10 sub-steps is not modelled.
- Building the collision configuration, dispatcher, broad phase and solver is not modelled. The engine's manifold generation is not modelled either: `manifolds` is whatever the engine left after the last step.
- Shape constructors, margins as the engine applies them, and `calculateLocalInertia` are engine code. The model records the parameters passed, and the inertia arrives in `BodyAlloc`.
- Refreshing the bounding-box helper in `setModelPose` (src/PhysicsWorld.js:216-218) is rendering and is not modelled.
- Physics.PhysicsWorld.SetModelPose, Physics.PoseRoundTrip: the motion state keeps the quaternion exactly as given. The engine stores a rotation as a 3×3 matrix and rebuilds a unit quaternion of fixed sign when it is read, so (0,0,0,−1) comes back as (0,0,0,1) and a non-unit quaternion comes back normalised. The rotation survives the round trip, but its four components need not.
- `activate()` after `forceActivationState(1)` is modelled as the state being 1. The engine's deactivation timer is not modelled.
- Physics.PhysicsWorld.AddHumanBody: the square root of the footprint is a caller-supplied `diagonal` with diagonal ≥ 0 and diagonal² = size.x² + size.z², because `real` has no square root.
- Physics.PhysicsWorld.AddTriangleBody: face indices must be valid vertex indices. With a bad index the source throws a TypeError, and the model has no such path.
- Physics.PhysicsWorld.HitTest: the targets are a map from name to object. JavaScript `for…in` would also visit inherited enumerable keys, and a target without `userData` would throw; neither is modelled. The `hits` annotation that callers store is an `Option` of hits.
- ScreenSprite.Sprite.constructor: requires a viewport of positive width and height. With a zero height the source divides by zero and gets Infinity or NaN, which `real` cannot express. With a zero width the remembered aspect ratio is 0, and every later setSize or resize divides by it.
- ScreenSprite.Sprite.SetSize: requires a viewport of positive height, because the source divides by the height. A zero width is allowed and gives a zero height scale. The same holds for `OnResizeWindow`.
- ScreenSprite.Sprite.OnResizeWindow: requires a logical size stored by an earlier setSize. Before that, the source computes the scale from undefined values, which gives NaN.
- The texture, sprite material and `fog` flag of the sprite are rendering and are not modelled. The image's width and height are constructor arguments.
- The methods copied onto the returned instance (src/PhysicsWorld.js:12-25, src/Sprite.js:14-18) are a JavaScript idiom. Here they are ordinary methods of the classes.
- Floating-point rounding of positions, quaternions and aspect ratios is not modelled: all arithmetic is on `real`.
- webpack.config.js is build configuration with no logic.
