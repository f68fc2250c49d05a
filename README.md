# WEngine kinematics core in Dafny

This project models the I/O-free core of WEngine, a 2D WebGL engine written in TypeScript, and proves properties of it. Numbers are Dafny `real`. The functions of JavaScript's `Math` object that the core calls (`hypot`, `sqrt`, `atan2`, `atan`, `tan`, `cos`, `sin`, `PI`, and `Vector2.norm`) are left uninterpreted. They are the fields of a `MathFns` value that every operation needing them takes as a parameter. A lemma that needs `Math.hypot` to behave like a length asks for it in its `requires`.

The modules follow the source:

- `Numerics` (numerics.dfy): `clamp`, `Math.round`, the JavaScript `NaN`, masses that may be `Infinity`, and the unbounded limits of the constraints.
- `Vectors` (vectors.dfy): `Vector2` and `vec2`. Vector arithmetic is a value type. The in-place `add` and the folds `sum` and `mult` are methods of a `Vector2` class.
- `Matrices` (matrices.dfy): the column-major `Matrix3`, a class over a nine-cell `array`, proved against the product, sum and transpose of cell sequences.
- `Transforms` (transforms.dfy): `TransformMatrix3`, with its cells kept in step with the decomposed fields (translation, angle, direction, skew, scale). It models recomposition (`calcMatrix`), decomposition (`calcFields`), every mutator, `copy`, `copyFields` and `setArray`.
- `Physics` (physics.dfy): `PhysicsModel`, with force and acceleration accumulators, semi-implicit Euler integration of the local transform, and the copy of the local fields into the global transform on each tick.
- `CopyConstraints`, `LimitConstraints`, `Springs` and `Ropes`: the `solve` rules of the ten concrete constraints (four copy, four limit, the spring and the rope), each proved to leave exactly the state its rule prescribes and nothing else: a transform for the copy, limit and rope rules, the two force accumulators for the spring. In their NaN cases the distance limit and the rope write nothing; see the LimitConstraints.LimitDistanceConstraint.Solve and Ropes.Rope.Solve lines under "Left out". The abstract `ObjectConstraint` and `TargetConstraint` have no rule of their own.
- `Animations` and `Sequences`: `Blank`, `Animation`, `TimedAnimation`, `AnimationSequence` and `TimedAnimationSequence`. The percent stays in [0, 1]. A sequence's start offsets stay the prefix sums of its durations through `add` and `remove`.
- `Buffers` (triangle_buffers.dfy): the Float32Array triangle buffers of `PositionedObject` and `TexPositionedObject`. It includes the JavaScript typed-array rules for lengths, views and `set`.
- `Lines` (lines.dfy): the two triangles that `LinesObject` draws per line segment.
- `Scenes` (scene.dfy): the object registry of `Scene` with its insertion order, the z-index draw order, `updateLocations`, the animation list, and the settings defaults.
- `Colors` (colors.dfy): `narrowColor` and `narrowDimension`.
- `Easing` (easing.dfy): the table-and-search `bezier` easing.
- `Shapes` (shapes.dfy): the `Polygon`, `Rectangle` and `RegularPolygon` constructors.
- `Colliders` (colliders.dfy): the convexity check of the collider `Polygon`, the box test `shadeIntersect`, the index wrap of `Regular.support` and the bounded triangle search of `intersect`.

Where the source updates objects in place (`Matrix3`, `TransformMatrix3`, `PhysicsModel`, the constraints, the animations, the triangle buffers, `Scene`, and the `bezier` table), the model is a class. Its methods state their whole new state. Pure code is modelled as functions and lemmas.

Behaviour followed from the code:

- `bezier` with `steps` = 0 builds a single row, whose coordinates are 0/0 = NaN. A lookup on that table ends at once and returns NaN; it does not recurse forever (`Easing.Rows`, `Easing.LookupEnds`).
- Every build of one `bezier` builder appends to the same shared table, so a second build leaves a table that is no longer increasing (`Easing.SecondBuildAppends`).
- The limit constraints' constructors store the influence unclamped. Only the setter clamps it.
- The character class `[0-F]` in `narrowColor` also admits ':' through '@'. `parseInt` reads only a hexadecimal prefix.
- The first line of the collider `intersect` discards the result of `shadeIntersect`, so boxes that do not overlap do not stop the search.

## Model

| member | source | states |
|---|---|---|
| Numerics.Clamp | src/math.ts:643-644 | with `min <= max` the result lies in `[min, max]`; a value inside is returned unchanged, one below gives `min`, one above gives `max`; when `max < min` the result is `max` because `Math.min` is applied last |
| Numerics.ClampIdempotent | src/math.ts:643-644 | clamping an already clamped value again changes nothing |
| Numerics.Round | src/colliders.ts:386 | `Math.round` returns the integer within half a unit of its argument, with halves rounded up |
| Vectors.MakeVec2 | src/math.ts:69 | `vec2(x, y)` keeps `x` and takes `y`, or repeats `x` when `y` is missing |
| Vectors.Vec2.Div | src/math/Vector2.ts:61-63 | `div` is undone by `mult`: `(a / b) * b == a` for a divisor without zero coordinates |
| Vectors.Vec2.Abs | src/math/Vector2.ts:114-116 | `abs` gives non-negative coordinates, each equal to the original or to its opposite |
| Vectors.Vec2.Arr | src/math/Vector2.ts:148-161 | `arr` and the iterator list exactly `x` then `y`, as many as `length` says |
| Vectors.SumAllComponents | src/math/Vector2.ts:27-34 | `sum` is componentwise: each coordinate is the receiver's plus the total of the arguments' coordinates |
| Vectors.SumAllConcat | src/math/Vector2.ts:15-20 | adding one list of vectors and then another equals adding their concatenation |
| Vectors.FoldsOfFewArguments | src/math/Vector2.ts:22-54 | `sum()` and `mult()` without arguments give the receiver's coordinates; one argument gives one addition or multiplication |
| Vectors.DifIsSumOfNeg | src/math/Vector2.ts:39-41 | `a.dif(b)` equals `a.sum(b.neg)` |
| Vectors.TriProdOrthogonal | src/math/Vector2.ts:88-91 | the triple product `(A×B)×A` is orthogonal to `A` |
| Vectors.TriProdAgainstArgument | src/math/Vector2.ts:88-91 | against `B` the triple product gives minus the squared cross product, so it never points toward `B` |
| Vectors.PerpendicularsOrthogonal | src/math/Vector2.ts:98-109 | `right` and `left` are both orthogonal to the vector and opposite to each other |
| Vectors.ScaleCompose | src/math/Vector2.ts:70-72 | scaling by `a` then `b` is scaling by `a * b` |
| Vectors.DotSymmetric | src/math/Vector2.ts:79-81 | the dot product is symmetric |
| Vectors.NegInvolutive | src/math/Vector2.ts:130-132 | negating twice gives the vector back |
| Vectors.Vector2.constructor | src/math/Vector2.ts:10-13 | a new vector holds the given coordinates |
| Vectors.Vector2.Add | src/math/Vector2.ts:15-20 | `add` adds each argument to the receiver in turn, reading it when its turn comes: an argument that is the receiver itself adds the receiver's coordinates as they are by then |
| Vectors.AddWithoutSelfIsSum | src/math/Vector2.ts:15-20 | when the receiver is not among the arguments, `add` leaves it holding exactly what `sum` returns |
| Vectors.AddSelfDoubles | src/math/Vector2.ts:15-20 | `v.add(w, v)` leaves 2v + 2w in the receiver, since the second argument is read after the first was added |
| Vectors.Vector2.Sum | src/math/Vector2.ts:27-34 | `sum` returns the receiver plus every argument and does not change the receiver |
| Vectors.Vector2.Mult | src/math/Vector2.ts:47-54 | `mult` returns the componentwise product of the receiver and every argument |
| Matrices.ProductIdentity | src/math/Matrix3.ts:9-13 | the default matrix (the identity) is neutral on both sides of `mult` |
| Matrices.ProductAssociative | src/math/Matrix3.ts:68-85 | the product `mult` computes is associative |
| Matrices.TransposeInvolutive | src/math/Matrix3.ts:87-101 | transposing twice gives the original cells back |
| Matrices.Subarray | src/math/Matrix3.ts:22-23 | `subarray(lo, hi)` with in-range bounds is exactly cells `lo..hi`, and never longer than the array |
| Matrices.WriteAt | src/math/Matrix3.ts:44-46 | a typed array's `set(values, offset)` succeeds exactly when the values fit; it then writes them at `offset` and keeps every other cell |
| Matrices.SetCellSpec | src/math/Matrix3.ts:41-42 | `set(col, row, value)` never fails, writes cell `(col, row)` and leaves the other eight cells unchanged, also when the index falls outside |
| Matrices.SetColumnSpec | src/math/Matrix3.ts:43-44 | `set(col, [a, b, c])` replaces exactly cells `3col..3col+2` |
| Matrices.SetMalformedSpec | src/math/Matrix3.ts:47 | any other argument list raises 'Invalid data' |
| Matrices.Matrix3.Identity | src/math/Matrix3.ts:9-13 | `new Matrix3()` holds the identity in fresh storage |
| Matrices.Matrix3.FromCells | src/math/Matrix3.ts:9-13 | `new Matrix3(data)` holds the given cells in fresh storage |
| Matrices.Matrix3.Get | src/math/Matrix3.ts:18-20 | `get(col, row)` returns cell `col * 3 + row`, or `undefined` when that index lies outside the nine cells |
| Matrices.Matrix3.GetColumn | src/math/Matrix3.ts:21-23 | `get(col)` returns a copy of `subarray(3col, 3col + 3)`, the column for `0 <= col < 3` |
| Matrices.Matrix3.GetAll | src/math/Matrix3.ts:24-30 | `get()` returns three columns of three whose concatenation is the cells |
| Matrices.Matrix3.Set | src/math/Matrix3.ts:36-50 | `set` leaves the cells `Assigned` describes, or fails with 'Invalid data' or a RangeError and changes nothing |
| Matrices.Matrix3.WriteCells | src/math/Matrix3.ts:44-46 | a typed array's `set` writes the values at the offset, or fails with a RangeError and changes nothing |
| Matrices.Matrix3.Copy | src/math/Matrix3.ts:52-54 | `copy` returns equal cells in separate storage |
| Matrices.Matrix3.Sum | src/math/Matrix3.ts:56-66 | `sum` returns a new matrix holding the cell-wise sum of the receiver and every argument |
| Matrices.Matrix3.Mult | src/math/Matrix3.ts:68-85 | `mult(b)` returns a new matrix holding the product `this * b` |
| Matrices.Matrix3.Transpose | src/math/Matrix3.ts:87-101 | `transpose` replaces the cells by their transpose and returns the receiver |
| Transforms.ComposeIsProduct | dist/js/math/TransformMatrix3.js:23-40 | the cells `calcMatrix` writes are the product translation · rotation · shear · scale of the fields' elementary matrices |
| Transforms.TranslationRoundTrip | dist/js/math/TransformMatrix3.js:23-50 | `calcFields` after `calcMatrix` gives back the translation exactly, held in cells 6 and 7 |
| Transforms.ComposeIsAffine | dist/js/math/TransformMatrix3.js:28-38 | the last row of a recomposed transform is (0, 0, 1) |
| Transforms.CellName.Index | dist/js/math/TransformMatrix3.js:160-201 | the accessors a..f address six distinct cells, none of them in the last row |
| Transforms.AffineCells | dist/js/math/TransformMatrix3.js:156-159 | `m` lists the cells that the accessors a..f read, in that order |
| Transforms.AffineMatrix | dist/js/math/TransformMatrix3.js:108-110 | the cells `matrix(a, b, c, d, e, f)` writes are read back unchanged by `m` and keep the last row (0, 0, 1) |
| Transforms.NamedCellRoundTrip | dist/js/math/TransformMatrix3.js:160-201 | a value written through a setter a..f is read back by its getter; after `e` or `f` it is the new `tx` or `ty` |
| Transforms.Transform.FromOptions | dist/js/math/TransformMatrix3.js:9-22 | the options constructor stores the translation, the angle, its direction, the tangent of the skew and the scale, then recomposes |
| Transforms.Transform.FromCells | dist/js/math/TransformMatrix3.js:9-13 | the constructor given a cell buffer holds those cells and the fields decomposed from them |
| Transforms.Transform.CalcMatrix | dist/js/math/TransformMatrix3.js:23-40 | `calcMatrix` rewrites the cells from the fields and leaves the fields alone |
| Transforms.Transform.CalcFields | dist/js/math/TransformMatrix3.js:41-50 | `calcFields` rewrites the fields from the cells and leaves the cells alone |
| Transforms.Transform.Recalc | dist/js/math/TransformMatrix3.js:53-54 | with `recalc` the cells are recomposed; without it they stay as they were |
| Transforms.Transform.TranslateX | dist/js/math/TransformMatrix3.js:51-56 | `translateX` changes only the x translation, then recomposes when asked |
| Transforms.Transform.TranslateY | dist/js/math/TransformMatrix3.js:57-62 | `translateY` changes only the y translation, then recomposes when asked |
| Transforms.Transform.Translate | dist/js/math/TransformMatrix3.js:63-68 | `translate(x, y)` changes only the translation; recomposed, cells 6 and 7 hold x and y |
| Transforms.Transform.RotateTo | dist/js/math/TransformMatrix3.js:69-83 | `rotate(angle)` stores the angle and the unit direction at that angle and nothing else |
| Transforms.Transform.RotateToward | dist/js/math/TransformMatrix3.js:69-83 | `rotate(x, y)` stores the normalised (x, y) as direction and its rotation as angle |
| Transforms.Transform.ScaleX | dist/js/math/TransformMatrix3.js:84-89 | `scaleX` changes only the x scale |
| Transforms.Transform.ScaleY | dist/js/math/TransformMatrix3.js:90-95 | `scaleY` changes only the y scale |
| Transforms.Transform.Scale | dist/js/math/TransformMatrix3.js:96-101 | `scale(sx, sy)` changes only the scale |
| Transforms.Transform.Skew | dist/js/math/TransformMatrix3.js:102-107 | `skew(k)` stores `tan(k)` and changes nothing else |
| Transforms.Transform.SetArray | dist/js/math/TransformMatrix3.js:122-125 | `setArray` writes the values at the offset and decomposes, or throws a RangeError and changes nothing |
| Transforms.Transform.Matrix | dist/js/math/TransformMatrix3.js:108-110 | `matrix(a..f)` installs the affine cells and decomposes them; the translation becomes (e, f) |
| Transforms.Transform.Copy | dist/js/math/TransformMatrix3.js:111-113 | `copy` returns a new transform with equal cells in separate storage and fields decomposed from them |
| Transforms.Transform.CopyFields | dist/js/math/TransformMatrix3.js:114-121 | `copyFields(v)` takes every field of `v`, then recomposes |
| Transforms.Transform.SetNamed | dist/js/math/TransformMatrix3.js:163-201 | a setter a..f writes exactly its cell, then decomposes |
| Numerics.InverseMass | src/physics/PhysicsModel.ts:71 | `1 / mass` is zero exactly for an infinite mass and otherwise the reciprocal of the mass |
| Physics.StepIsSemiImplicit | src/physics/PhysicsModel.ts:70-79 | a tick moves by `v dt + a' dt²` with `a' = a + F/m`: the position uses the velocity already updated |
| Physics.StepZeroTime | src/physics/PhysicsModel.ts:50 | a tick of length 0, as the constructor runs, keeps position and velocity and only clears the accumulators |
| Physics.StepInfiniteMass | src/physics/PhysicsModel.ts:71-73 | an infinite mass ignores the pending force while its acceleration still integrates into the velocity |
| Physics.StepExample | src/physics/PhysicsModel.ts:70-79 | a unit mass at rest under force (0, −10) for one second ends at (0, −10) with velocity (0, −10) |
| Physics.PhysicsModel.constructor | src/physics/PhysicsModel.ts:15-51 | a new body has the given mass, velocity and origin, no force or acceleration, a local transform from location, rotation, scale and skew, and a global one with the same fields |
| Physics.PhysicsModel.ApplyForce | src/physics/PhysicsModel.ts:53-55 | `applyForce` adds to the force and changes nothing else of the body's motion |
| Physics.PhysicsModel.ApplyAcceleration | src/physics/PhysicsModel.ts:57-59 | `applyAcceleration` adds to the acceleration only |
| Physics.PhysicsModel.ApplyVelocity | src/physics/PhysicsModel.ts:61-63 | `applyVelocity` adds to the velocity only |
| Physics.PhysicsModel.Move | src/physics/PhysicsModel.ts:65-68 | `move(d)` adds `d` to the local translation, keeps the other local fields and recomposes |
| Physics.PhysicsModel.UpdateLocation | src/physics/PhysicsModel.ts:70-79 | `updateLocation(dt)` performs one `Step`, writes the new position into the local translation and copies the local fields into the global transform |
| Physics.Reference | src/physics/CopyLocationConstraint.ts:39-47 | a relativity option selects the body's local or its global transform |
| CopyConstraints.Sign | src/physics/CopyLocationConstraint.ts:50 | `invert ? -1 : 1` is ±1, negative exactly when inverted |
| CopyConstraints.CopiedCoordinate | src/physics/CopyLocationConstraint.ts:49-59 | a disabled axis keeps the owner's coordinate; an enabled one takes the target's, negated when inverted, plus the owner's when `offset` is set |
| CopyConstraints.CopiedAngle | src/physics/CopyRotationConstraint.ts:34-46 | the copied rotation is the target's, negated when inverted, plus the owner's when `offset` is set |
| CopyConstraints.CopiedScale | src/physics/CopyScaleConstraint.ts:45-51 | a disabled axis keeps its scale; an enabled one takes the target's, multiplied (not added) by the owner's when `offset` is set |
| CopyConstraints.CopyLocationConstraint.constructor | src/physics/CopyLocationConstraint.ts:12-36 | the options are stored as given, defaulting to both axes, no inversion, no offset and global relativity |
| CopyConstraints.CopyLocationConstraint.Solve | src/physics/CopyLocationConstraint.ts:38-60 | only the owner's global translation changes, each enabled axis to the copied coordinate of the transforms as they were before `solve` |
| CopyConstraints.CopyRotationConstraint.constructor | src/physics/CopyRotationConstraint.ts:10-31 | the options are stored as given, defaulting to no inversion, no offset and global relativity |
| CopyConstraints.CopyRotationConstraint.Solve | src/physics/CopyRotationConstraint.ts:33-47 | the owner's global angle becomes exactly the copied rotation; only the owner's global transform changes |
| CopyConstraints.CopyScaleConstraint.constructor | src/physics/CopyScaleConstraint.ts:11-32 | the options are stored as given, defaulting to both axes, no offset and global relativity |
| CopyConstraints.CopyScaleConstraint.Solve | src/physics/CopyScaleConstraint.ts:34-52 | only the owner's global scale changes, each enabled axis to the copied scale read before any write |
| CopyConstraints.SplitNeutralOwner | src/physics/CopyTransformsConstraint.ts:44-49 | splitting against a neutral owner keeps the target's translation, scale, rotation and skew angle |
| CopyConstraints.SplitSymmetric | src/physics/CopyTransformsConstraint.ts:44-49 | in `split` mode, swapping owner and target changes no field: scales multiply and angles and translations add |
| CopyConstraints.CopyTransformsConstraint.constructor | src/physics/CopyTransformsConstraint.ts:11-29 | the options are stored as given, defaulting to `replace` and global relativity |
| CopyConstraints.CopyTransformsConstraint.Solve | src/physics/CopyTransformsConstraint.ts:31-59 | `replace` installs the target's cells, `beforeFull` target·owner, `afterFull` owner·target, `split` the combined fields; another mode fails with 'Invalid mix mode' carrying the mode and writes nothing |
| CopyConstraints.CopyTransformsConstraint.Install | src/physics/CopyTransformsConstraint.ts:42 | `setArray` of a nine-cell buffer installs those cells and decomposes them |
| CopyConstraints.CopyTransformsConstraint.SolveSplit | src/physics/CopyTransformsConstraint.ts:44-48 | the split edits leave the fields `SplitFields` computes from the transforms as they were, although each field is written in place |
| Numerics.ClampBounds | src/physics/LimitScaleConstraint.ts:47-48 | `clamp` against limits that default to ±Infinity: no limits, or a value inside them, give the value back; finite limits give `clamp`; a consistent range bounds the result |
| LimitConstraints.CorrectionClamps | src/physics/LimitLocationConstraint.ts:42-55 | for a non-empty range the per-axis correction moves the reference coordinate exactly onto its clamped value |
| LimitConstraints.CrossedLimitsCorrectNothing | src/physics/LimitLocationConstraint.ts:47-48 | with the minimum above the maximum and the coordinate between them the correction is 0, where `clamp` would give the maximum |
| LimitConstraints.Nudged | src/physics/LimitLocationConstraint.ts:57 | influence 0 or a zero correction leave the coordinate; influence 1 adds the whole correction |
| LimitConstraints.NudgedBetween | src/physics/LimitLocationConstraint.ts:57 | with an influence in [0, 1] the result lies between the coordinate and the fully corrected one |
| LimitConstraints.PartOf | src/physics/LimitLocationConstraint.ts:57 | a fraction in [0, 1] of a number lies between 0 and that number |
| LimitConstraints.Limited | src/physics/LimitRotationConstraint.ts:39-41 | `v + (clamp(v) - v) * influence` is the clamp at influence 1 and `v` at influence 0 or without limits |
| LimitConstraints.LimitedBetween | src/physics/LimitScaleConstraint.ts:47-50 | with an influence in [0, 1] the blended value lies between the value and its clamp |
| LimitConstraints.LocationCorrected | src/physics/LimitLocationConstraint.ts:38-58 | the new global translation: unchanged with influence 0 or without limits; clamped per axis with influence 1 when measured on itself and the ranges are not empty |
| LimitConstraints.LimitLocationConstraint.constructor | src/physics/LimitLocationConstraint.ts:12-36 | the options are stored as given; the influence is not clamped; limits default to ±Infinity |
| LimitConstraints.LimitLocationConstraint.SetInfluence | src/physics/LimitLocationConstraint.ts:63-65 | the setter stores the influence clamped into [0, 1] and changes nothing else |
| LimitConstraints.LimitLocationConstraint.Solve | src/physics/LimitLocationConstraint.ts:38-58 | only the global translation changes, to the corrected one, with the correction measured on the reference transform; influence 1 on the global transform clamps it |
| LimitConstraints.LimitRotationConstraint.constructor | src/physics/LimitRotationConstraint.ts:13-33 | the options are stored as given; the influence is not clamped; limits default to ±Infinity |
| LimitConstraints.LimitRotationConstraint.SetInfluence | src/physics/LimitRotationConstraint.ts:47-49 | the setter stores the influence clamped into [0, 1] and changes nothing else |
| LimitConstraints.LimitRotationConstraint.Solve | src/physics/LimitRotationConstraint.ts:35-42 | the global angle becomes the reference angle moved toward its clamp by the influence; influence 1 gives the clamp; influence 0 or no limits keep a global angle |
| LimitConstraints.LimitScaleConstraint.constructor | src/physics/LimitScaleConstraint.ts:15-41 | the options are stored as given; the influence is not clamped; limits default to ±Infinity |
| LimitConstraints.LimitScaleConstraint.SetInfluence | src/physics/LimitScaleConstraint.ts:56-58 | the setter stores the influence clamped into [0, 1] and changes nothing else |
| LimitConstraints.LimitScaleConstraint.Solve | src/physics/LimitScaleConstraint.ts:43-51 | each global scale component becomes the reference one moved toward its clamp; influence 1 gives the clamps and influence 0 writes back the reference scale |
| LimitConstraints.ActsWhenOutOfRegion | src/physics/LimitDistanceConstraint.ts:46-50 | 'inside' acts exactly when farther than the distance, 'outside' exactly when nearer, 'surface' whenever different, and any other region never |
| LimitConstraints.PulledReachesDistance | src/physics/LimitDistanceConstraint.ts:42-52 | moving the owner by `dir * (diff / dist)` leaves it exactly `distance` from the target |
| LimitConstraints.LimitDistanceConstraint.constructor | src/physics/LimitDistanceConstraint.ts:10-31 | the options are stored as given, defaulting to distance 0, 'inside' and global relativity |
| LimitConstraints.LimitDistanceConstraint.Solve | src/physics/LimitDistanceConstraint.ts:33-54 | when the region acts the global translation moves along the owner-to-target axis by the excess and reaches the distance on a global owner; otherwise nothing changes; coincident bodies in an acting region are reported as the NaN case |
| Springs.ForcesCancel | src/physics/Spring.ts:32-36 | the owner's force `-F` and the target's `F` sum to zero |
| Springs.NoForceAtRestOrCoincident | src/physics/Spring.ts:29-32 | at rest length, and for coincident bodies (the divisor `dl \|\| Infinity`), the force is zero |
| Springs.HookeMagnitude | src/physics/Spring.ts:26-32 | away from coincidence the force has magnitude `\|ks (dl - L0)\|` |
| Springs.StretchedPullsTogether | src/physics/Spring.ts:26-36 | a stretched spring with positive stiffness pushes the owner toward the target |
| Springs.Spring.constructor | src/physics/Spring.ts:8-23 | rest length and stiffness are stored as given |
| Springs.Spring.Solve | src/physics/Spring.ts:25-37 | the owner's force accumulator gains `-F` and the target's `F`, computed on the global translations; velocity, acceleration and mass of both stay |
| Ropes.SharesPartition | src/physics/Rope.ts:30-51 | unless both masses are infinite the shares lie in [0, 1] and add up to 1, and the heavier body takes the smaller share; two infinite masses get no share |
| Ropes.MovesRestoreLength | src/physics/Rope.ts:53-59 | with at least one finite mass the two displacements together close exactly the excess, leaving the bodies `length` apart |
| Ropes.ImmovableBodiesStay | src/physics/Rope.ts:47-50 | two infinite masses are not displaced |
| Ropes.Rope.constructor | src/physics/Rope.ts:8-23 | length and bounce are stored as given |
| Ropes.Rope.Solve | src/physics/Rope.ts:25-64 | within `length` nothing changes; beyond it each body's local translation moves by its displacement and its acceleration gains the displacement times `bounce`; velocity, force and mass stay |
| Animations.ConstantIgnoresPercent | src/animation/Blank.ts:19-21 | a Blank's value is its constructor argument, whatever the percent |
| Animations.LinearEndpoints | src/animation/Animation.ts:26-28 | with the identity easing the value is `x0 + p * dx`: `x0` at percent 0 and `x0 + dx` at percent 1 |
| Animations.Animation.Blank | src/animation/Blank.ts:7-10 | a new Blank keeps its value and starts at percent 0 |
| Animations.Animation.constructor | src/animation/Animation.ts:8-24 | a new Animation keeps `x0`, `dx` and `func` and stores its percent through the clamping setter |
| Animations.Animation.SetPercent | src/animation/Blank.ts:15-17 | the setter stores the percent clamped into [0, 1]; setting the stored percent again changes nothing |
| Animations.ProgressBounds | src/animation/TimedAnimation.ts:27-30 | the clamped progress is a percent; with a positive duration it is 0 up to `t0` and 1 from `t0 + dur` on; it is NaN exactly for a zero duration at `t0` |
| Animations.TimedAnimation.constructor | src/animation/TimedAnimation.ts:8-25 | a new TimedAnimation keeps `x0`, `dx`, `func`, `t0` and `dur` and starts at percent 0 |
| Animations.TimedAnimation.Update | src/animation/TimedAnimation.ts:27-30 | `update(time)` stores the clamped progress as percent and returns the value read right afterwards |
| Sequences.FirstCovering | src/animation/AnimationSequence.ts:39 | `findIndex` gives the first entry whose span contains the point, or -1 when none does |
| Sequences.SumDurOfShape | src/animation/AnimationSequence.ts:56-58 | `length` depends only on the entries' durations, not on their starts |
| Sequences.StartsDetermined | src/animation/AnimationSequence.ts:43-53 | two entry lists with prefix-sum starts and the same animations and durations are equal |
| Sequences.SumDurRemove | src/animation/AnimationSequence.ts:41 | deleting one entry takes exactly its duration off `length` |
| Sequences.RestartStep | src/animation/AnimationSequence.ts:43-53 | one pass of `remove`'s loop extends the prefix-sum starts by one entry and changes nothing else |
| Sequences.Covered | src/animation/AnimationSequence.ts:37-41 | with non-negative durations every point in [0, length] of a non-empty sequence is covered by some entry |
| Sequences.AnimationSequence.constructor | src/animation/AnimationSequence.ts:12-27 | the entries are the items in order with their durations (1 when missing), with prefix-sum starts and percent 0 |
| Sequences.AnimationSequence.SetPercent | src/animation/Blank.ts:15-17 | the inherited setter clamps the percent and leaves the entries alone |
| Sequences.AnimationSequence.Add | src/animation/AnimationSequence.ts:29-35 | `add` appends `{anim, s: length, dur}`; `length` grows by `dur` and the starts stay prefix sums |
| Sequences.AnimationSequence.Remove | src/animation/AnimationSequence.ts:37-54 | `remove(p)` deletes exactly the first entry covering `clamp(p, 0, 1) * length`, keeps the earlier entries and the order of the later ones, and restores prefix-sum starts; with no covering entry the last entry is dropped and a TypeError is raised |
| Sequences.AnimationSequence.RestartFrom | src/animation/AnimationSequence.ts:43-53 | the loop of `remove` recomputes every start from `id` on as prefix sums and changes nothing before `id` |
| Sequences.AnimationSequence.Value | src/animation/AnimationSequence.ts:60-66 | `value` sets the first covering entry's percent to the position inside it and returns the offset plus its value; no covering entry raises a TypeError |
| Sequences.NewAnimationSequence | src/animation/AnimationSequence.ts:12-27 | a numeric first argument is the offset; another first argument is the first entry with offset 0; a missing one raises a TypeError |
| Sequences.TimedAnimationSequence.constructor | src/animation/TimedAnimationSequence.ts:12-27 | a numeric offset is passed on and the animations become the entries; `t0` and `dur` are stored |
| Sequences.TimedAnimationSequence.Update | src/animation/TimedAnimationSequence.ts:29-32 | `update(time)` stores the clamped progress as the sequence's percent and then does what `value` does: the first covering entry's animation gets the position inside it as its percent, the result is the offset plus that animation's value, and no other animation changes; no covering entry, or a NaN progress, raises a TypeError and changes no animation |
| Sequences.NewTimedAnimationSequence | src/animation/TimedAnimationSequence.ts:12-27 | an omitted offset is passed on as an entry and construction raises a TypeError; otherwise it becomes the sequence's offset |
| Buffers.Flat | src/objects/TexPositionedObject.ts:40 | `triangle.flat(2)` gives six floats |
| Buffers.FlatAll | src/objects/TexPositionedObject.ts:40 | `tris.flat(2)` gives six floats per triangle |
| Buffers.Triangles | src/objects/TexPositionedObject.ts:47-55 | a buffer of whole triangles holds one triangle per six floats |
| Buffers.Zeros | src/objects/PositionedObject.ts:75 | a new Float32Array of `n` elements holds `n` zeros |
| Buffers.Overwrite | src/objects/TexPositionedObject.ts:60 | a typed array's `set(vals, at)` puts `vals` at `at` and keeps every other float and the length |
| Buffers.ToIndex | src/objects/PositionedObject.ts:75 | a typed-array length is truncated toward zero, and one below zero raises a RangeError |
| Buffers.ReadTri | src/objects/TexPositionedObject.ts:47-55 | the six-float view at triangle `id` succeeds exactly when it lies inside the buffer and then reads floats `6id..6id+5` |
| Buffers.FlatAllRoundTrip | src/objects/TexPositionedObject.ts:40-55 | reading back the triangles that `flat(2)` laid out gives the same triangles |
| Buffers.AppendTriangle | src/objects/TexPositionedObject.ts:66-75 | appending six floats appends exactly one triangle |
| Buffers.OverwriteTriangle | src/objects/TexPositionedObject.ts:57-64 | overwriting the six floats of triangle `id` replaces that triangle and no other |
| Buffers.CutTriangle | src/objects/TexPositionedObject.ts:80-89 | cutting out the six floats of triangle `id` removes it, keeps the earlier ones and moves the later ones down by one |
| Buffers.Write | src/objects/TexPositionedObject.ts:60 | a typed array's `set` that fits writes the values in place |
| Buffers.Set | src/objects/TexPositionedObject.ts:60 | a typed array's `set` succeeds exactly when the values fit; otherwise it raises a RangeError and writes nothing |
| Buffers.FromSeq | src/objects/TexPositionedObject.ts:40 | `Float32Array.from(values)` holds the values in fresh storage |
| Buffers.TexPositionedObject.constructor | src/objects/TexPositionedObject.ts:40 | the map holds the given triangles, in order |
| Buffers.TexPositionedObject.GetUVTriangle | src/objects/TexPositionedObject.ts:47-55 | `getUVTriangle(id)` returns floats `6id..6id+5` as a triangle, or a RangeError outside the buffer |
| Buffers.TexPositionedObject.SetUVTriangle | src/objects/TexPositionedObject.ts:57-64 | an id outside [0, count) gives false and changes nothing; otherwise exactly triangle `id` is replaced and reads back as written |
| Buffers.TexPositionedObject.AddUVTriangle | src/objects/TexPositionedObject.ts:66-75 | the new map holds the old floats and then the triangle; the result is the old count |
| Buffers.TexPositionedObject.RemoveUVTriangle | src/objects/TexPositionedObject.ts:77-95 | an id outside [0, count) gives false and changes nothing; otherwise that triangle is cut out and the later ones move down by one |
| Buffers.AddAsWritten | src/objects/PositionedObject.ts:74-83 | `addTriangle` builds the old floats, then the triangle, then `floats / 2` zeros, and returns the new float count / 4 − 1 |
| Buffers.View | src/objects/PositionedObject.ts:89-97 | a Float32Array view succeeds exactly when it lies inside the buffer and then reads those floats |
| Buffers.AddLength | src/objects/PositionedObject.ts:75 | the length `(floats / 4 + 1) * 6` truncates to `floats + 6 + floats / 2` |
| Buffers.SetPastLastThrows | src/objects/PositionedObject.ts:65-72 | on `n` whole triangles, id `n` passes the bound `_vertsCount / 2` and the write raises a RangeError |
| Buffers.AddPadsAndMisnumbers | src/objects/PositionedObject.ts:74-83 | adding to one triangle gives 15 floats and returns 2.75; adding to an empty buffer returns 0.5 |
| Buffers.RemoveNeverCompletes | src/objects/PositionedObject.ts:85-103 | `removeTriangle` never returns true: the id is rejected or a typed-array step raises a RangeError |
| Buffers.PositionedObject.constructor | src/objects/PositionedObject.ts:44-52 | the buffer holds the given triangles and `_vertsCount` is three per triangle |
| Buffers.PositionedObject.UpdateTriangles | src/objects/PositionedObject.ts:105-109 | `updateTriangles` sets `_vertsCount` to half the float count and keeps the buffer |
| Buffers.PositionedObject.GetTriangle | src/objects/PositionedObject.ts:55-63 | `getTriangle(id)` returns floats `6id..6id+5` as a triangle, or a RangeError outside the buffer |
| Buffers.PositionedObject.SetTriangle | src/objects/PositionedObject.ts:65-72 | `setTriangle` gives false for an id outside [0, `_vertsCount / 2`), raises a RangeError past the last triangle, and otherwise replaces triangle `id` |
| Buffers.PositionedObject.AddTriangle | src/objects/PositionedObject.ts:74-83 | `addTriangle` installs a fresh buffer and returns what `AddAsWritten` describes |
| Buffers.PositionedObject.RemoveTriangle | src/objects/PositionedObject.ts:85-103 | `removeTriangle` gives false or raises a RangeError, and in both cases leaves the buffer as it was |
| Lines.Offset | src/objects/LinesObject.ts:24-26 | the offset is NaN exactly when the right perpendicular of `v2 − v1` has size zero |
| Lines.Band | src/objects/LinesObject.ts:28-30 | each line gives exactly two triangles |
| Lines.Triangulate | src/objects/LinesObject.ts:19-31 | the loop gives two triangles per line, `[v2−c, v1+c, v1−c]` then `[v2−c, v2+c, v1+c]`, in input order |
| Lines.NaNOnlyForPoints | src/objects/LinesObject.ts:26 | with a correct `Math.hypot`, the offset is NaN exactly for a line whose ends coincide |
| Lines.OffsetPerpendicular | src/objects/LinesObject.ts:24-26 | the offset is orthogonal to `v2 − v1` |
| Lines.OffsetLength | src/objects/LinesObject.ts:24-26 | the offset is `width` long |
| Lines.BandSharesDiagonal | src/objects/LinesObject.ts:28-30 | the two triangles are the halves of the quadrilateral `v1 ± c`, `v2 ± c` and share the diagonal from `v2 − c` to `v1 + c` |
| Lines.LinesObject.constructor | src/objects/LinesObject.ts:6-34 | the colour defaults to '#000', the width to 0.1, and the triangles are those of `Triangulate` |
| Colors.DigitValue | src/graphics.ts:157 | a base-16 digit has a value below 16; any other character has none |
| Colors.Match4 | src/graphics.ts:149-152 | the short pattern yields four groups when it matches |
| Colors.Match8 | src/graphics.ts:150-153 | the long pattern yields four groups when it matches |
| Colors.FixAlpha | src/graphics.ts:166 | a NaN alpha becomes 1; the other channels stay |
| Colors.NarrowColor | src/graphics.ts:142-169 | `narrowColor` raises 'Invalid color data' exactly for a string matched by neither pattern, and never returns a NaN alpha |
| Colors.ArraysAndObjectsKept | src/graphics.ts:145-147 | an array and an object with the same channels narrow to the same colour, unchanged except for a NaN alpha |
| Colors.WrongShapeRefused | src/graphics.ts:152-163 | a string whose length is not 4, 5, 7 or 9, or that does not start with '#', is refused |
| Colors.ParseOneDigit | src/graphics.ts:157 | `parseInt` of one digit is the digit's value |
| Colors.ParseTwoDigits | src/graphics.ts:161 | `parseInt` of two digits is 16 times the first plus the second |
| Colors.ShortHexRoundTrip | src/graphics.ts:155-158 | '#' and three or four digits read back as digit / 15 per channel, with alpha 1 when only three are given |
| Colors.LongHexInClass | src/graphics.ts:150 | every character after the '#' of the long notation is in the pattern's class |
| Colors.LongHexChannel | src/graphics.ts:161 | one pair of the long notation reads back as its byte / 255 |
| Colors.LongHexRoundTrip | src/graphics.ts:159-162 | '#' and three or four byte pairs read back as byte / 255 per channel, with alpha 1 when only three are given |
| Colors.NonDigitChannelIsNaN | src/graphics.ts:149-157 | the class `[0-F]` admits ':' through '@'; "#:00" matches and its first channel is NaN |
| Colors.NonDigitEndsChannel | src/graphics.ts:150-161 | "#a:0000" matches and its first channel reads only the leading digit, 10 / 255 |
| Colors.DimensionFormsAgree | src/graphics.ts:171-176 | the object and the array form of one rectangle narrow to the same four numbers |
| Easing.CheckControls | src/math.ts:596-598 | `bezier` accepts exactly control abscissas in [0, 1], reporting `x1` before `x2` |
| Easing.Rows | src/math.ts:605-613 | one build pushes `steps + 1` rows, from (0, 0) to (1, 1); with `steps` 0 the only row is NaN |
| Easing.Interpolate | src/math.ts:620-627 | the interpolation is a number exactly when both rows are numbers with distinct abscissas |
| Easing.InterpolateEndpoints | src/math.ts:626 | the interpolation passes through both rows |
| Easing.MidpointInside | src/math.ts:629 | `Math.round(l + (r - l) / 2)` lies strictly between `l` and `r` once they are two or more apart |
| Easing.LookupIn | src/math.ts:615-638 | an `x` outside [0, 1] raises 'x is out of bounds'; an empty table raises a TypeError |
| Easing.SearchEnds | src/math.ts:619-636 | a search over two rows or more always ends |
| Easing.LookupEnds | src/math.ts:605-639 | after a build with at least one step, or a single zero-step build, every lookup in [0, 1] ends; the single zero-step build gives NaN |
| Easing.SearchBrackets | src/math.ts:619-636 | on a strictly increasing table, a search whose range brackets `x` returns a row's ordinate at exactly `x` or interpolates between the two rows around `x` |
| Easing.Bezier.constructor | src/math.ts:596-600 | after the checks the shared table is empty |
| Easing.Bezier.Build | src/math.ts:605-613 | a build appends its rows behind whatever earlier builds left in the shared table |
| Easing.NewBezier | src/math.ts:596-600 | failing checks raise their error; otherwise a builder over an empty table with the given controls |
| Easing.SecondBuildAppends | src/math.ts:600-613 | after two builds the abscissas run from 0 to 1 twice, so the table is no longer increasing |
| Shapes.NewPolygon | src/shapes/Polygon.ts:18-23 | refused exactly when fewer than three vertices are given; otherwise the vertices and the location, rotation and scale are kept as passed |
| Shapes.Corners | src/shapes/Rectangle.ts:22-27 | a rectangle always hands four corners to `Polygon` |
| Shapes.NewRectangle | src/shapes/Rectangle.ts:18-28 | a rectangle is the polygon built from its four corners with the forwarded location, rotation and scale, and that build is never refused |
| Shapes.CornersSymmetric | src/shapes/Rectangle.ts:23-26 | the corners come in opposite pairs, sum to the zero vector and lie `width` apart across and `height` apart vertically |
| Shapes.RegularVertices | src/shapes/RegularPolygon.ts:25-27 | the loop produces one vertex per count, none for a count that is not positive |
| Shapes.PushRegularVertices | src/shapes/RegularPolygon.ts:20-27 | the push loop yields exactly the vertex list `fromDegree(beta + delta * i, radius)` for i from 0 below the count |
| Shapes.NewRegularPolygon | src/shapes/RegularPolygon.ts:17-29 | refused exactly when the count is below three; otherwise it has that many vertices and scale (1, 1) whatever scale was passed |
| Shapes.RegularSteps | src/shapes/RegularPolygon.ts:21-26 | successive vertex angles differ by 2π/n; the first vertex is at π/2 for an odd count and π/2 − π/n for an even one |
| Shapes.RegularOnCircle | src/shapes/RegularPolygon.ts:25-27 | with a correct hypot and cos² + sin² = 1, every vertex lies at distance \|radius\| from the centre |
| Colliders.CheckPolygon | src/colliders.ts:264-289 | the constructor's check loop refuses fewer than three vertices, and with checking on refuses exactly the vertex lists with a corner that fails the normal test for the orientation of the first corner |
| Colliders.CornerIsTurn | src/colliders.ts:278-285 | a corner passes exactly when the cross product of its two edges has the sign the orientation demands |
| Colliders.ClockwiseIsTurnAtOne | src/colliders.ts:267-271 | the winding direction is read off the turn at vertex 1 |
| Colliders.AcceptsExactlyOneWayTurning | src/colliders.ts:273-287 | an accepted polygon with checking on turns the same way at every vertex, and one that does so is accepted |
| Colliders.UncheckedOnlyCounts | src/colliders.ts:264-287 | with checking off only the vertex count is examined |
| Colliders.ShadeIntersectSymmetric | src/colliders.ts:64-75 | two shades overlap exactly when their boxes overlap strictly on both axes, whichever collider asks |
| Colliders.ShadeIntersectFacts | src/colliders.ts:64-75 | moving both colliders by the same offset (such as the canvas centre) changes nothing; a box of positive extent overlaps itself; two boxes of no extent, like the default shade, never overlap |
| Colliders.Wrap | src/colliders.ts:387-388 | the wrapped index moves by at most one count, and lands inside [0, n) exactly when it started in [−n, 2n) |
| Colliders.RegularSupport | src/colliders.ts:381-391 | the support succeeds exactly when the wrapped, rounded sector index names a stored vertex; otherwise reading the vertex throws |
| Colliders.SectorBounded | src/colliders.ts:382-386 | an angle of at most a full turn in size, divided by the step 2π/n, is at most n steps in size |
| Colliders.RegularSupportDefined | src/colliders.ts:381-390 | with `Math.atan2` inside [−π, π] and at least n vertices stored, the support never throws |
| Colliders.Furthest | src/colliders.ts:5-9 | the offset applied to both supports cancels: the result is the support of the first in the direction minus the support of the second opposite it |
| Colliders.CheckBudget | src/colliders.ts:103-146 | the triangle search calls itself between once and budget + 1 times, and a search that used up its budget reports no hit |
| Colliders.HitNeedsBudget | src/colliders.ts:103-142 | a hit needs a budget of at least one and is found within it |
| Colliders.Intersect | src/colliders.ts:77-78 | `a.intersect(b)` is the triangle search from the two positions with a budget of 30 rounds; the box test on the first line is dropped |
| Colliders.IntersectIgnoresShades | src/colliders.ts:77-78 | two pairs of colliders at the same positions get the same answer whatever their shades, so the discarded box test never decides it |
| Colliders.IntersectBudget | src/colliders.ts:77-147 | a hit needs a second support point not behind the origin and a search that ended within its 30 rounds |
| Scenes.MakeSettings | src/graphics/Scene.ts:35-44 | fails exactly when the background colour cannot be narrowed; otherwise colour and viewport are narrowed and a missing depth function, blend function or enable list takes its default |
| Scenes.Without | src/graphics/Scene.ts:104-106 | the names kept after a removal are exactly those not removed, and stay distinct |
| Scenes.AssignedLookup | src/graphics/Scene.ts:95-101 | after assigning pairs in order a name is present exactly when it was before or is given, holds the value of its last pair, and any other name keeps its entry |
| Scenes.Insert | src/graphics/Scene.ts:70-72 | inserting a name into the sorted list adds exactly that name |
| Scenes.DrawOrder | src/graphics/Scene.ts:70-72 | the draw order is a permutation of the registered names |
| Scenes.InsertDescending | src/graphics/Scene.ts:70-72 | inserting into a list sorted by decreasing z-index keeps it sorted |
| Scenes.DrawOrderDescending | src/graphics/Scene.ts:70-72 | `draw` visits every object exactly once, from the highest z-index down |
| Scenes.InsertLevel | src/graphics/Scene.ts:70-72 | an inserted name goes ahead of every name of its own z-index and leaves their order alone |
| Scenes.DrawOrderStable | src/graphics/Scene.ts:70-72 | the sort is stable: objects of equal z-index are drawn in insertion order |
| Scenes.Scene.constructor | src/graphics/Scene.ts:35-46 | a new scene has the given settings, no objects and no animations |
| Scenes.Scene.AddObject | src/graphics/Scene.ts:93-94 | the name now maps to the value; a new name goes last in the order, a known one keeps its place; the animations are untouched |
| Scenes.Scene.AddObjects | src/graphics/Scene.ts:95-101 | every pair is assigned in order, so a later duplicate wins, with the insertion order updated to match |
| Scenes.Scene.RemoveOne | src/graphics/Scene.ts:105 | deleting one name removes exactly that entry and its place in the order |
| Scenes.Scene.RemoveObject | src/graphics/Scene.ts:104-106 | exactly the given names are deleted; names not registered are ignored; the order of the rest is kept |
| Scenes.Scene.ClearObjects | src/graphics/Scene.ts:108-110 | the registry becomes empty and the animations are kept |
| Scenes.Scene.DrawSequence | src/graphics/Scene.ts:70-72 | the names drawn are exactly the registered names, each once |
| Scenes.Scene.UpdateLocations | src/graphics/Scene.ts:79-84 | every physics model of a registered object takes exactly one step of `dt` and keeps its mass. Its local transform takes the new position as its translation and keeps its other fields. Its global transform is a copy of the local fields. Both matrices are recomposed. Nothing else changes |
| Scenes.StepAll | src/graphics/Scene.ts:80-83 | the loop of `updateLocations` over a registry and its names: every registered physics model takes one step, with the same local and global transform updates as `updateLocation` |
| Scenes.StepOne | src/graphics/Scene.ts:81-82 | one turn of that loop: the model of the current name, if any, takes its step, and every model already stepped or still waiting is left as it was |
| Scenes.UpdateOne | src/graphics/Scene.ts:117 | `v.update(time)` on one timed animation: only a sequence throws, one with NaN progress always does, the percent is the updated one, and a sequence that does not throw holds its covering entry's clamped position |
| Scenes.UpdateNth | src/graphics/Scene.ts:117 | one update sets its own percent, throws only for a sequence (and does throw for a sequence whose progress is NaN), and changes no other percent, entry list or clock. A sequence that does not throw leaves the entry covering its point holding the clamped position inside that entry as its animation's percent. Earlier sequences whose objects it does not touch keep that property |
| Scenes.UpdateAll | src/graphics/Scene.ts:116-118 | the loop over the animations: updated in order until the first one throws; percents as its own updates set them when no update changes another's percent; each updated sequence holds its covering entry's percent when no two updates touch a common object |
| Scenes.Scene.UpdateAnimations | src/graphics/Scene.ts:116-118 | the animations are updated in order until the first one throws; only a sequence can throw, and one with NaN progress always does. When no update changes another's percent, each updated animation holds the percent its own update set. When no two updates touch a common object, each updated sequence also holds in its covering entry's animation the clamped position inside that entry |
| Scenes.Scene.AddAnimation | src/graphics/Scene.ts:112-114 | the animations are appended in argument order and the objects are untouched |

## Left out

- Floating point: the buffers are Float32Array and numbers are IEEE doubles. Cells are `real`, and no rounding, overflow or bit-exactness is modelled. Infinities appear only as the unbounded limits and the infinite mass. NaN is modelled only where the source produces it: a zero-duration animation, a zero-length line, coincident bodies under a distance limit or a rope, `parseInt` failures, and a zero-step bezier table.
- `Math` functions: `hypot`, `sqrt`, `atan2`, `atan`, `tan`, `cos`, `sin`, `PI` and `norm` are uninterpreted. Decomposition after recomposition is proved to be the identity only on the translation cells 6 and 7.
- Vector2 aliasing: `Vectors.Vector2.Add` models the receiver passed as its own argument, but the transforms hold their vectors as values. `copyFields` shares its Vector2 objects between two transforms. In the source, a later in-place `translateX`/`scaleX` on the global transform then also moves the local one until `translate` or `scale` installs a new vector. The model copies values, so that coupling is not captured.
- Transforms.Transform.FromOptions: takes every option. An options-built transform without `skew`, which stores tan(undefined) = NaN, is not modelled.
- Physics.PhysicsModel: a mass of zero or below is not modelled. A finite mass is positive.
- WebGL, DOM and canvas: the GL calls of `Scene` (constructor, `init`, `resize`, `gl.clear`), `setAttribute`, `setUniform` and `updateAttribute` are left out. `draw` is modelled as the order in which objects are visited.
- `Circle.support`, `Polygon.setShade` and the collider `draw` methods use trigonometry and the canvas. They are left out. `intersect` takes the support functions as parameters.
- The vertex-generating loop of the collider `Regular` constructor uses `cos`/`sin`. Its vertices are a parameter of `Colliders.RegularSupport`.
- `ObjectConstraint` has an empty `solve`, and `TargetConstraint` only stores its fields. Neither is modelled separately.
- Scene registry: names are strings in insertion order. JavaScript's ordering of integer-like keys first, and one object registered under two names, are not modelled.
- Scenes.Scene.UpdateLocations: requires that no two registered objects share a physics model or any part of one, which the source does not check.
- Scenes.Scene.UpdateAnimations: the percent of each updated animation is stated only when no update changes another's percent. The covering entry's percent in each updated sequence is stated only when no two updates touch a common object.
- Scenes.StepAll and Scenes.StepOne: carry the same requirement as Scenes.Scene.UpdateLocations, that no two names share a physics model or any part of one.
- Scenes.UpdateAll: carries the same conditions as Scenes.Scene.UpdateAnimations.
- Ropes.Rope.Solve: requires that the two bodies share no transform. For coincident bodies and a negative length the source writes NaN positions; the model reports that case through a flag and changes nothing.
- LimitConstraints.LimitDistanceConstraint.Solve: at zero distance the source writes NaN coordinates. The model reports that case through a flag and does not write them.
- Animations.TimedAnimation.Update: when the progress is NaN (`dur` = 0 at `time` = `t0`), the source stores NaN as the percent and returns `x0 + func(NaN) * dx`. The model keeps the old percent, because the percent is a `real`, and returns NaN. That result is right only for easings that propagate NaN: `p => p < 0.5 ? 0 : 1` gives x0 + dx in the source.
- Sequences.TimedAnimationSequence.Update: keeps the sequence's percent when the progress is NaN, where the source stores NaN before the lookup throws. For a covering entry of duration zero it behaves as `Sequences.AnimationSequence.Value` below.
- Sequences.AnimationSequence.Value: for an entry of duration zero the source stores the percent 0/0 = NaN and returns the offset plus `x0 + func(NaN) * dx`. The model keeps the old percent and returns NaN, or the offset plus the constant of a `Blank`. The NaN is right only for easings that propagate NaN.
- Sequences.AnimationSequence.Add and Sequences.AnimationSequence.Value: an entry holds a `Blank` or an `Animation`. The source's `add` accepts any `Blank`, including a nested `AnimationSequence`, whose `value` then runs the inner sequence's own lookup and passes on its TypeError. Nested sequences are not modelled.
- Vectors.Vec2.Div: requires non-zero divisor coordinates, since the quotient by zero is an infinity or NaN that `real` cannot hold.
- Easing: the infinities produced by a zero-width interval are represented by `NaN`.
- Fractional triangle ids and fractional buffer offsets are not modelled. Ids are integers.
- Colliders.RegularSupport: takes an integer vertex count `n`; a fractional count is not modelled.
- Easing.SearchBrackets: holds only for a table whose abscissas strictly increase. The model does not prove that the rows of a single build form such a table, because that needs the cubic `Pos(x1, x2, t)` to grow strictly in `t`. After a second build the table is not increasing (`Easing.SecondBuildAppends`).
- Easing.Rows and Easing.Bezier.Build take an integer `steps`. With a fractional `steps` the source's loop `i <= steps` stops at the last whole i, so the last row is not at t = 1. That case is not modelled.
- Shapes.NewRegularPolygon and Shapes.PushRegularVertices take an integer count. The source takes any number. A count of 3.5 gives 4 vertices with step 2π/3.5 and theta 0, because `3.5 % 2` is truthy. Fractional counts are not modelled.
- Compiled output under dist/ (except dist/js/math/TransformMatrix3.js), the earlier iterations in src/math.ts, src/physics.ts, src/animation.ts, src/shapes.ts and js/, the loader, and the Electron glue are outside the modelled core.

## Findings

| source | as written | input that shows it | evidently intended | confidence | as-written member | corrected member |
|---|---|---|---|---|---|---|
| src/objects/PositionedObject.ts:66 | `setTriangle` bounds the id by `_vertsCount / 2`, which is the float count / 4, not the triangle count | a buffer of n ≥ 1 whole triangles and id = n: the guard passes and `set` at offset 6n raises a RangeError | accept exactly the ids below the triangle count, floats / 6 | not executed | Buffers.PositionedObject.SetTriangle, Buffers.SetPastLastThrows | Buffers.TexPositionedObject.SetUVTriangle |
| src/objects/PositionedObject.ts:75-82 | `addTriangle` sizes the new buffer as `(_vertsCount / 2 + 1) * 6` and returns `_vertsCount / 2 - 1` | one triangle (6 floats): the new buffer has 15 floats, three of them padding zeros, and the call returns 2.75; on an empty buffer it returns 0.5 | append exactly six floats and return the index of the new triangle | not executed | Buffers.PositionedObject.AddTriangle, Buffers.AddPadsAndMisnumbers | Buffers.TexPositionedObject.AddUVTriangle |
| src/objects/PositionedObject.ts:86-102 | `removeTriangle` uses the same `_vertsCount / 2` count for its bound, its new length and the length of the tail view | any buffer and id: the id is rejected, or the tail view runs past the end of the buffer and raises a RangeError, so the call never returns true | cut out the six floats of triangle `id` and return true | not executed | Buffers.PositionedObject.RemoveTriangle, Buffers.RemoveNeverCompletes | Buffers.TexPositionedObject.RemoveUVTriangle |
