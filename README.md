# Entity kinematics and collision response (grapefruit `gf.Entity`)

This project models, in Dafny, the movement core of `gf.Entity` in the
grapefruit game engine (`src/entity/Entity.js`): how an entity's velocity is
advanced each tick (gravity, the `falling`/`jumping` flags, friction, the
velocity cap), how the tiles the world reports along the entity's path stop,
redirect or suspend that movement (`updateMovement`), how a move is committed
to the visual mesh and the hitbox (`moveEntity`, `setPosition`), and the
entity-versus-entity overlap test and penetration estimate (`intersects`,
`checkCollision`).

Files and modules:

- `wrappers.dfy` (`Wrappers`): `Option`, for values the JavaScript may leave undefined.
- `vectors.dfy` (`Vectors`): `gf.Vector` as a value `Vec(x, y)` over the reals, the axes `X`/`Y`,
  and the vector operations the core uses (`add`, `sub`, `multiplyScalar`, `dot`, `v[axis]`).
- `utils.dfy` (`Utils`): `gf.utils.clamp`, taken to be `min(max(v, lo), hi)`, and the type of
  `gf.utils.applyFriction`, which the model takes as a parameter (any function of value and coefficient).
- `kinematics.dfy` (`Kinematics`): `computeVelocity` as the function `Compute`, with its properties.
- `collision.dfy` (`Collision`): `intersects` and `checkCollision` over hitboxes, with their properties.
- `tiles.dfy` (`Tiles`): the collider loop of `updateMovement` as the function `Resolve`, with its properties.
- `entity.dfy` (`Entities`): the class `Entity`, whose methods update its fields in place as the
  source does; each is proved against the functions above.

Numbers are reals: floating-point rounding, NaN and negative zero are not modelled. The tick's
time step `gf.game._delta` is a parameter, and so is the world's answer to
`gf.game.world.checkCollision(...)`: a sequence of colliders (tile type, optional slope normal,
axis), empty when there is no world.

Notes on the code as written:

- Gravity is subtracted from `vel.y` and `falling` is `vel.y > 0`: with gravity 10, no friction
  and a cap of 15, one `computeVelocity` call on a zero vector gives `(0, -10)` and
  `falling == false` (`Kinematics.FreeFallFromRest`).
- A tick never starts a fall from rest: `updateMovement` returns at once when the velocity is
  zero, before gravity is applied, so an entity at rest stays at rest until something else gives
  it a velocity (the first ensures of `Entities.Entity.UpdateMovement`).
- `checkCollision` returns half of `this` minus `other`: for boxes at `(5, 0)` and `(0, 0)`
  the entity at `(5, 0)` gets `(2.5, 0)` (`Collision.OverlapExample`).
- `intersects` compares the unscaled `hitSize`, and `setPosition` adds the unscaled `hitOffset`;
  among the movement code only the world query receives `scaledHitSize` (the hitbox mesh is
  also scaled by it when it is created).
- `settings.gravity || gf.game.gravity` makes an explicit gravity of 0 fall back to the game's,
  provided the base sprite constructor does not copy `gravity` from the settings afterwards
  (the model assumes it does not).
- The slope response `v + (v - n (v . n))` keeps the component of the velocity along a unit
  normal and doubles the component across it, so it can speed the entity up
  (`Tiles.SlopeRedirectParts`, `Tiles.SlopeRedirectExample`). It is modelled as written.

## Model

| member | source | states |
|---|---|---|
| `Utils.Clamp` | src/entity/Entity.js:122-123 | the clamp used by the cap: within `[lo, hi]` when `lo <= hi`, the value itself when already inside, the nearer bound otherwise |
| `Vectors.WithAxis` | src/entity/Entity.js:200 | `velocity[axis] = 0`: the named component takes the new value and the other component is unchanged |
| `Kinematics.Fall` | src/entity/Entity.js:109-110 | the vertical velocity after gravity: unchanged on a ladder or with zero gravity, otherwise lowered by exactly `gravity * delta` (strictly lower when that product is positive); properties in `Kinematics.ComputeGravityDrop` |
| `Kinematics.Rub` | src/entity/Entity.js:118-119 | friction on one axis: the value itself when the coefficient is zero, `applyFriction(value, coefficient)` otherwise |
| `Kinematics.Cap` | src/entity/Entity.js:122-123 | the cap on one axis: zero stays zero; with a nonnegative cap the result lies in `[-m, m]`, a value inside is kept and one outside becomes the nearer bound; used by `Kinematics.ComputeWithinMax` and `Kinematics.CapIsIdempotent` |
| `Kinematics.Compute` | src/entity/Entity.js:107-126 | `computeVelocity` as a function: it never sets `jumping`, with nonzero gravity never leaves the entity both falling and jumping, with zero gravity keeps both flags, and keeps each component within a nonnegative cap; the other `Kinematics` lemmas state the rest |
| `Kinematics.ComputeWithinMax` | src/entity/Entity.js:121-123 | with a nonnegative `maxVelocity`, both components of the computed velocity lie in `[-maxVelocity, maxVelocity]` whatever the friction does |
| `Kinematics.ComputeFlags` | src/entity/Entity.js:108-115 | with nonzero gravity, `vel.y` first drops by `gravity * delta` unless on a ladder, `falling` is whether that value is positive and `jumping` becomes `jumping && !falling`; with zero gravity both flags are untouched |
| `Kinematics.ComputeGravityDrop` | src/entity/Entity.js:109-123 | off a ladder with nonzero gravity the vertical velocity is lowered by `gravity * delta`; on an axis without friction the computed component is exactly that value (or `vel.x`) capped |
| `Kinematics.LadderSuspendsGravity` | src/entity/Entity.js:109-110 | on a ladder the computed velocity is the one computed with no gravity at all |
| `Kinematics.CapIsIdempotent` | src/entity/Entity.js:121-123 | without gravity and friction, computing the velocity a second time changes neither velocity nor flags |
| `Kinematics.FreeFallFromRest` | src/entity/Entity.js:107-126 | one `computeVelocity` call on a zero vector with gravity 10 and delta 1: velocity `(0, -10)`, not falling, not jumping |
| `Kinematics.HorizontalCap` | src/entity/Entity.js:121-123 | velocity `(20, 0)` under a cap of 15 comes out as `(15, 0)` |
| `Entities.Entity.ComputeVelocity` | src/entity/Entity.js:107-126 | the returned vector and the new `falling`/`jumping` are exactly `Kinematics.Compute` of the argument, the entity's gravity, friction, cap and ladder flag |
| `Collision.Intersects` | src/entity/Entity.js:128-131 | the doubled-distance test on both axes; it can hold only when the summed sizes are positive on both axes and never at exact x-edge contact; properties in the lemmas below |
| `Collision.CheckCollision` | src/entity/Entity.js:132-157 | the penetration vector: nonzero only for intersecting boxes, then exactly half the centre delta (`b + 2p == a`), zero otherwise |
| `Entities.Entity.Intersects` | src/entity/Entity.js:128-131 | the entity's `intersects` over both hitboxes, and it equals the test with the two entities swapped |
| `Entities.Entity.CheckCollision` | src/entity/Entity.js:132-157 | the entity's `checkCollision` over both hitboxes, and it is the swapped call's vector negated |
| `Collision.IntersectsSymmetric` | src/entity/Entity.js:128-131 | `intersects(a, b) == intersects(b, a)` |
| `Collision.EdgeContactIsNotIntersection` | src/entity/Entity.js:128-131 | boxes whose doubled x distance equals the sum of their widths do not intersect |
| `Collision.IntersectsIffCommonPoint` | src/entity/Entity.js:128-131 | for boxes of positive size the doubled-distance test holds exactly when some point lies strictly inside both boxes |
| `Collision.CheckCollisionAntisymmetric` | src/entity/Entity.js:132-157 | `checkCollision(a, b)` is `checkCollision(b, a)` negated |
| `Collision.CheckCollisionZero` | src/entity/Entity.js:132-157 | the penetration vector is zero exactly when the boxes do not intersect or have the same centre |
| `Collision.PenetrationBound` | src/entity/Entity.js:137-144 | for intersecting boxes each penetration component is less than a quarter of the two sizes on that axis |
| `Collision.OverlapExample` | src/entity/Entity.js:128-157 | boxes 10 by 10 at `(5, 0)` and `(0, 0)` intersect and the first gets `(2.5, 0)` |
| `Entities.EntityCollisionSymmetric` | src/entity/Entity.js:128-157 | between two entities (hitbox position and `hitSize`), `a.intersects(b) == b.intersects(a)` and `a.checkCollision(b)` is `b.checkCollision(a)` negated |
| `Tiles.AxisAligned` | src/entity/Entity.js:191 | the guard "`!velocity.x` or `!velocity.y`": holds exactly when the product of the two components is zero |
| `Tiles.SlopeRedirect` | src/entity/Entity.js:192-195 | the written slope response equals `2v - n (v . n)`; properties in `Tiles.SlopeRedirectParts` |
| `Tiles.Visit` | src/entity/Entity.js:182-202 | one loop pass: counts the collider, sets the ladder flag exactly when it was set or the tile is a LADDER, redirects exactly for a SOLID tile with a normal met by an axis-aligned velocity, and leaves the velocity alone for non-SOLID tiles |
| `Tiles.Resolve` | src/entity/Entity.js:177-203 | the collider loop looks at every collider unless a slope ends it, and when one does, the last collider looked at is a SOLID tile with a normal |
| `Tiles.VisitFlat` | src/entity/Entity.js:186-201 | a collider that does not redirect leaves the loop running; a SOLID one zeroes only its axis and any other leaves the velocity unchanged |
| `Tiles.FlatWallExample` | src/entity/Entity.js:189-201 | moving at `(3, 2)` into a flat SOLID tile on x gives `(0, 2)` |
| `Tiles.LadderIffSeen` | src/entity/Entity.js:177-186 | after the loop `onladder` is true exactly when some collider it looked at is a LADDER tile, in any order |
| `Tiles.SolidZeroesAxis` | src/entity/Entity.js:189-201 | without a slope redirect, each velocity component ends zero if some SOLID tile was reported on its axis and unchanged otherwise |
| `Tiles.RedirectedAtLast` | src/entity/Entity.js:189-197 | after a slope redirect, the velocity just before that collider had a zero component, no earlier collider redirected, and the new velocity is the slope response to that velocity and the tile's normal |
| `Tiles.NoRedirectMeansDiagonal` | src/entity/Entity.js:189-197 | without a slope redirect, every SOLID tile with a normal was met while both velocity components were nonzero |
| `Tiles.RedirectIgnoresRest` | src/entity/Entity.js:196 | colliders after a slope redirect have no effect: appending any colliders leaves the outcome unchanged |
| `Tiles.SlopeRedirectParts` | src/entity/Entity.js:192-195 | for a unit normal, the slope response keeps the velocity's component along the normal and doubles the rest |
| `Tiles.SlopeRedirectExample` | src/entity/Entity.js:192-195 | velocity `(1, 0)` on normal `(0.6, 0.8)` becomes `(1.64, -0.48)`, whose speed exceeds 1 |
| `Entities.Entity.constructor` | src/entity/Entity.js:16-98 | defaults (zero velocity, cap 15, acceleration 250, not falling or jumping) unless the settings give velocity, cap or acceleration, friction and gravity falling back to the game's, `hitSize` defaulting to `size` when both its components are zero, the scaled sizes, and the initial positions, with the hitbox attached to the mesh (`HitboxAttached`: hitbox position = mesh position + `hitOffset`) |
| `Entities.Entity.SetPosition` | src/entity/Entity.js:270-290 | the mesh is placed at the position and the hitbox at the position plus `hitOffset`, so the hitbox is attached |
| `Entities.Entity.OnMove` | src/entity/Entity.js:260-262 | the `onMove` hook changes nothing |
| `Entities.Entity.MoveEntity` | src/entity/Entity.js:218-245 | a zero vector moves nothing; otherwise mesh and hitbox each move by exactly the vector, so their difference is kept and the hitbox stays attached |
| `Entities.Entity.ResolveColliders` | src/entity/Entity.js:177-203 | the loop resets `onladder` and leaves velocity, `onladder` and the early-exit flag exactly as `Tiles.Resolve` gives them |
| `Entities.Entity.UpdateMovement` | src/entity/Entity.js:171-217 | zero velocity changes no field; a slope redirect sets velocity and `onladder` and moves nothing; otherwise velocity and flags are `Kinematics.Compute` of the post-collision velocity and both positions advance by the new velocity; the hitbox stays attached |

## Left out

- `Entities.Entity.ComputeVelocity`: returns the updated vector, while the source updates its argument in place and returns the entity; vectors are values here, so the in-place update of a shared vector object is not captured.
- Vector aliasing: the entity's `friction` may be the very object `gf.game.friction`; the model copies values.
- `gf.utils.applyFriction` is not part of this model: it is a parameter, so no property about the friction decay itself is stated.
- `gf.utils.clamp` is not part of this model: it is assumed to be `min(max(v, lo), hi)`.
- The world tile query (`gf.game.world.checkCollision`) is a foreign call: its result is an input.
- `distanceTo`: needs a square root over floats and refers to an undeclared `entity` instead of its parameter.
- `onCollision`: calls `gf.game.removeObject` and reads the misspelt `gf.types.ENTIY` and the undefined `this.collidable`.
- `onTileBreak` and `onMove` are hooks that do nothing; `onMove` is kept as an empty method.
- The movement event published through `gf.event.publish` and the `gf.debug._playerColliders` global are side channels.
- `addToScene`, `removeFromScene`, `addToPool`, `_createMesh`, `_createHitboxMesh`: scene graph, object pool and rendering.
- `Entities.Entity.MoveEntity` and `Entities.Entity.UpdateMovement` require the hitbox to be attached (as the constructor and `setPosition` leave it); an entity whose `hitOffset` is changed from outside after placement is not covered by them.
- `Entities.Entity.constructor`: the base `gf.Sprite` constructor is not part of this model; it is assumed to copy `velocity`, `maxVelocity`, `accel`, `size`, `hitSize`, `hitOffset` and `scale` from the settings and nothing else, so any other setting it might copy (in particular `friction` or `gravity` overriding the fallbacks) is not captured.
- The base `setPosition` is not part of this model: it is assumed to place the mesh at the given position.
- `setPosition` takes a vector, an array or two numbers; the model takes one vector, to which all three reduce.
- Bookkeeping fields set by the constructor and not used by movement (`type`, `isCollidable`, `isMapCollidable`, `isVisible`, `isEntity`, `name`, `alive`).
- `onladder` is undefined before the first tick in the source; the model starts it at `false`, and every test of it in the source treats undefined as false.
- The commented-out axis normalisation in `checkCollision` is not code and is not modelled.
