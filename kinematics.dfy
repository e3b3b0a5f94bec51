/**
  * The velocity update of Entity.computeVelocity as a function of the
  * entity's physical parameters, its flags and the tick's time step.
  */
module Kinematics {
  import opened Vectors
  import opened Utils

  /** The parameters computeVelocity reads from the entity. */
  datatype Physics = Physics(gravity: real, friction: Vec, maxVelocity: Vec)

  /** What computeVelocity produces: the new vector and the two flags. */
  datatype Motion = Motion(velocity: Vec, falling: bool, jumping: bool)

  /** Vertical velocity after gravity: pulled by gravity * delta unless on a ladder. */
  function Fall(vy: real, gravity: real, delta: real, onladder: bool): (r: real)
    ensures onladder || gravity == 0.0 ==> r == vy
    ensures !onladder && gravity * delta > 0.0 ==> r < vy
    ensures r - vy == (if onladder then 0.0 else -gravity * delta)
  {
    if gravity != 0.0 && !onladder then vy - gravity * delta else vy
  }

  /** Friction on one axis, applied only when that axis's coefficient is nonzero. */
  function Rub(v: real, f: real, applyFriction: FrictionFn): (r: real)
    ensures f == 0.0 ==> r == v
    ensures f != 0.0 ==> r == applyFriction(v, f)
  {
    if f != 0.0 then applyFriction(v, f) else v
  }

  /** The velocity cap on one axis: a nonzero component is clamped to [-m, m]. */
  function Cap(v: real, m: real): (r: real)
    ensures v == 0.0 ==> r == 0.0
    ensures m >= 0.0 ==> -m <= r <= m
    ensures -m <= v <= m ==> r == v
    ensures m >= 0.0 && m < v ==> r == m
    ensures m >= 0.0 && v < -m ==> r == -m
  {
    if v != 0.0 then Clamp(v, -m, m) else v
  }

  /** computeVelocity: gravity, then the flags, then friction, then the cap. */
  function Compute(vel: Vec, p: Physics, onladder: bool, falling: bool, jumping: bool,
                   delta: real, applyFriction: FrictionFn): (m: Motion)
    ensures m.jumping ==> jumping
    ensures p.gravity != 0.0 ==> !(m.falling && m.jumping)
    ensures p.gravity == 0.0 ==> m.falling == falling && m.jumping == jumping
    ensures p.maxVelocity.x >= 0.0 ==> -p.maxVelocity.x <= m.velocity.x <= p.maxVelocity.x
    ensures p.maxVelocity.y >= 0.0 ==> -p.maxVelocity.y <= m.velocity.y <= p.maxVelocity.y
  {
    var vy := Fall(vel.y, p.gravity, delta, onladder);
    var nowFalling := if p.gravity != 0.0 then vy > 0.0 else falling;
    var nowJumping := if p.gravity != 0.0 then (if nowFalling then false else jumping) else jumping;
    var rx := Rub(vel.x, p.friction.x, applyFriction);
    var ry := Rub(vy, p.friction.y, applyFriction);
    Motion(Vec(Cap(rx, p.maxVelocity.x), Cap(ry, p.maxVelocity.y)), nowFalling, nowJumping)
  }

  /** With a nonnegative cap, every component of the result lies within it. */
  lemma ComputeWithinMax(vel: Vec, p: Physics, onladder: bool, falling: bool, jumping: bool,
                         delta: real, applyFriction: FrictionFn)
    requires p.maxVelocity.x >= 0.0 && p.maxVelocity.y >= 0.0
    ensures var m := Compute(vel, p, onladder, falling, jumping, delta, applyFriction);
            -p.maxVelocity.x <= m.velocity.x <= p.maxVelocity.x &&
            -p.maxVelocity.y <= m.velocity.y <= p.maxVelocity.y
  {
  }

  /**
    * Gravity and the flags: with nonzero gravity and off a ladder the vertical
    * velocity drops by gravity * delta before friction and cap; falling is
    * whether that vertical velocity is positive, and falling clears jumping.
    * With zero gravity both flags are left as they were.
    */
  lemma ComputeFlags(vel: Vec, p: Physics, onladder: bool, falling: bool, jumping: bool,
                     delta: real, applyFriction: FrictionFn)
    ensures var m := Compute(vel, p, onladder, falling, jumping, delta, applyFriction);
            var vy := if p.gravity != 0.0 && !onladder then vel.y - p.gravity * delta else vel.y;
            (p.gravity != 0.0 ==> m.falling == (vy > 0.0) && m.jumping == (jumping && !m.falling)) &&
            (p.gravity == 0.0 ==> m.falling == falling && m.jumping == jumping)
  {
    var vy := Fall(vel.y, p.gravity, delta, onladder);
    assert vy == if p.gravity != 0.0 && !onladder then vel.y - p.gravity * delta else vel.y;
  }

  /**
    * Gravity on the velocity: off a ladder and with nonzero gravity the
    * vertical component is lowered by gravity * delta before it is capped;
    * on an axis without friction the component comes out as that value capped.
    */
  lemma ComputeGravityDrop(vel: Vec, p: Physics, onladder: bool, falling: bool, jumping: bool,
                           delta: real, applyFriction: FrictionFn)
    ensures var m := Compute(vel, p, onladder, falling, jumping, delta, applyFriction);
            var vy := if p.gravity != 0.0 && !onladder then vel.y - p.gravity * delta else vel.y;
            (p.friction.y == 0.0 ==> m.velocity.y == Cap(vy, p.maxVelocity.y)) &&
            (p.friction.x == 0.0 ==> m.velocity.x == Cap(vel.x, p.maxVelocity.x))
  {
  }

  /** On a ladder the velocity comes out as if there were no gravity at all. */
  lemma LadderSuspendsGravity(vel: Vec, p: Physics, falling: bool, jumping: bool,
                              delta: real, applyFriction: FrictionFn)
    ensures Compute(vel, p, true, falling, jumping, delta, applyFriction).velocity ==
            Compute(vel, p.(gravity := 0.0), false, falling, jumping, delta, applyFriction).velocity
  {
  }

  /**
    * Without gravity and friction, computeVelocity only caps, so applying it
    * to its own result changes nothing more.
    */
  lemma CapIsIdempotent(vel: Vec, p: Physics, onladder: bool, falling: bool, jumping: bool,
                        delta: real, applyFriction: FrictionFn)
    requires p.gravity == 0.0 && p.friction == Zero
    requires p.maxVelocity.x >= 0.0 && p.maxVelocity.y >= 0.0
    ensures var m := Compute(vel, p, onladder, falling, jumping, delta, applyFriction);
            Compute(m.velocity, p, onladder, m.falling, m.jumping, delta, applyFriction) == m
  {
  }

  /**
    * One computeVelocity call on a zero vector with gravity 10 and delta 1
    * gives (0, -10), and the entity is not falling (falling means vel.y > 0).
    */
  lemma FreeFallFromRest(applyFriction: FrictionFn)
    ensures Compute(Zero, Physics(10.0, Zero, Vec(15.0, 15.0)), false, false, false, 1.0, applyFriction)
            == Motion(Vec(0.0, -10.0), false, false)
  {
  }

  /** A horizontal velocity of 20 with a cap of 15 comes out as 15. */
  lemma HorizontalCap(applyFriction: FrictionFn)
    ensures Compute(Vec(20.0, 0.0), Physics(0.0, Zero, Vec(15.0, 15.0)), false, false, false, 1.0, applyFriction).velocity
            == Vec(15.0, 0.0)
  {
  }
}
