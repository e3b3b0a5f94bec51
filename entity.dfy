/**
  * gf.Entity: the per-entity state that movement changes in place, and the
  * operations that change it each tick.
  */
module Entities {
  import opened Wrappers
  import opened Vectors
  import opened Utils
  import opened Kinematics
  import opened Collision
  import opened Tiles

  /** The process-wide defaults (gf.game.friction, gf.game.gravity). */
  datatype GameDefaults = GameDefaults(friction: Vec, gravity: real)

  /**
    * Construction settings. `friction` and `gravity` are read by the entity's
    * own constructor; the other entries are what the base sprite constructor
    * copies onto the entity after the defaults are set (a missing entry keeps
    * the entity's own default; `size` always comes from the sprite).
    */
  datatype Settings = Settings(friction: Option<Vec>, gravity: Option<real>,
                               velocity: Option<Vec>, maxVelocity: Option<Vec>, accel: Option<Vec>,
                               size: Vec, hitSize: Option<Vec>, hitOffset: Option<Vec>,
                               scale: Option<real>)

  /** What updateMovement returns: nothing, `false` after a slope, or the colliders. */
  datatype Outcome = Stationary | Redirected | Moved(colliders: seq<Collider>)

  class Entity {
    var velocity: Vec
    var maxVelocity: Vec
    var accel: Vec
    var friction: Vec
    var gravity: real
    var falling: bool
    var jumping: bool
    var onladder: bool
    var size: Vec
    var hitSize: Vec
    var hitOffset: Vec
    var scale: real
    var scaledSize: Vec
    var scaledHitSize: Vec
    var scaledHitOffset: Vec
    /** Position of the visual mesh. */
    var meshPosition: Vec
    /** Position of the hitbox mesh: the hitbox centre. */
    var hitboxPosition: Vec

    function PhysicsParams(): (p: Physics)
      reads this`gravity, this`friction, this`maxVelocity
    {
      Kinematics.Physics(gravity, friction, maxVelocity)
    }

    /** The box that intersects and checkCollision compare: hitbox centre and unscaled hitSize. */
    function HitBox(): (b: Box)
      reads this
    {
      Box(hitboxPosition, hitSize)
    }

    /** The hitbox sits at the mesh position shifted by hitOffset. */
    predicate HitboxAttached()
      reads this
    {
      hitboxPosition == Add(meshPosition, hitOffset)
    }

    /** Entity.intersects: strict overlap of the two hitboxes. */
    predicate Intersects(other: Entity)
      reads this, other
      ensures Intersects(other) == Collision.Intersects(other.HitBox(), HitBox())
    {
      IntersectsSymmetric(HitBox(), other.HitBox());
      Collision.Intersects(HitBox(), other.HitBox())
    }

    /** Entity.checkCollision: the penetration vector of this entity against `other`. */
    function CheckCollision(other: Entity): (p: Vec)
      reads this, other
      ensures p == Scale(Collision.CheckCollision(other.HitBox(), HitBox()), -1.0)
    {
      CheckCollisionAntisymmetric(HitBox(), other.HitBox());
      Collision.CheckCollision(HitBox(), other.HitBox())
    }

    constructor (pos: Vec, settings: Settings, game: GameDefaults)
      ensures velocity == (if settings.velocity.Some? then settings.velocity.value else Zero)
      ensures maxVelocity == (if settings.maxVelocity.Some? then settings.maxVelocity.value else Vec(15.0, 15.0))
      ensures accel == (if settings.accel.Some? then settings.accel.value else Vec(250.0, 250.0))
      ensures friction == (if settings.friction.Some? then settings.friction.value else game.friction)
      ensures gravity == (if settings.gravity.Some? && settings.gravity.value != 0.0
                          then settings.gravity.value else game.gravity)
      ensures !falling && !jumping && !onladder
      ensures size == settings.size
      ensures var given := if settings.hitSize.Some? then settings.hitSize.value else Zero;
              hitSize == if given == Zero then settings.size else given
      ensures hitOffset == (if settings.hitOffset.Some? then settings.hitOffset.value else Zero)
      ensures scale == (if settings.scale.Some? then settings.scale.value else 1.0)
      ensures scaledSize == Scale(size, scale) && scaledHitSize == Scale(hitSize, scale)
      ensures scaledHitOffset == Scale(hitOffset, scale)
      ensures meshPosition == pos && hitboxPosition == Add(pos, hitOffset)
      ensures HitboxAttached()
    {
      friction := if settings.friction.Some? then settings.friction.value else game.friction;
      gravity := if settings.gravity.Some? && settings.gravity.value != 0.0
                 then settings.gravity.value else game.gravity;
      falling := false;
      jumping := false;
      onladder := false;
      // the entity's defaults, overridden by what the base sprite constructor copies from the settings
      velocity := if settings.velocity.Some? then settings.velocity.value else Zero;
      maxVelocity := if settings.maxVelocity.Some? then settings.maxVelocity.value else Vec(15.0, 15.0);
      accel := if settings.accel.Some? then settings.accel.value else Vec(250.0, 250.0);
      var givenHitSize := if settings.hitSize.Some? then settings.hitSize.value else Zero;
      var offset := if settings.hitOffset.Some? then settings.hitOffset.value else Zero;
      var factor := if settings.scale.Some? then settings.scale.value else 1.0;
      // the hitbox takes the sprite's size when no hitbox size was given
      var box := if givenHitSize.x == 0.0 && givenHitSize.y == 0.0 then settings.size else givenHitSize;
      size, hitSize, hitOffset, scale := settings.size, box, offset, factor;
      scaledSize := Scale(settings.size, factor);
      scaledHitSize := Scale(box, factor);
      scaledHitOffset := Scale(offset, factor);
      meshPosition, hitboxPosition := Zero, Zero;
      new;
      SetPosition(pos);
    }

    /** Places the mesh at `pos` and the hitbox at `pos` shifted by the unscaled hitOffset. */
    method SetPosition(pos: Vec)
      modifies this`meshPosition, this`hitboxPosition
      ensures meshPosition == pos && hitboxPosition == Add(pos, hitOffset)
      ensures HitboxAttached()
    {
      meshPosition := pos;
      hitboxPosition := pos;
      hitboxPosition := Add(hitboxPosition, hitOffset);
    }

    /**
      * Applies gravity, friction and the cap to `vel` and updates the flags;
      * returns the updated vector.
      */
    method ComputeVelocity(vel: Vec, delta: real, applyFriction: FrictionFn) returns (r: Vec)
      modifies this`falling, this`jumping
      ensures Motion(r, falling, jumping) ==
              Compute(vel, PhysicsParams(), onladder, old(falling), old(jumping), delta, applyFriction)
    {
      r := vel;
      if gravity != 0.0 {
        r := r.(y := r.y - if !onladder then gravity * delta else 0.0);
        assert r.y == Fall(vel.y, gravity, delta, onladder);
        falling := r.y > 0.0;
        jumping := if falling then false else jumping;
      }
      if friction.x != 0.0 {
        r := r.(x := applyFriction(r.x, friction.x));
      }
      if friction.y != 0.0 {
        r := r.(y := applyFriction(r.y, friction.y));
      }
      if r.x != 0.0 {
        r := r.(x := Clamp(r.x, -maxVelocity.x, maxVelocity.x));
      }
      if r.y != 0.0 {
        r := r.(y := Clamp(r.y, -maxVelocity.y, maxVelocity.y));
      }
    }

    /** The onMove hook: does nothing by default. */
    method OnMove(vel: Vec)
      ensures unchanged(this)
    {
    }

    /**
      * Moves mesh and hitbox by `vel`, or by the entity's velocity when none
      * is given; does nothing for a zero vector.
      */
    method MoveEntity(vel: Option<Vec>) returns (moved: bool)
      requires HitboxAttached()
      modifies this`meshPosition, this`hitboxPosition
      ensures HitboxAttached()
      ensures var v := if vel.Some? then vel.value else velocity;
              moved == (v != Zero) &&
              meshPosition == (if moved then Add(old(meshPosition), v) else old(meshPosition)) &&
              hitboxPosition == (if moved then Add(old(hitboxPosition), v) else old(hitboxPosition))
      ensures Sub(hitboxPosition, meshPosition) == old(Sub(hitboxPosition, meshPosition))
    {
      var v := if vel.Some? then vel.value else velocity;
      if v.x == 0.0 && v.y == 0.0 {
        return false;
      }
      meshPosition := Add(meshPosition, v);
      hitboxPosition := Add(hitboxPosition, v);
      OnMove(v);
      moved := true;
    }

    /**
      * The collider loop: resets the ladder flag, then lets each collider in
      * turn set it or change the velocity, stopping at the first slope redirect.
      */
    method ResolveColliders(colliders: seq<Collider>) returns (redirected: bool)
      modifies this`velocity, this`onladder
      ensures var s := Resolve(old(velocity), colliders);
              velocity == s.velocity && onladder == s.onladder && redirected == s.redirected
    {
      ghost var start := velocity;
      onladder := false;
      var i := 0;
      while i < |colliders|
        invariant 0 <= i <= |colliders|
        invariant Resolve(start, colliders[..i]) == Scan(velocity, onladder, false, i)
      {
        var c := colliders[i];
        assert colliders[..i + 1][..i] == colliders[..i];
        onladder := if c.tile == Ladder then true else onladder;
        if c.tile == Solid {
          if c.normal.Some? && (velocity.x == 0.0 || velocity.y == 0.0) {
            var n := c.normal.value;
            var badMovement := Scale(n, Dot(velocity, n));
            var newMovement := Sub(velocity, badMovement);
            velocity := Add(velocity, newMovement);
            RedirectIgnoresRest(start, colliders[..i + 1], colliders[i + 1..]);
            assert colliders[..i + 1] + colliders[i + 1..] == colliders;
            return true;
          } else {
            velocity := WithAxis(velocity, c.axis, 0.0);
          }
        }
        i := i + 1;
      }
      assert colliders[..i] == colliders;
      redirected := false;
    }

    /**
      * One tick of movement against the colliders the world reports for the
      * entity's current hitbox and velocity (empty when there is no world).
      */
    method UpdateMovement(colliders: seq<Collider>, delta: real, applyFriction: FrictionFn)
      returns (outcome: Outcome)
      requires HitboxAttached()
      modifies this`velocity, this`onladder, this`falling, this`jumping,
               this`meshPosition, this`hitboxPosition
      ensures HitboxAttached()
      ensures old(velocity) == Zero ==>
                outcome == Stationary && velocity == old(velocity) && onladder == old(onladder) &&
                falling == old(falling) && jumping == old(jumping) &&
                meshPosition == old(meshPosition) && hitboxPosition == old(hitboxPosition)
      ensures old(velocity) != Zero && Resolve(old(velocity), colliders).redirected ==>
                var s := Resolve(old(velocity), colliders);
                outcome == Redirected && velocity == s.velocity && onladder == s.onladder &&
                falling == old(falling) && jumping == old(jumping) &&
                meshPosition == old(meshPosition) && hitboxPosition == old(hitboxPosition)
      ensures old(velocity) != Zero && !Resolve(old(velocity), colliders).redirected ==>
                var s := Resolve(old(velocity), colliders);
                var m := Compute(s.velocity, PhysicsParams(), s.onladder, old(falling), old(jumping),
                                 delta, applyFriction);
                outcome == Moved(colliders) && onladder == s.onladder &&
                velocity == m.velocity && falling == m.falling && jumping == m.jumping &&
                meshPosition == Add(old(meshPosition), m.velocity) &&
                hitboxPosition == Add(old(hitboxPosition), m.velocity)
    {
      if velocity.x == 0.0 && velocity.y == 0.0 {
        return Stationary;
      }
      var redirected := ResolveColliders(colliders);
      if redirected {
        return Redirected;
      }
      velocity := ComputeVelocity(velocity, delta, applyFriction);
      var _ := MoveEntity(None);
      outcome := Moved(colliders);
    }
  }

  /** Between two entities, overlap is symmetric and the penetration vectors are opposite. */
  lemma EntityCollisionSymmetric(a: Entity, b: Entity)
    ensures a.Intersects(b) == b.Intersects(a)
    ensures a.CheckCollision(b) == Scale(b.CheckCollision(a), -1.0)
  {
    IntersectsSymmetric(a.HitBox(), b.HitBox());
    CheckCollisionAntisymmetric(a.HitBox(), b.HitBox());
  }
}
