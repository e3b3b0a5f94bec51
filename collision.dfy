/**
  * Entity-versus-entity overlap (Entity.intersects) and the penetration
  * estimate (Entity.checkCollision), over the hitbox centre and the
  * unscaled hitSize of each entity.
  */
module Collision {
  import opened Vectors

  /** A hitbox: its centre (the hitbox mesh position) and its size (hitSize). */
  datatype Box = Box(position: Vec, size: Vec)

  /** Strict overlap on both axes, in the doubled-distance form. */
  predicate Intersects(a: Box, b: Box)
    ensures Intersects(a, b) ==> a.size.x + b.size.x > 0.0 && a.size.y + b.size.y > 0.0
    ensures Intersects(a, b) ==> Abs(a.position.x - b.position.x) * 2.0 != a.size.x + b.size.x
  {
    Abs(a.position.x - b.position.x) * 2.0 < a.size.x + b.size.x &&
    Abs(a.position.y - b.position.y) * 2.0 < a.size.y + b.size.y
  }

  /** Half the centre delta from `b` to `a` when they overlap, the zero vector otherwise. */
  function CheckCollision(a: Box, b: Box): (p: Vec)
    ensures p != Zero ==> Intersects(a, b)
    ensures Intersects(a, b) ==> Add(b.position, Scale(p, 2.0)) == a.position
    ensures !Intersects(a, b) ==> p == Zero
  {
    if Intersects(a, b) then
      Vec((a.position.x - b.position.x) / 2.0, (a.position.y - b.position.y) / 2.0)
    else
      Zero
  }

  /** The point `p` lies strictly inside box `b`. */
  predicate Inside(p: Vec, b: Box) {
    Abs(p.x - b.position.x) * 2.0 < b.size.x &&
    Abs(p.y - b.position.y) * 2.0 < b.size.y
  }

  lemma IntersectsSymmetric(a: Box, b: Box)
    ensures Intersects(a, b) == Intersects(b, a)
  {
  }

  /** Boxes that only touch along an edge do not intersect. */
  lemma EdgeContactIsNotIntersection(a: Box, b: Box)
    requires Abs(a.position.x - b.position.x) * 2.0 == a.size.x + b.size.x
    ensures !Intersects(a, b)
  {
  }

  /** Each entity's penetration vector is the other's, negated. */
  lemma CheckCollisionAntisymmetric(a: Box, b: Box)
    ensures CheckCollision(a, b) == Scale(CheckCollision(b, a), -1.0)
  {
  }

  /** The penetration vector is zero exactly when the boxes do not intersect or share a centre. */
  lemma CheckCollisionZero(a: Box, b: Box)
    ensures CheckCollision(a, b) == Zero <==> !Intersects(a, b) || a.position == b.position
  {
  }

  /** Two boxes at (0, 0) and (5, 0), both 10 by 10: the one at (5, 0) is pushed by (2.5, 0). */
  lemma OverlapExample()
    ensures Intersects(Box(Vec(5.0, 0.0), Vec(10.0, 10.0)), Box(Zero, Vec(10.0, 10.0)))
    ensures CheckCollision(Box(Vec(5.0, 0.0), Vec(10.0, 10.0)), Box(Zero, Vec(10.0, 10.0))) == Vec(2.5, 0.0)
  {
  }

  /** On one axis: open intervals of positive widths around `ca` and `cb` that overlap share a point. */
  lemma CommonCoordinate(ca: real, sa: real, cb: real, sb: real) returns (t: real)
    requires sa > 0.0 && sb > 0.0
    requires Abs(ca - cb) * 2.0 < sa + sb
    ensures Abs(t - ca) * 2.0 < sa && Abs(t - cb) * 2.0 < sb
  {
    var lo := if ca - sa / 2.0 < cb - sb / 2.0 then cb - sb / 2.0 else ca - sa / 2.0;
    var hi := if ca + sa / 2.0 < cb + sb / 2.0 then ca + sa / 2.0 else cb + sb / 2.0;
    t := (lo + hi) / 2.0;
  }

  /**
    * The doubled-distance test is the geometric one: boxes of positive size
    * intersect exactly when some point lies strictly inside both.
    */
  lemma {:induction false} IntersectsIffCommonPoint(a: Box, b: Box)
    requires a.size.x > 0.0 && a.size.y > 0.0 && b.size.x > 0.0 && b.size.y > 0.0
    ensures Intersects(a, b) <==> exists p :: Inside(p, a) && Inside(p, b)
  {
    if Intersects(a, b) {
      var tx := CommonCoordinate(a.position.x, a.size.x, b.position.x, b.size.x);
      var ty := CommonCoordinate(a.position.y, a.size.y, b.position.y, b.size.y);
      assert Inside(Vec(tx, ty), a) && Inside(Vec(tx, ty), b);
    }
  }

  /** Overlapping boxes are pushed apart by less than a quarter of their combined size per axis. */
  lemma PenetrationBound(a: Box, b: Box)
    ensures Intersects(a, b) ==>
              Abs(CheckCollision(a, b).x) * 4.0 < a.size.x + b.size.x &&
              Abs(CheckCollision(a, b).y) * 4.0 < a.size.y + b.size.y
  {
  }
}
