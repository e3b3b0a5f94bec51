/**
  * The collider loop of Entity.updateMovement: how the tiles that the world
  * reports along the entity's path change its velocity and its ladder flag.
  */
module Tiles {
  import opened Wrappers
  import opened Vectors

  /** gf.types.COLLISION: only SOLID and LADDER tiles have an effect here. */
  datatype TileType = Solid | Ladder | Other(kind: int)

  /** One entry of the world's answer: the tile, its slope normal if any, and the axis hit. */
  datatype Collider = Collider(tile: TileType, normal: Option<Vec>, axis: Axis)

  /**
    * The loop's state after some colliders: the velocity, the ladder flag,
    * whether a slope ended the loop early, and how many colliders were looked at.
    */
  datatype Scan = Scan(velocity: Vec, onladder: bool, redirected: bool, processed: nat)

  /** The guard `!velocity.x || !velocity.y`: at least one component is zero. */
  predicate AxisAligned(v: Vec)
    ensures AxisAligned(v) <==> v.x * v.y == 0.0
  {
    v.x == 0.0 || v.y == 0.0
  }

  /**
    * The slope response as written: the part of `v` along `n` is removed
    * from a copy of `v`, and that copy is added back onto `v`.
    */
  function SlopeRedirect(v: Vec, n: Vec): (r: Vec)
    ensures r == Sub(Scale(v, 2.0), Scale(n, Dot(v, n)))
  {
    Add(v, Sub(v, Scale(n, Dot(v, n))))
  }

  /** One pass of the loop body over collider `c`. */
  function Visit(s: Scan, c: Collider): (t: Scan)
    ensures t.processed == s.processed + 1
    ensures t.onladder == (s.onladder || c.tile == Ladder)
    ensures t.redirected <==> c.tile == Solid && c.normal.Some? && AxisAligned(s.velocity)
    ensures c.tile != Solid ==> t.velocity == s.velocity
  {
    var onladder := if c.tile == Ladder then true else s.onladder;
    if c.tile == Solid && c.normal.Some? && AxisAligned(s.velocity) then
      Scan(SlopeRedirect(s.velocity, c.normal.value), onladder, true, s.processed + 1)
    else if c.tile == Solid then
      Scan(WithAxis(s.velocity, c.axis, 0.0), onladder, false, s.processed + 1)
    else
      Scan(s.velocity, onladder, false, s.processed + 1)
  }

  /**
    * The whole loop from velocity `v` with the ladder flag reset: colliders
    * in order, stopping after the first slope redirect.
    */
  function Resolve(v: Vec, cs: seq<Collider>): (s: Scan)
    ensures s.processed <= |cs|
    ensures !s.redirected ==> s.processed == |cs|
    ensures s.redirected ==>
              0 < s.processed && cs[s.processed - 1].tile == Solid && cs[s.processed - 1].normal.Some?
    decreases |cs|
  {
    if cs == [] then
      Scan(v, false, false, 0)
    else
      var before := Resolve(v, cs[..|cs| - 1]);
      if before.redirected then before else Visit(before, cs[|cs| - 1])
  }

  /** A flat SOLID tile zeroes the velocity on its axis only; other tiles leave velocity alone. */
  lemma VisitFlat(s: Scan, c: Collider)
    requires !(c.tile == Solid && c.normal.Some? && AxisAligned(s.velocity))
    ensures !Visit(s, c).redirected
    ensures forall a :: Get(Visit(s, c).velocity, a) ==
                        if c.tile == Solid && a == c.axis then 0.0 else Get(s.velocity, a)
  {
  }

  /** Moving at (3, 2) into a flat SOLID tile reported on x stops the x component only. */
  lemma FlatWallExample()
    ensures Resolve(Vec(3.0, 2.0), [Collider(Solid, None, X)]) == Scan(Vec(0.0, 2.0), false, false, 1)
  {
  }

  /** The ladder flag ends true exactly when some collider looked at is a LADDER tile. */
  lemma {:induction false} LadderIffSeen(v: Vec, cs: seq<Collider>)
    ensures Resolve(v, cs).onladder <==>
            exists i :: 0 <= i < Resolve(v, cs).processed && cs[i].tile == Ladder
  {
    if cs != [] {
      var init := cs[..|cs| - 1];
      LadderIffSeen(v, init);
      var before := Resolve(v, init);
      assert forall i :: 0 <= i < |init| ==> init[i] == cs[i];
    }
  }

  /**
    * When no slope ends the loop, each velocity component is zero if some
    * SOLID tile was reported on its axis, and as it was otherwise.
    */
  lemma {:induction false} SolidZeroesAxis(v: Vec, cs: seq<Collider>, a: Axis)
    requires !Resolve(v, cs).redirected
    ensures Get(Resolve(v, cs).velocity, a) ==
            if exists i :: 0 <= i < |cs| && cs[i].tile == Solid && cs[i].axis == a then 0.0 else Get(v, a)
  {
    if cs != [] {
      var init := cs[..|cs| - 1];
      SolidZeroesAxis(v, init, a);
      assert forall i :: 0 <= i < |init| ==> init[i] == cs[i];
    }
  }

  /**
    * When a slope ends the loop, it is the collider looked at last: the
    * velocity before it had a zero component and is redirected along its normal.
    */
  lemma {:induction false} RedirectedAtLast(v: Vec, cs: seq<Collider>)
    requires Resolve(v, cs).redirected
    ensures var k := Resolve(v, cs).processed - 1;
            var before := Resolve(v, cs[..k]);
            !before.redirected && AxisAligned(before.velocity) &&
            cs[k].tile == Solid && cs[k].normal.Some? &&
            Resolve(v, cs).velocity == SlopeRedirect(before.velocity, cs[k].normal.value) &&
            Resolve(v, cs).onladder == before.onladder
  {
    var init := cs[..|cs| - 1];
    if Resolve(v, init).redirected {
      RedirectedAtLast(v, init);
      var k := Resolve(v, init).processed - 1;
      assert init[..k] == cs[..k];
    } else {
      assert cs[..|cs| - 1] == init;
    }
  }

  /**
    * When no slope ends the loop, every SOLID tile with a normal was met
    * while both velocity components were nonzero.
    */
  lemma {:induction false} NoRedirectMeansDiagonal(v: Vec, cs: seq<Collider>)
    requires !Resolve(v, cs).redirected
    ensures forall i :: 0 <= i < |cs| && cs[i].tile == Solid && cs[i].normal.Some? ==>
                          !AxisAligned(Resolve(v, cs[..i]).velocity)
  {
    if cs != [] {
      var init := cs[..|cs| - 1];
      NoRedirectMeansDiagonal(v, init);
      forall i | 0 <= i < |cs| && cs[i].tile == Solid && cs[i].normal.Some?
        ensures !AxisAligned(Resolve(v, cs[..i]).velocity)
      {
        if i < |init| {
          assert cs[..i] == init[..i];
        } else {
          assert cs[..i] == init;
        }
      }
    }
  }

  /** Colliders after a slope redirect are never looked at. */
  lemma {:induction false} RedirectIgnoresRest(v: Vec, cs: seq<Collider>, rest: seq<Collider>)
    requires Resolve(v, cs).redirected
    ensures Resolve(v, cs + rest) == Resolve(v, cs)
  {
    if rest != [] {
      RedirectIgnoresRest(v, cs, rest[..|rest| - 1]);
      assert (cs + rest)[..|cs + rest| - 1] == cs + rest[..|rest| - 1];
    } else {
      assert cs + rest == cs;
    }
  }

  /**
    * The redirect as written keeps the component along a unit normal and
    * doubles the component across it.
    */
  lemma SlopeRedirectParts(v: Vec, n: Vec)
    requires Dot(n, n) == 1.0
    ensures Dot(SlopeRedirect(v, n), n) == Dot(v, n)
    ensures var r := SlopeRedirect(v, n);
            Sub(r, Scale(n, Dot(r, n))) == Scale(Sub(v, Scale(n, Dot(v, n))), 2.0)
  {
  }

  /**
    * An entity moving at (1, 0) onto a slope with normal (0.6, 0.8) leaves it
    * at (1.64, -0.48): faster than it came.
    */
  lemma SlopeRedirectExample()
    ensures SlopeRedirect(Vec(1.0, 0.0), Vec(0.6, 0.8)) == Vec(1.64, -0.48)
    ensures Dot(SlopeRedirect(Vec(1.0, 0.0), Vec(0.6, 0.8)), SlopeRedirect(Vec(1.0, 0.0), Vec(0.6, 0.8))) > 1.0
  {
  }
}
