/** The numeric helpers of gf.utils that the entity uses. */
module Utils {

  /**
    * gf.utils.clamp, whose body is not part of this model, taken to be
    * min(max(v, lo), hi).
    */
  function Clamp(v: real, lo: real, hi: real): (r: real)
    ensures lo <= hi ==> lo <= r <= hi
    ensures lo <= v <= hi ==> r == v
    ensures lo <= hi && v < lo ==> r == lo
    ensures hi < v ==> r == hi
  {
    var atLeast := if v < lo then lo else v;
    if atLeast < hi then atLeast else hi
  }

  /**
    * gf.utils.applyFriction(value, friction), whose body is not part of this
    * model: any function of the two numbers.
    */
  type FrictionFn = (real, real) -> real
}
