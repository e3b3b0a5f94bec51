/** Two-dimensional vectors (gf.Vector) as values over the reals. */
module Vectors {

  datatype Vec = Vec(x: real, y: real)

  /** The two axes a tile collision can be reported on ('x' or 'y' in the source). */
  datatype Axis = X | Y

  const Zero: Vec := Vec(0.0, 0.0)

  function Abs(r: real): (a: real) {
    if r < 0.0 then -r else r
  }

  function Add(a: Vec, b: Vec): (c: Vec) {
    Vec(a.x + b.x, a.y + b.y)
  }

  function Sub(a: Vec, b: Vec): (c: Vec) {
    Vec(a.x - b.x, a.y - b.y)
  }

  function Scale(v: Vec, k: real): (w: Vec) {
    Vec(v.x * k, v.y * k)
  }

  function Dot(a: Vec, b: Vec): (d: real) {
    a.x * b.x + a.y * b.y
  }

  /** The component of `v` on axis `a` (`v[axis]`). */
  function Get(v: Vec, a: Axis): (r: real) {
    match a
    case X => v.x
    case Y => v.y
  }

  /** `v` with its component on axis `a` replaced by `r` (`v[axis] = r`). */
  function WithAxis(v: Vec, a: Axis, r: real): (w: Vec)
    ensures Get(w, a) == r
    ensures forall b :: b != a ==> Get(w, b) == Get(v, b)
  {
    match a
    case X => Vec(r, v.y)
    case Y => Vec(v.x, r)
  }
}
