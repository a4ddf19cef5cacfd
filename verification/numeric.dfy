/**
 Scalar and vector vocabulary shared by the paddle model.

 The game computes with `f32`; this model uses `real` throughout, so rounding
 and NaN are not represented. Integer fields that the game declares as `i32`
 keep their width through the `i32` newtype.
 */
module Numeric {

  /** A signed 32-bit integer, the type of `paddle_number` and of the scores. */
  newtype i32 = x: int | -0x8000_0000 <= x < 0x8000_0000

  /** A translation in the 2D scene; `z` only orders sprites when drawing. */
  datatype Vec3 = Vec3(x: real, y: real, z: real)

  /** The smaller of two numbers, as `f32::min` computes it on non-NaN inputs. */
  function Min(a: real, b: real): (r: real)
    ensures r <= a && r <= b
    ensures r == a || r == b
  {
    if a <= b then a else b
  }

  /** The larger of two numbers, as `f32::max` computes it on non-NaN inputs. */
  function Max(a: real, b: real): (r: real)
    ensures r >= a && r >= b
    ensures r == a || r == b
  {
    if a >= b then a else b
  }

  /** Distance between two points on a line. */
  function Dist(a: real, b: real): (r: real)
    ensures r >= 0.0
    ensures r == 0.0 <==> a == b
  {
    if a >= b then a - b else b - a
  }

  /**
   `c` is a point of the closed interval [lo, hi] that is at least as close to
   `t` as every other point of the interval: the reference meaning of clamping
   `t` into [lo, hi].
   */
  ghost predicate NearestIn(c: real, t: real, lo: real, hi: real) {
    && lo <= c <= hi
    && forall v :: lo <= v <= hi ==> Dist(c, t) <= Dist(v, t)
  }
}
