/**
 * The host's transcendental functions and random source. They are
 * floating-point library calls whose exact values the model does not
 * reason about, so every kernel that uses one receives it as a value of
 * this datatype.
 */
module HostMath {

  /** The double that JavaScript computes for `2 * Math.PI`. */
  const TwoPi: real := 6.28318530717958623199592693708837032318115234375

  /** Math.PI */
  const Pi: real := TwoPi / 2.0

  datatype Math = Math(
    cos: real -> real,
    sin: real -> real,
    hypot: (real, real) -> real,
    atan2: (real, real) -> real,
    exp: real -> real
  )
}
