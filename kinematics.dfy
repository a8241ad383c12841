/** Shared value types for the moving things of the simulator: particles (balls) and explorers.
    Java `double` coordinates and velocities are modelled as `real`. */
module Kinematics {

  /** Position and velocity of a point mass. */
  datatype Motion = Motion(x: real, y: real, vx: real, vy: real)

  function Max(a: real, b: real): real { if a >= b then a else b }

  function Min(a: real, b: real): real { if a <= b then a else b }

  function Abs(a: real): real { if a >= 0.0 then a else -a }

  /** Java's `(int)` cast of a finite double: truncation toward zero. */
  function Trunc(r: real): (n: int)
    ensures Abs(r - n as real) < 1.0
    ensures Abs(n as real) <= Abs(r)
  {
    if r >= 0.0 then r.Floor else -((-r).Floor)
  }

  /** The object at index `i` of `s` occurs nowhere else in `s`. */
  predicate Once<T(==)>(s: seq<T>, i: int)
    requires 0 <= i < |s|
  {
    forall j :: 0 <= j < |s| && j != i ==> s[j] != s[i]
  }
}
