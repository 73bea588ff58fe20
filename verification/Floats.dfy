/** Numbers as the Copper loop sees them.

    A finite `f64` is a real; the three non-finite values are separate
    constructors, because the code tests for them. Rounding is not modelled. */
module Floats {

  datatype F64 = Finite(v: real) | NaN | PosInf | NegInf

  /** `f64::EPSILON`, two to the power of minus 52. */
  const EPSILON: real := 1.0 / 4503599627370496.0

  datatype Option<+T> = None | Some(value: T)

  function Abs(x: real): real {
    if x < 0.0 then -x else x
  }

  function Max(x: real, y: real): real {
    if x < y then y else x
  }

  /** `f64::clamp`, which panics unless `lo <= hi`. */
  function Clamp(x: real, lo: real, hi: real): real
    requires lo <= hi
  {
    if x < lo then lo else if x > hi then hi else x
  }

  /** `y` lies between `x` and `z`, in either order. */
  predicate Between(x: real, y: real, z: real) {
    x <= y <= z || z <= y <= x
  }

  /** `a - b` in IEEE arithmetic; only the difference of two finite values is finite. */
  function Minus(a: F64, b: F64): F64 {
    match (a, b)
    case (Finite(x), Finite(y)) => Finite(x - y)
    case (NaN, _) => NaN
    case (_, NaN) => NaN
    case (PosInf, PosInf) => NaN
    case (NegInf, NegInf) => NaN
    case (PosInf, _) => PosInf
    case (NegInf, _) => NegInf
    case (_, PosInf) => NegInf
    case (_, NegInf) => PosInf
  }

  function AbsF(a: F64): F64 {
    match a
    case Finite(x) => Finite(Abs(x))
    case NaN => NaN
    case _ => PosInf
  }

  /** `a > r`: false for NaN. */
  predicate Above(a: F64, r: real) {
    a.PosInf? || (a.Finite? && a.v > r)
  }

  /** `a <= r`: false for NaN. */
  predicate AtMost(a: F64, r: real) {
    a.NegInf? || (a.Finite? && a.v <= r)
  }

  /** `a >= r`: false for NaN. */
  predicate AtLeast(a: F64, r: real) {
    a.PosInf? || (a.Finite? && a.v >= r)
  }

  /** `a.max(b)`, which ignores a NaN operand. */
  function MaxF(a: F64, b: F64): F64 {
    match (a, b)
    case (NaN, _) => b
    case (_, NaN) => a
    case (PosInf, _) => PosInf
    case (_, PosInf) => PosInf
    case (NegInf, _) => b
    case (_, NegInf) => a
    case (Finite(x), Finite(y)) => Finite(Max(x, y))
  }

  /** `x / d` for finite operands. */
  function Divide(x: real, d: real): F64 {
    if d != 0.0 then Finite(x / d)
    else if x == 0.0 then NaN
    else if x > 0.0 then PosInf
    else NegInf
  }
}
