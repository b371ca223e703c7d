/**
 Double-precision values as pandas computes with them, with rounding
 abstracted away: a value is a real number, one of the two infinities, or
 NaN. Zero is always the positive zero, so a division of a non-zero number by
 zero yields the infinity carrying the numerator's sign.
 */
module Floats {

  datatype Float = Finite(value: real) | PosInf | NegInf | NaN {

    predicate IsInfinite() {
      PosInf? || NegInf?
    }

    /** The sign bit: set for negative numbers and for negative infinity. */
    predicate Negative() {
      (Finite? && value < 0.0) || NegInf?
    }
  }

  function Infinity(negative: bool): Float {
    if negative then NegInf else PosInf
  }

  function Neg(a: Float): Float {
    match a
    case Finite(x) => Finite(-x)
    case PosInf => NegInf
    case NegInf => PosInf
    case NaN => NaN
  }

  function Add(a: Float, b: Float): Float {
    if a.NaN? || b.NaN? then NaN
    else if a.Finite? && b.Finite? then Finite(a.value + b.value)
    else if a.IsInfinite() && b.IsInfinite() && a != b then NaN
    else if a.IsInfinite() then a
    else b
  }

  function Sub(a: Float, b: Float): Float {
    Add(a, Neg(b))
  }

  function Mul(a: Float, b: Float): Float {
    if a.NaN? || b.NaN? then NaN
    else if a.Finite? && b.Finite? then Finite(a.value * b.value)
    else if a == Finite(0.0) || b == Finite(0.0) then NaN
    else Infinity(a.Negative() != b.Negative())
  }

  function Div(a: Float, b: Float): Float {
    if a.NaN? || b.NaN? then NaN
    else if a.Finite? && b.Finite? then
      if b.value != 0.0 then Finite(a.value / b.value)
      else if a.value == 0.0 then NaN
      else Infinity(a.Negative())
    else if a.IsInfinite() && b.IsInfinite() then NaN
    else if b.IsInfinite() then Finite(0.0)
    else Infinity(a.Negative() != b.Negative())
  }
}
