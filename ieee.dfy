/**
 * The float64 values that the fitting formulas can produce. Finite values
 * are exact reals (rounding is not modelled); the three non-finite values
 * appear when the source divides by a zero advance, count or divisor.
 */
module Ieee {

  datatype Float = Num(value: real) | PosInf | NegInf | NaN

  /** IEEE 754 division `x / y` of two finite operands (the divisor is +0). */
  function Div(x: real, y: real): (r: Float)
    ensures r.Num? <==> y != 0.0
    ensures r.Num? ==> r.value * y == x
    ensures r == NaN <==> x == 0.0 && y == 0.0
    ensures y == 0.0 && x > 0.0 ==> r == PosInf
    ensures y == 0.0 && x < 0.0 ==> r == NegInf
  {
    if y != 0.0 then Num(x / y)
    else if x > 0.0 then PosInf
    else if x < 0.0 then NegInf
    else NaN
  }

  /**
   * Go's `math.Min(x, y)` for a finite y: -Inf wins, then NaN, and
   * otherwise the smaller value.
   */
  function Min(x: Float, y: real): (r: Float)
    ensures r == NaN <==> x == NaN
    ensures r == NegInf <==> x == NegInf
    ensures r.Num? ==> r.value <= y
    ensures r.Num? ==> r.value == y || Num(r.value) == x
    ensures x == PosInf ==> r == Num(y)
    ensures x.Num? ==> r == Num(if x.value < y then x.value else y)
  {
    match x
    case NegInf => NegInf
    case NaN => NaN
    case PosInf => Num(y)
    case Num(v) => Num(if v < y then v else y)
  }
}
