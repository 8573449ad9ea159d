// Division as NumPy performs it on float64 values: a zero divisor does not
// raise but gives an infinity of the dividend's sign, or NaN for 0/0, and
// every ordered comparison with NaN is false.
module FloatQuotient {
  datatype Quotient = Finite(v: real) | PosInf | NegInf | NaN

  function Div(a: real, b: real): (r: Quotient)
    ensures b != 0.0 ==> r == Finite(a / b)
    ensures b == 0.0 ==> !r.Finite? && (r.NaN? <==> a == 0.0) && (r.PosInf? <==> a > 0.0)
  {
    if b != 0.0 then Finite(a / b)
    else if a > 0.0 then PosInf
    else if a < 0.0 then NegInf
    else NaN
  }

  /** `q > t`. */
  predicate Above(q: Quotient, t: real) {
    match q
    case Finite(v) => v > t
    case PosInf => true
    case NegInf => false
    case NaN => false
  }

  /** `q < t`. */
  predicate Below(q: Quotient, t: real) {
    match q
    case Finite(v) => v < t
    case PosInf => false
    case NegInf => true
    case NaN => false
  }

  /** `q <= t`. */
  predicate AtMost(q: Quotient, t: real) {
    match q
    case Finite(v) => v <= t
    case PosInf => false
    case NegInf => true
    case NaN => false
  }

  /** `q >= t`. */
  predicate AtLeast(q: Quotient, t: real) {
    match q
    case Finite(v) => v >= t
    case PosInf => true
    case NegInf => false
    case NaN => false
  }
}
