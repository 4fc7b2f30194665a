/** The double-precision values that a quotient of two column means can take.
    Rounding is not modelled: a finite value is the exact real quotient. What is
    modelled is IEEE 754's answer to a zero divisor, which numpy gives instead of
    raising an error, and how Python's comparison operators treat those values. */
module Floats {

  datatype Float = Finite(x: real) | PosInf | NegInf | NaN

  /** `a / b` on numpy float64 values: the quotient when `b` is not zero; for a
      zero divisor an infinity with the sign of `a`, or NaN when `a` is zero too. */
  function Divide(a: real, b: real): (r: Float)
    ensures r.Finite? <==> b != 0.0
    ensures r.Finite? ==> r.x * b == a
    ensures r.NaN? <==> a == 0.0 && b == 0.0
    ensures b == 0.0 && a > 0.0 ==> r == PosInf
    ensures b == 0.0 && a < 0.0 ==> r == NegInf
  {
    if b != 0.0 then Finite(a / b)
    else if a > 0.0 then PosInf
    else if a < 0.0 then NegInf
    else NaN
  }

  /** Python's `a <= b` on floats: false whenever NaN is involved, and the
      infinities lie below and above every finite value. */
  predicate Le(a: Float, b: Float) {
    match (a, b)
    case (NaN, _) => false
    case (_, NaN) => false
    case (NegInf, _) => true
    case (_, PosInf) => true
    case (PosInf, _) => false
    case (_, NegInf) => false
    case (Finite(x), Finite(y)) => x <= y
  }

  /** Python's chained comparison `lo <= v <= hi` with finite bounds: it holds
      exactly for the finite values inside the closed band, so an infinity or a
      NaN is never inside it. */
  function InBand(lo: real, hi: real, v: Float): (b: bool)
    ensures b <==> v.Finite? && lo <= v.x <= hi
  {
    Le(Finite(lo), v) && Le(v, Finite(hi))
  }
}
