/** The two JavaScript value shapes the modelled code depends on: a form
    field that may fail to parse, and the result of a division, which is not
    a finite number when the divisor is zero. Finite numbers are taken as
    exact reals. */
module JsValues {

  datatype Option<+T> = None | Some(value: T)

  /** A double as the modelled divisions can produce it. */
  datatype Num = Finite(value: real) | PositiveInfinity | NegativeInfinity | NaN

  /** `a / b` in JavaScript, for a divisor that is never negative zero:
      the exact quotient when `b` is non-zero, otherwise an infinity with the
      sign of `a`, or NaN for `0 / 0`. */
  function Divide(a: real, b: real): (q: Num)
    ensures q.Finite? <==> b != 0.0
    ensures q.Finite? ==> q.value * b == a
    ensures q == PositiveInfinity <==> b == 0.0 && a > 0.0
    ensures q == NegativeInfinity <==> b == 0.0 && a < 0.0
    ensures q == NaN <==> b == 0.0 && a == 0.0
  {
    if b != 0.0 then Finite(a / b)
    else if a > 0.0 then PositiveInfinity
    else if a < 0.0 then NegativeInfinity
    else NaN
  }

  /** `parseFloat(field) || 0`: a field that does not parse (None, standing
      for NaN) reads as zero, any parsed number as itself. */
  function OrZero(field: Option<real>): (x: real)
    ensures field.None? ==> x == 0.0
    ensures field.Some? ==> x == field.value
  {
    match field
    case None => 0.0
    case Some(v) => v
  }
}
