/**
 * The few JavaScript value semantics the product manager relies on:
 * numbers as produced by `parseFloat`, and the falsiness that `!x` and
 * `x || 0` test.
 */
module JsValues {

  /**
   * A JavaScript number as far as this component can observe it: an
   * ordinary value or NaN (what `parseFloat` yields for text that is not a
   * number). IEEE-754 rounding, infinities and the sign of zero are not
   * modelled; `-0` is the real 0 here and, like it, falsy.
   */
  datatype Number = Finite(value: real) | NaN

  /** `!!s` for a string: only the empty string is falsy. */
  predicate StringTruthy(s: string)
  {
    s != ""
  }

  /** `!!n` for a number: 0 and NaN are falsy, every other number is truthy. */
  predicate NumberTruthy(n: Number)
  {
    n.Finite? && n.value != 0.0
  }

  /** `n || 0`: a falsy number (0 or NaN) is replaced by 0. */
  function OrZero(n: Number): (r: Number)
    ensures r.Finite?
    ensures NumberTruthy(n) ==> r == n
    ensures !NumberTruthy(n) ==> r.value == 0.0
    ensures NumberTruthy(r) <==> NumberTruthy(n)
  {
    if NumberTruthy(n) then n else Finite(0.0)
  }
}
