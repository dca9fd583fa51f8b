/**
 * The few pieces of JavaScript number semantics the estimator relies on:
 * truthiness of an optional number, the `||` default, `Math.min` and
 * `Math.round`. Numbers are exact reals; NaN, infinities and IEEE-754
 * rounding error are outside the model.
 */
module JsNumbers {
  import opened Wrappers

  /** An optional number in a boolean position: `undefined` and `0` are falsy. */
  predicate Truthy(o: Option<real>) {
    o.Some? && o.value != 0.0
  }

  /** JavaScript `o || fallback` for an optional number. */
  function OrElse(o: Option<real>, fallback: real): real {
    if Truthy(o) then o.value else fallback
  }

  /** `x || 0` is the same as "the value if present, else 0": a present 0 yields 0 either way. */
  lemma OrZeroIsGetOrZero(o: Option<real>)
    ensures OrElse(o, 0.0) == o.GetOr(0.0)
  {
  }

  /** `Math.min(a, b)` on two ordinary numbers. */
  function Min(a: real, b: real): (m: real)
    ensures m <= a && m <= b
    ensures m == a || m == b
  {
    if a <= b then a else b
  }

  /** n is x rounded to the nearest integer, an exact half rounded up. */
  predicate Nearest(n: int, x: real) {
    n as real - 0.5 <= x < n as real + 0.5
  }

  /** `Math.round`: the nearest integer, a tie going towards positive infinity. */
  function Round(x: real): (n: int)
    ensures Nearest(n, x)
  {
    (x + 0.5).Floor
  }

  /** The half-open window of `Round`'s contract singles out exactly one integer. */
  lemma RoundUnique(x: real, n: int)
    requires Nearest(n, x)
    ensures Round(x) == n
  {
  }

  /** Rounding never reverses the order of two numbers. */
  lemma RoundMonotone(x: real, y: real)
    requires x <= y
    ensures Round(x) <= Round(y)
  {
  }

  /** Whole numbers are left alone, and an exact half rounds up (so -2.5 gives -2). */
  lemma RoundIntegerAndTie(n: int)
    ensures Round(n as real) == n
    ensures Round(n as real + 0.5) == n + 1
    ensures Round(n as real - 0.5) == n
  {
  }
}
