/** The part of JavaScript number semantics that the progress views depend on:
    division that can produce an infinity or NaN, and `Math.min`/`Math.max`
    propagating NaN. Finite values are exact rationals; IEEE rounding and the
    sign of zero are not modelled. */
module JsNumber {

  datatype Number = Finite(value: real) | PosInfinity | NegInfinity | NaN

  /** `a / b` for finite operands. */
  function Divide(a: real, b: real): (r: Number)
    ensures b != 0.0 ==> r == Finite(a / b)
    ensures b == 0.0 ==> (r.NaN? <==> a == 0.0)
    ensures b == 0.0 ==> (r.PosInfinity? <==> a > 0.0) && (r.NegInfinity? <==> a < 0.0)
  {
    if b != 0.0 then Finite(a / b)
    else if a > 0.0 then PosInfinity
    else if a < 0.0 then NegInfinity
    else NaN
  }

  /** `x * k` for a positive finite factor `k`. */
  function Scale(x: Number, k: real): Number
    requires k > 0.0
  {
    match x
    case Finite(v) => Finite(v * k)
    case _ => x
  }

  /** `a < b` on numbers that are not NaN. */
  predicate Below(a: Number, b: Number)
    requires !a.NaN? && !b.NaN?
  {
    match (a, b)
    case (NegInfinity, _) => !b.NegInfinity?
    case (_, PosInfinity) => !a.PosInfinity?
    case (Finite(x), Finite(y)) => x < y
    case _ => false
  }

  /** `Math.max(a, b)`: NaN if either argument is NaN. */
  function MathMax(a: Number, b: Number): (r: Number)
    ensures r.NaN? <==> a.NaN? || b.NaN?
    ensures !r.NaN? ==> (r == a || r == b) && !Below(r, a) && !Below(r, b)
  {
    if a.NaN? || b.NaN? then NaN else if Below(a, b) then b else a
  }

  /** `Math.min(a, b)`: NaN if either argument is NaN. */
  function MathMin(a: Number, b: Number): (r: Number)
    ensures r.NaN? <==> a.NaN? || b.NaN?
    ensures !r.NaN? ==> (r == a || r == b) && !Below(a, r) && !Below(b, r)
  {
    if a.NaN? || b.NaN? then NaN else if Below(b, a) then b else a
  }

  /** Bounds on a percentage `x / n * 100` over a positive denominator. */
  lemma RatioBounds(x: real, n: real)
    ensures n > 0.0 && 0.0 <= x <= n ==> 0.0 <= x / n * 100.0 <= 100.0
    ensures n > 0.0 && x > n ==> x / n * 100.0 > 100.0
  {
    if n > 0.0 {
      var q := x / n;
      assert x == q * n;
      if 0.0 <= x <= n {
        assert 0.0 <= q <= 1.0;
      }
      if x > n {
        assert q > 1.0;
      }
    }
  }
}
