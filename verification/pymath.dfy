/** Python arithmetic the modelled code relies on, over exact reals. */
module PyMath {
  import opened Wrappers

  /** True division `a / b`, which raises ZeroDivisionError when `b` is zero. */
  function Divide(a: real, b: real): (r: Result<real, Error>)
    ensures r.Failure? <==> b == 0.0
    ensures r.Failure? ==> r.error == DivisionByZero
    ensures r.Success? ==> r.value * b == a
  {
    if b == 0.0 then Failure(DivisionByZero) else Success(a / b)
  }

  /** `((gain - cost) / cost) * 100`: the percentage return on `cost`. */
  function PercentReturn(gain: real, cost: real): (r: Result<real, Error>)
    ensures r.Failure? <==> cost == 0.0
    ensures r.Failure? ==> r.error == DivisionByZero
    ensures r.Success? ==> r.value * cost == (gain - cost) * 100.0
  {
    match Divide(gain - cost, cost)
    case Success(q) => Success(q * 100.0)
    case Failure(e) => Failure(e)
  }

  /** `base ** n` for a natural exponent. */
  function Pow(base: real, n: nat): (r: real)
    ensures base >= 1.0 ==> r >= 1.0
    ensures base > 0.0 ==> r > 0.0
  {
    if n == 0 then 1.0 else base * Pow(base, n - 1)
  }

  /** A positive cost earns a non-negative return exactly when the gain covers it. */
  lemma PercentReturnSign(gain: real, cost: real)
    requires cost > 0.0
    ensures PercentReturn(gain, cost).value >= 0.0 <==> gain >= cost
  {
    var q := PercentReturn(gain, cost).value;
    assert q * cost == (gain - cost) * 100.0;
    if q < 0.0 {
      assert q * cost < 0.0;
    } else {
      assert q * cost >= 0.0;
    }
  }
}
