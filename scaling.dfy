/**
 * `m / max_mem`, the share of the largest memory figure that both drawings scale
 * by: bubble areas in collect.py and bar lengths in main.py.
 */
module Scaling {

  /** `m / top`. */
  function Ratio(m: real, top: real): real
    requires top > 0.0
  {
    m / top
  }

  /** A product with a positive factor has the sign of the other factor. */
  lemma FactorSign(a: real, b: real)
    requires b > 0.0
    ensures a * b <= 0.0 <==> a <= 0.0
    ensures a * b > 0.0 <==> a > 0.0
  {
  }

  /** Positive figures not above the largest get a share in `(0, 1]`, the largest exactly 1. */
  lemma RatioBounds(m: real, top: real)
    requires top > 0.0 && 0.0 < m <= top
    ensures 0.0 < Ratio(m, top) <= 1.0
    ensures m == top ==> Ratio(m, top) == 1.0
  {
    var q := Ratio(m, top);
    assert q * top == m;
    assert (q - 1.0) * top == m - top;
    FactorSign(q - 1.0, top);
    FactorSign(q, top);
  }

  /** Sharing is strictly monotone. */
  lemma RatioMonotone(m: real, n: real, top: real)
    requires top > 0.0 && m < n
    ensures Ratio(m, top) < Ratio(n, top)
  {
    var d := Ratio(n, top) - Ratio(m, top);
    assert d * top == n - m;
    FactorSign(d, top);
  }
}
