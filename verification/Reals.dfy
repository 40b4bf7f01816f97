/** Facts about real products that the solver wants spelled out. */
module Reals {

  lemma Cancel(a: real, b: real, k: real)
    requires a * k < b * k
    ensures k > 0.0 ==> a < b
    ensures k < 0.0 ==> a > b
  {
    assert b * k - a * k == (b - a) * k;
  }

  lemma Fraction(a: real, d: real)
    requires 0.0 < a < d
    ensures 0.0 < a / d < 1.0
  {
    var q := a / d;
    assert q * d == a;
    Cancel(q, 1.0, d);
    Cancel(0.0, q, d);
  }

  lemma SelfQuotient(x: real)
    requires x > 0.0
    ensures x / x == 1.0
  {
  }
}
