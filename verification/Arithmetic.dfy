/** Products and quotients of natural numbers, where the solver needs help. */
module Arithmetic {

  lemma MulMono(a: nat, b: nat, c: nat)
    requires a <= b
    ensures a * c <= b * c
  {
    assert b * c == a * c + (b - a) * c;
  }

  /** A digit above a sum that fits leaves room for it. */
  lemma DigitFits(low: nat, d: nat, p: nat, amp: nat)
    requires low < p && d < amp
    ensures low + d * p < amp * p
  {
    MulMono(d + 1, amp, p);
    assert (d + 1) * p == d * p + p;
  }

  /** A quotient and a remainder are determined by what they make up. */
  lemma QuotientIs(a: nat, p: nat, q: nat, r: nat)
    requires r < p && a == p * q + r
    ensures a / p == q && a % p == r
  {
    var q1, r1 := a / p, a % p;
    assert a == p * q1 + r1;
    assert (q1 + 1) * p == p * q1 + p && q * p == p * q && (q + 1) * p == p * q + p && q1 * p == p * q1;
    if q1 < q { MulMono(q1 + 1, q, p); }
    if q < q1 { MulMono(q + 1, q1, p); }
  }
}
