/** The few facts about products that the proofs need, stated once. */
module Arithmetic {
  lemma MulMonotone(a: int, b: int, c: nat)
    requires a <= b
    ensures a * c <= b * c
  {
    assert (b - a) * c >= 0;
  }

  lemma MulPositive(a: int, b: int)
    requires a > 0 && b > 0
    ensures a * b > 0
  {}

  lemma ScaledBound(d: int, bound: int, w: int)
    requires w > 0 && -bound < d < bound
    ensures -(bound * w) < d * w < bound * w
  {
    MulPositive(bound - d, w);
    MulPositive(bound + d, w);
    assert (bound - d) * w == bound * w - d * w;
    assert (bound + d) * w == bound * w + d * w;
  }

  lemma Distribute(a: int, b: int, c: int)
    ensures (a + b) * c == a * c + b * c
  {}
}
