/** Powers of two, and facts about products that the solver does not find by itself. */
module Arithmetic {

  function Pow2(n: nat): nat {
    if n == 0 then 1 else 2 * Pow2(n - 1)
  }

  lemma ProductIsNatural(a: nat, b: nat)
    ensures a * b >= 0
  {
  }

  lemma QuotientIsNatural(a: nat, n: nat)
    requires 0 < n
    ensures a / n >= 0
  {
    if a / n < 0 {
      Cancel(n, a / n, 0);
      Cancel(n, -1 - a / n, 0);
    }
  }

  lemma Cancel(n: int, a: int, b: int)
    requires 0 < n && n * a < n * b
    ensures a < b
  {
    assert n * b - n * a == n * (b - a);
  }
}
