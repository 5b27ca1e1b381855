/** The arithmetic of quotients and remainders that block counts and layouts rest on. */
module Quotients {
  lemma Bounded(x: int, d: nat)
    ensures x > 0 ==> x * d >= d
  {
    if x > 0 {
      assert x * d == d + (x - 1) * d;
    }
  }

  /** Division has one answer. */
  lemma QuotientUnique(n: nat, d: nat, q: nat, r: nat)
    requires d > 0 && n == q * d + r && r < d
    ensures n / d == q && n % d == r
  {
    var q1, r1 := n / d, n % d;
    assert n == q1 * d + r1;
    assert (q1 - q) * d == r - r1;
    Bounded(q1 - q, d);
    Bounded(q - q1, d);
  }

  lemma QuotientBelow(x: nat, d: nat, n: nat)
    requires d > 0 && x < n * d
    ensures x / d < n
  {
    var q := x / d;
    assert x == q * d + x % d;
    Bounded(q - n + 1, d);
    assert (q - n + 1) * d == q * d - n * d + d;
  }
}
