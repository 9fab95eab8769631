/** The few facts about products and quotients the proofs name explicitly. */
module Arithmetic {

  lemma Distribute(a: int, x: int, y: int)
    ensures a * (x + y) == a * x + a * y
  {
  }

  lemma Scale(a: nat, x: int, y: int)
    requires x <= y
    ensures a * x <= a * y
  {
  }

  /** The same without a precondition, for arguing about cases that turn out impossible. */
  lemma Monotone(a: nat, x: int, y: int)
    ensures x <= y ==> a * x <= a * y
    ensures a > 0 && x < y ==> a * x < a * y
  {
    if a > 0 && x < y {
      Scale(a, x + 1, y);
      Distribute(a, x, 1);
    }
  }

  lemma DivModIs(n: int, d: int, q: int, r: int)
    requires d > 0 && n == d * q + r && 0 <= r < d
    ensures n / d == q && n % d == r
  {
    var q', r' := n / d, n % d;
    assert n == d * q' + r';
    Monotone(d, q + 1, q');
    Distribute(d, q, 1);
    Monotone(d, q' + 1, q);
    Distribute(d, q', 1);
  }
}
