/** Products, quotients and order: the few nonlinear facts the other modules lean on. */
module Arithmetic {

  lemma {:induction false} Quotient(n: nat, d: nat) returns (q: nat, r: nat)
    requires d > 0
    ensures q == n / d && r == n % d && n == q * d + r && r < d
  {
    q, r := n / d, n % d;
  }

  lemma {:induction false} MulLe(a: int, b: int, c: nat)
    requires a <= b
    ensures a * c <= b * c
  {
  }

  lemma {:induction false} CancelLe(a: int, b: int, c: nat)
    requires c > 0 && a * c <= b * c
    ensures a <= b
  {
    if a > b {
      MulLe(b + 1, a, c);
    }
  }

  lemma {:induction false} Reassociate(a: int, b: int, c: int)
    ensures a * (b * c) == a * b * c == a * c * b == b * (a * c)
  {
  }
}
