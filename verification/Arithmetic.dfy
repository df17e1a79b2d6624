/** Facts about products and quotients that the accounting modules share. */
module Arithmetic {
  lemma MulMonotone(a: nat, b: nat, c: nat)
    requires a <= b
    ensures a * c <= b * c
  {
  }

  lemma MulStrict(a: nat, b: nat, c: nat)
    requires a < b && c > 0
    ensures a * c < b * c
  {
  }

  lemma ExactDivision(n: nat, d: nat)
    requires d > 0
    ensures (n * d) % d == 0 && n * d / d == n
  {
    var q, r := (n * d) / d, (n * d) % d;
    assert n * d == q * d + r;
    if q < n {
      MulMonotone(q + 1, n, d);
      assert false;
    } else if n < q {
      MulMonotone(n + 1, q, d);
      assert false;
    }
  }
}
