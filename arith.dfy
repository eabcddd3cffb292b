/** Integer division facts the solver does not find by itself. */
module Arith {

  lemma MulAtLeast(a: int, b: nat)
    requires a >= 1
    ensures a * b >= b
  {
    var c := a - 1;
    assert a * b == c * b + b;
  }

  lemma MulGapAtLeast(a: int, b: int, d: nat)
    requires a > b
    ensures a * d - b * d >= d
  {
    var c := a - b;
    assert a * d == b * d + c * d;
    MulAtLeast(c, d);
  }

  /** Quotient and remainder are determined by any decomposition with 0 <= r < d. */
  lemma DivModUnique(x: int, d: nat, q: int, r: int)
    requires d > 0 && 0 <= r < d && x == q * d + r
    ensures x / d == q && x % d == r
  {
    var q', r' := x / d, x % d;
    assert x == q' * d + r';
    if q' > q {
      MulGapAtLeast(q', q, d);
    } else if q' < q {
      MulGapAtLeast(q, q', d);
    }
  }

  /** Adding a multiple of `d` does not change the remainder. */
  lemma ModShift(x: int, q: int, d: nat)
    requires d > 0
    ensures (x + q * d) % d == x % d
  {
    var r := x % d;
    var k := x / d;
    assert x == k * d + r;
    assert x + q * d == (k + q) * d + r;
    DivModUnique(x + q * d, d, k + q, r);
  }
}
