/** Quotients and remainders. */
module Division {
  lemma NoMultipleBetween(n: int, d: int)
    requires -n < n * d < n
    ensures d == 0
  {
  }

  /** A number written as a multiple and a rest has that quotient and that remainder. */
  lemma QuotientIs(n: nat, q: int, r: nat)
    requires r < n
    ensures (n * q + r) / n == q && (n * q + r) % n == r
  {
    var x := n * q + r;
    var d := x / n - q;
    assert n * d == r - x % n by {
      assert n * (x / n) + x % n == x;
      assert n * d == n * (x / n) - n * q;
    }
    NoMultipleBetween(n, d);
  }
}
