/** Integer division. */
module Division {

  /** Quotient and remainder are determined by what they add up to. */
  lemma DivIs(x: int, d: nat, q: int, r: nat)
    requires d > 0 && x == d * q + r && r < d
    ensures x / d == q && x % d == r
  {
    var k := x / d - q;
    assert d * k == r - x % d;
    assert k >= 1 ==> d * k >= d;
    assert k <= -1 ==> d * (-k) >= d;
  }
}
