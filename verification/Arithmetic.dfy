/** Division with remainder, as far as index arithmetic needs it. */
module Arithmetic {
  lemma SmallMultipleIsZero(n: nat, d: int)
    ensures 0 - n < n * d < n ==> d == 0
  {
    assert d >= 1 ==> n * d >= n;
    assert d <= -1 ==> n * (0 - d) >= n;
  }

  lemma ModUnique(x: nat, n: nat, q: nat, r: nat)
    requires r < n && x == n * q + r
    ensures x % n == r && x / n == q
  {
    var d := x / n - q;
    assert n * d == r - x % n;
    SmallMultipleIsZero(n, d);
  }
}
