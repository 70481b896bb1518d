/** Facts about division and multiplication that the solver should not have to rediscover. */
module Arithmetic {
  import opened Basics

  lemma BlockBounds(n: nat, blockSize: nat)
    requires blockSize > 0
    ensures (n / blockSize) * blockSize <= n < (n / blockSize + 1) * blockSize
    ensures n % blockSize == n - (n / blockSize) * blockSize
  {
  }

  lemma Scaled(i: nat, j: nat, blockSize: nat)
    requires i <= j
    ensures i * blockSize <= j * blockSize
  {
  }

  lemma DivIs(a: nat, d: nat, q: nat)
    requires d > 0 && q * d <= a < (q + 1) * d
    ensures a / d == q
  {
    BlockBounds(a, d);
    if a / d < q { Scaled(a / d + 1, q, d); }
    if a / d > q { Scaled(q + 1, a / d, d); }
  }

  lemma CeilBounds(n: nat, d: nat)
    requires d > 0
    ensures n <= CeilDiv(n, d) * d < n + d
  {
    BlockBounds(n + d - 1, d);
  }

  /** The least number of blocks is the ceiling. */
  lemma CeilLeast(n: nat, d: nat, q: nat)
    requires d > 0 && n <= q * d
    ensures CeilDiv(n, d) <= q
  {
    CeilBounds(n, d);
    if q < CeilDiv(n, d) {
      Scaled(q + 1, CeilDiv(n, d), d);
    }
  }

  lemma ModIs(a: nat, d: nat, q: nat, m: nat)
    requires a == q * d + m && m < d
    ensures a / d == q && a % d == m
  {
    assert (q + 1) * d == q * d + d;
    DivIs(a, d, q);
    BlockBounds(a, d);
  }
}
