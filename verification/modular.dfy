/**
 Facts about `%` on natural numbers, used to relate the balancers' wrap-around
 of a list index (`(i + 1) % len(servers)`) to closed forms.
 */
module Modular {

  lemma MulAtLeast(d: int, n: int)
    requires d >= 1 && n > 0
    ensures d * n >= n
  {
  }

  lemma ModUnique(y: nat, q: nat, r: nat, n: nat)
    requires n > 0 && r < n && y == q * n + r
    ensures y % n == r
  {
    var q', r' := y / n, y % n;
    assert y == q' * n + r';
    if q > q' {
      MulAtLeast(q - q', n);
    } else if q < q' {
      MulAtLeast(q' - q, n);
    }
  }

  /** Going once round the list leaves a position unchanged. */
  lemma ModAddN(x: nat, n: nat)
    requires n > 0
    ensures (x + n) % n == x % n
  {
    var q := x / n;
    assert x == q * n + x % n;
    assert x + n == (q + 1) * n + x % n;
    ModUnique(x + n, q + 1, x % n, n);
  }

  /** Advancing a reduced position by one is the same as advancing, then reducing. */
  lemma ModStep(x: nat, n: nat)
    requires n > 0
    ensures (x % n + 1) % n == (x + 1) % n
  {
    var q, r := x / n, x % n;
    assert x == q * n + r;
    if r + 1 < n {
      assert x + 1 == q * n + (r + 1);
      ModUnique(x + 1, q, r + 1, n);
      ModSmall(r + 1, n);
    } else {
      assert x + 1 == (q + 1) * n + 0;
      ModUnique(x + 1, q + 1, 0, n);
      ModSmall(r + 1, n);
    }
  }

  lemma ModSmall(x: nat, n: nat)
    requires n > 0 && x < 2 * n
    ensures x % n == if x < n then x else x - n
  {
  }
}
