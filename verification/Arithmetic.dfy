/** Counting, and facts about Euclidean division that the solver does not find by itself. */
module Arithmetic {
  /** A condition, counted. */
  function One(b: bool): nat {
    if b then 1 else 0
  }

  lemma MultipleBelow(d: int, n: int)
    requires 0 < n
    ensures d >= 1 ==> d * n >= n
  {
  }

  lemma DivModUnique(x: int, n: int, q: int, r: int)
    requires 0 < n && 0 <= r < n && x == q * n + r
    ensures x / n == q && x % n == r
  {
    var q', r' := x / n, x % n;
    assert x == q' * n + r';
    MultipleBelow(q - q', n);
    MultipleBelow(q' - q, n);
    assert (q - q') * n == r' - r;
    assert (q' - q) * n == r - r';
  }

  lemma ModOfSum(x: nat, k: nat, n: nat)
    requires 0 < n
    ensures (x + k) % n == (x % n + k) % n
  {
    var q, r := (x % n + k) / n, (x % n + k) % n;
    assert x + k == (x / n) * n + q * n + r;
    assert (x / n) * n + q * n == (x / n + q) * n;
    DivModUnique(x + k, n, x / n + q, r);
  }

  /** Adding one to `x` either moves the remainder up or starts a new block. */
  lemma DivStep(x: nat, n: nat)
    requires 0 < n
    ensures x % n + 1 < n ==> (x + 1) / n == x / n && (x + 1) % n == x % n + 1
    ensures x % n + 1 == n ==> (x + 1) / n == x / n + 1 && (x + 1) % n == 0
  {
    var q, r := x / n, x % n;
    assert x == q * n + r;
    if r + 1 < n {
      DivModUnique(x + 1, n, q, r + 1);
    } else {
      assert x + 1 == (q + 1) * n + 0 by { assert (q + 1) * n == q * n + n; }
      DivModUnique(x + 1, n, q + 1, 0);
    }
  }
}
