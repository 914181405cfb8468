/**
 Arithmetic of the round-robin counter: a wrapping `usize` reduced modulo the
 number of targets. Ticket `t` is the t-th value handed out by `fetch_add` since
 the counter was created at zero.
 */
module Tickets {
  import opened Arithmetic

  const USIZE: nat := 0x1_0000_0000_0000_0000

  type usize = x: nat | x < USIZE

  /** The counter after one wrapping `fetch_add(1)`. */
  function Bump(counter: usize): (next: usize)
    ensures next == (counter + 1) % USIZE
  {
    if counter == USIZE - 1 then 0 else counter + 1
  }

  /** The target index drawn with ticket `t` when there are `n` targets. */
  function Slot(t: nat, n: nat): (i: nat)
    requires 0 < n
    ensures i < n
  {
    (t % USIZE) % n
  }

  /**
   The `len` tickets from `a` on are not cut by a wrap of the counter, or the
   wrap does not matter because `n` divides the number of counter values.
   */
  predicate Fits(n: nat, a: nat, len: nat)
    requires 0 < n
  {
    a % USIZE + len <= USIZE || USIZE % n == 0
  }

  /** How many of the tickets `[a, a + len)` go to target `i`. */
  ghost function Share(n: nat, a: nat, len: nat, i: nat): nat
    requires 0 < n
  {
    if len == 0 then 0
    else Share(n, a, len - 1, i) + (if Slot(a + len - 1, n) == i then 1 else 0)
  }

  // ---------------------------------------------------------------------
  // Targets of a window
  // ---------------------------------------------------------------------

  /** Inside a window that fits, targets follow one another cyclically. */
  lemma SlotInWindow(n: nat, a: nat, len: nat, k: nat)
    requires 0 < n && k < len && Fits(n, a, len)
    ensures Slot(a + k, n) == (a % USIZE + k) % n
  {
    var base := a % USIZE;
    ModOfSum(a, k, USIZE);
    if base + len > USIZE {
      var x, m := base + k, USIZE / n;
      assert USIZE == m * n + 0;
      assert x == (x / USIZE) * USIZE + x % USIZE;
      var q, r := (x % USIZE) / n, (x % USIZE) % n;
      assert x == (x / USIZE) * (m * n) + q * n + r;
      assert (x / USIZE) * (m * n) + q * n == ((x / USIZE) * m + q) * n;
      DivModUnique(x, n, (x / USIZE) * m + q, r);
    }
  }

  /** How far the cyclic order is from `from` to `i`. */
  function Offset(n: nat, from: nat, i: nat): (o: nat)
    requires 0 < n && i < n
    ensures o < n
  {
    if i >= from % n then i - from % n else i + n - from % n
  }

  lemma OffsetHits(n: nat, from: nat, i: nat, k: nat)
    requires 0 < n && i < n
    ensures (from + k) % n == i <==> k % n == Offset(n, from, i)
  {
    var b, o, r := from % n, Offset(n, from, i), k % n;
    ModOfSum(from, k, n);
    ModOfSum(k, b, n);
    assert (b + r) % n == if b + r < n then b + r else b + r - n by {
      if b + r >= n { DivModUnique(b + r, n, 1, b + r - n); }
      else { DivModUnique(b + r, n, 0, b + r); }
    }
  }

  // ---------------------------------------------------------------------
  // Shares of a window
  // ---------------------------------------------------------------------

  /** In a window that fits, every target gets the whole laps and at most one more. */
  lemma {:induction false} ShareExact(n: nat, a: nat, len: nat, i: nat)
    requires 0 < n && i < n && Fits(n, a, len)
    ensures Share(n, a, len, i)
         == len / n + (if Offset(n, a % USIZE, i) < len % n then 1 else 0)
  {
    if len == 0 {
      DivModUnique(0, n, 0, 0);
    } else {
      ShareExact(n, a, len - 1, i);
      SlotInWindow(n, a, len, len - 1);
      OffsetHits(n, a % USIZE, i, len - 1);
      DivStep(len - 1, n);
    }
  }

  lemma FairWindow(n: nat, a: nat, len: nat, i: nat, j: nat)
    requires 0 < n && i < n && j < n && Fits(n, a, len)
    ensures len / n <= Share(n, a, len, i) <= len / n + 1
    ensures Share(n, a, len, i) <= Share(n, a, len, j) + 1
  {
    ShareExact(n, a, len, i);
    ShareExact(n, a, len, j);
  }

  lemma {:induction false} ShareSplit(n: nat, a: nat, k: nat, m: nat, i: nat)
    requires 0 < n
    ensures Share(n, a, k + m, i) == Share(n, a, k, i) + Share(n, a + k, m, i)
  {
    if m == 0 {
    } else {
      ShareSplit(n, a, k, m - 1, i);
    }
  }

  ghost predicate FairFromStart(n: nat, len: nat)
    requires 0 < n
  {
    forall i, j | 0 <= i < n && 0 <= j < n :: Share(n, 0, len, i) <= Share(n, 0, len, j) + 1
  }

  /**
   Handing out tickets stays fair for ever exactly when the number of targets
   divides 2^64: otherwise the wrap makes target 0 two tickets ahead of the last.
   */
  lemma FairForeverIff(n: nat)
    requires 0 < n < USIZE
    ensures (forall len: nat :: FairFromStart(n, len)) <==> USIZE % n == 0
  {
    if USIZE % n == 0 {
      forall len: nat ensures FairFromStart(n, len) {
        forall i, j | 0 <= i < n && 0 <= j < n
          ensures Share(n, 0, len, i) <= Share(n, 0, len, j) + 1
        {
          FairWindow(n, 0, len, i, j);
        }
      }
    } else {
      var len := USIZE + 1;
      UnfairAfterWrap(n);
      assert !FairFromStart(n, len);
    }
  }

  lemma UnfairAfterWrap(n: nat)
    requires 0 < n < USIZE && USIZE % n != 0
    ensures Share(n, 0, USIZE + 1, 0) == Share(n, 0, USIZE + 1, n - 1) + 2
  {
    ShareExact(n, 0, USIZE, 0);
    ShareExact(n, 0, USIZE, n - 1);
    DivModUnique(0, n, 0, 0);
    assert Slot(USIZE, n) == 0;
    if n == 1 {
      DivModUnique(USIZE, 1, USIZE, 0);
    }
  }

  // ---------------------------------------------------------------------
  // One lap
  // ---------------------------------------------------------------------

  /** The `k`-th ticket from `a` goes to target `i`. */
  ghost predicate Reaches(n: nat, a: nat, k: nat, i: nat)
    requires 0 < n
  {
    Slot(a + k, n) == i
  }

  ghost predicate ReachedInLap(n: nat, a: nat, i: nat)
    requires 0 < n
  {
    exists k: nat :: k < n && Reaches(n, a, k, i)
  }

  /** The `n` tickets from `a` on reach every one of the `n` targets. */
  ghost predicate Covers(n: nat, a: nat)
    requires 0 < n
  {
    forall i: nat | i < n :: ReachedInLap(n, a, i)
  }

  lemma LapReaches(n: nat, a: nat, i: nat) returns (k: nat)
    requires 0 < n && i < n && Fits(n, a, n)
    ensures k < n && Slot(a + k, n) == i
  {
    k := Offset(n, a % USIZE, i);
    DivModUnique(k, n, 0, k);
    OffsetHits(n, a % USIZE, i, k);
    SlotInWindow(n, a, n, k);
  }

  /** No target is reached twice in one lap. */
  lemma LapInjective(n: nat, a: nat, j: nat, k: nat)
    requires 0 < n && j < n && k < n && Fits(n, a, n) && Slot(a + j, n) == Slot(a + k, n)
    ensures j == k
  {
    SlotInWindow(n, a, n, j);
    SlotInWindow(n, a, n, k);
    var i := Slot(a + j, n);
    OffsetHits(n, a % USIZE, i, j);
    OffsetHits(n, a % USIZE, i, k);
    DivModUnique(j, n, 0, j);
    DivModUnique(k, n, 0, k);
  }

  /** A target that a lap cut by the wrap never reaches. */
  ghost function Skipped(n: nat, a: nat): int
    requires 0 < n
  {
    var cut := a % USIZE + n - USIZE;
    if USIZE % n >= cut then USIZE % n else cut
  }

  lemma CutLapSkips(n: nat, a: nat, k: nat)
    requires 0 < n < USIZE && !Fits(n, a, n) && k < n
    ensures 0 <= Skipped(n, a) < n && Slot(a + k, n) != Skipped(n, a)
  {
    var base, r := a % USIZE, USIZE % n;
    var t := base + k;
    ModOfSum(a, k, USIZE);
    if t >= USIZE {
      assert t % USIZE == t - USIZE;
      DivModUnique(t - USIZE, n, 0, t - USIZE);
    } else {
      var m := USIZE - t;
      assert USIZE == (USIZE / n) * n + r;
      if r >= m {
        DivModUnique(t, n, USIZE / n, r - m);
      } else {
        assert (USIZE / n - 1) * n == (USIZE / n) * n - n;
        DivModUnique(t, n, USIZE / n - 1, r - m + n);
      }
    }
  }

  /** A lap reaches every target exactly when it fits. */
  lemma CoversIff(n: nat, a: nat)
    requires 0 < n < USIZE
    ensures Covers(n, a) <==> Fits(n, a, n)
  {
    if Fits(n, a, n) {
      forall i: nat | i < n ensures ReachedInLap(n, a, i) {
        var k := LapReaches(n, a, i);
        assert Reaches(n, a, k, i);
      }
    } else {
      CutLapSkips(n, a, 0);
      forall k: nat | k < n ensures !Reaches(n, a, k, Skipped(n, a)) {
        CutLapSkips(n, a, k);
      }
      assert !ReachedInLap(n, a, Skipped(n, a));
    }
  }
}
