/**
 * The looping cursor `(prev + 1) % n` that the song index, the strip cursors and the
 * lyric line index all use to wrap around their list.
 */
module Cyclic {

  /** One step of a cursor over `n` positions (`n` is positive, so JavaScript's `%` agrees with Dafny's). */
  function Next(i: nat, n: nat): (r: nat)
    requires n > 0
    ensures r < n
    ensures i < n - 1 ==> r == i + 1
    ensures i == n - 1 ==> r == 0
  {
    (i + 1) % n
  }

  /** The cursor after `k` steps from `i`. */
  function Steps(i: nat, n: nat, k: nat): (r: nat)
    requires n > 0 && i < n
    ensures r < n
  {
    if k == 0 then i else Next(Steps(i, n, k - 1), n)
  }

  /** Taking the remainder before or after adding one gives the same step. */
  lemma {:induction false} NextOfRemainder(a: nat, n: nat)
    requires n > 0
    ensures Next(a % n, n) == (a + 1) % n
  {
    var q, r := a / n, a % n;
    assert a == q * n + r;
    if r + 1 < n {
      assert a + 1 == q * n + (r + 1);
      DivModUnique(a + 1, n, q, r + 1);
    } else {
      assert a + 1 == (q + 1) * n;
      DivModUnique(a + 1, n, q + 1, 0);
    }
  }

  /** A remainder is determined by any quotient/remainder decomposition. */
  lemma {:induction false} DivModUnique(a: nat, n: nat, q: int, r: int)
    requires n > 0 && 0 <= r < n && a == q * n + r
    ensures a % n == r
  {
    var q', r' := a / n, a % n;
    assert a == q' * n + r';
    var d := q - q';
    assert d * n == r' - r by {
      assert d * n == q * n - q' * n;
    }
    if d >= 1 {
      MultipleAtLeast(d, n);
    }
  }

  /** A positive multiple of `n` is at least `n`. */
  lemma {:induction false} MultipleAtLeast(d: int, n: nat)
    requires d >= 1
    ensures d * n >= n
  {
    assert d * n == (d - 1) * n + n;
    assert (d - 1) * n >= 0;
  }

  /** Stepping `k` times is adding `k` modulo `n`. */
  lemma {:induction false} StepsIsAddition(i: nat, n: nat, k: nat)
    requires n > 0 && i < n
    ensures Steps(i, n, k) == (i + k) % n
  {
    if k == 0 {
      DivModUnique(i, n, 0, i);
    } else {
      StepsIsAddition(i, n, k - 1);
      NextOfRemainder(i + k - 1, n);
    }
  }

  /** The cursor returns to where it started after exactly `n` steps, and not before. */
  lemma FullCycle(i: nat, n: nat)
    requires n > 0 && i < n
    ensures Steps(i, n, n) == i
    ensures forall k | 0 < k < n :: Steps(i, n, k) != i
  {
    StepsIsAddition(i, n, n);
    DivModUnique(i + n, n, 1, i);
    forall k | 0 < k < n
      ensures Steps(i, n, k) != i
    {
      StepsIsAddition(i, n, k);
      if i + k < n {
        DivModUnique(i + k, n, 0, i + k);
      } else {
        DivModUnique(i + k, n, 1, i + k - n);
      }
    }
  }
}
