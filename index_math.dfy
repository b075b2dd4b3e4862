/**
 * Index arithmetic of the lightbox: JavaScript's `%` operator and the
 * wrap-around steps that `nextImage` and `previousImage` apply to
 * `currentImageIndex`.
 */
module IndexMath {

  /**
   * JavaScript's `a % b` for a positive divisor: the remainder of truncated
   * division, which takes the sign of the dividend. Dafny's `%` is
   * Euclidean, so the two differ exactly on negative dividends.
   */
  function JsRemainder(a: int, b: int): (r: int)
    requires b > 0
    ensures a >= 0 ==> 0 <= r < b
    ensures a < 0 ==> -b < r <= 0
    ensures (a - r) % b == 0
  {
    if a >= 0 then
      ModOfRemainder(a / b, b, 0);
      a % b
    else
      var q := -((-a) / b);
      assert a - -((-a) % b) == q * b;
      ModOfRemainder(q, b, 0);
      -((-a) % b)
  }

  /** The index `nextImage` moves to in a gallery of `n` images. */
  function NextIndex(i: int, n: int): int
    requires n > 0
  {
    JsRemainder(i + 1, n)
  }

  /** The index `previousImage` moves to in a gallery of `n` images. */
  function PrevIndex(i: int, n: int): int
    requires n > 0
  {
    JsRemainder(i - 1 + n, n)
  }

  /** For an index in range, `nextImage` steps forward and wraps from the last image to the first. */
  lemma NextIndexWraps(i: int, n: int)
    requires 0 <= i < n
    ensures NextIndex(i, n) == if i + 1 == n then 0 else i + 1
    ensures 0 <= NextIndex(i, n) < n
  {
    SmallMod(i + 1, n);
  }

  /** For an index in range, `previousImage` steps back and wraps from the first image to the last. */
  lemma PrevIndexWraps(i: int, n: int)
    requires 0 <= i < n
    ensures PrevIndex(i, n) == if i == 0 then n - 1 else i - 1
    ensures 0 <= PrevIndex(i, n) < n
  {
    if i == 0 {
      SmallMod(n - 1, n);
    } else {
      ModOfRemainder(1, n, i - 1);
    }
  }

  /** A value in `[0, n]` reduces modulo `n` to itself, except `n` which reduces to 0. */
  lemma SmallMod(a: int, n: int)
    requires 0 <= a <= n && n > 0
    ensures a % n == if a == n then 0 else a
  {
    if a == n {
      ModOfRemainder(1, n, 0);
    } else {
      ModOfRemainder(0, n, a);
    }
  }

  /** `previousImage` undoes `nextImage`. */
  lemma PrevUndoesNext(i: int, n: int)
    requires 0 <= i < n
    ensures PrevIndex(NextIndex(i, n), n) == i
  {
    NextIndexWraps(i, n);
    PrevIndexWraps(NextIndex(i, n), n);
  }

  /** `nextImage` undoes `previousImage`. */
  lemma NextUndoesPrev(i: int, n: int)
    requires 0 <= i < n
    ensures NextIndex(PrevIndex(i, n), n) == i
  {
    PrevIndexWraps(i, n);
    NextIndexWraps(PrevIndex(i, n), n);
  }

  /** The index reached by `k` consecutive `nextImage` steps from `i`. */
  function AdvanceTimes(i: int, n: int, k: nat): int
    requires n > 0
  {
    if k == 0 then i else NextIndex(AdvanceTimes(i, n, k - 1), n)
  }

  /** `k` forward steps from an index in range land on `(i + k) mod n`. */
  lemma {:induction false} AdvanceTimesIsShift(i: int, n: int, k: nat)
    requires 0 <= i < n
    ensures AdvanceTimes(i, n, k) == (i + k) % n
  {
    if k > 0 {
      AdvanceTimesIsShift(i, n, k - 1);
      var j := (i + k - 1) % n;
      NextIndexWraps(j, n);
      ModSuccessor(i + k - 1, n);
    }
  }

  /** Adding one to a number adds one to its remainder, wrapping `n` to 0. */
  lemma ModSuccessor(a: int, n: int)
    requires n > 0
    ensures (a + 1) % n == if a % n + 1 == n then 0 else a % n + 1
  {
    var q, r := a / n, a % n;
    assert a == q * n + r;
    if r + 1 < n {
      ModOfRemainder(q, n, r + 1);
    } else {
      Distribute(q + 1, 1, n);
      assert a + 1 == (q + 1) * n;
      ModOfRemainder(q + 1, n, 0);
    }
  }

  /** Euclidean division by `n` has unique quotient and remainder. */
  lemma ModOfRemainder(q: int, n: int, r: int)
    requires n > 0 && 0 <= r < n
    ensures (q * n + r) % n == r
  {
    var a := q * n + r;
    var q', r' := a / n, a % n;
    assert a == q' * n + r';
    var d := q - q';
    Distribute(q, q', n);
    assert d * n == r' - r;
    if d > 0 {
      MulAtLeast(d, n);
    } else if d < 0 {
      MulAtLeast(-d, n);
      Distribute(0, d, n);
    }
  }

  lemma Distribute(x: int, y: int, n: int)
    ensures (x - y) * n == x * n - y * n
  {
  }

  lemma {:induction false} MulAtLeast(d: int, n: int)
    requires d >= 1 && n > 0
    ensures d * n >= n
  {
    if d > 1 {
      MulAtLeast(d - 1, n);
      Distribute(d, 1, n);
    }
  }

  /** `n` consecutive `nextImage` steps in a gallery of `n` images come back to the start. */
  lemma FullCycleReturns(i: int, n: int)
    requires 0 <= i < n
    ensures AdvanceTimes(i, n, n) == i
  {
    AdvanceTimesIsShift(i, n, n);
    ModOfRemainder(1, n, i);
  }
}
