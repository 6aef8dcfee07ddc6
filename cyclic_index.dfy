/** The wrap-around index arithmetic shared by the image carousel, the media
    gallery and the dish page: "next" steps forward and wraps from the last
    position to the first, "previous" steps back and wraps from the first to
    the last. */
module CyclicIndex {

  /** `prev === n - 1 ? 0 : prev + 1`. */
  function Next(i: int, n: int): (r: int)
    ensures 0 <= i < n ==> 0 <= r < n
    ensures 0 <= i < n ==> r == (i + 1) % n
  {
    if i == n - 1 then 0 else i + 1
  }

  /** `prev === 0 ? n - 1 : prev - 1`. */
  function Prev(i: int, n: int): (r: int)
    ensures 0 <= i < n ==> 0 <= r < n
    ensures 0 <= i < n ==> r == (i + n - 1) % n
  {
    if i == 0 then n - 1 else i - 1
  }

  /** "Previous" undoes "next" and "next" undoes "previous". */
  lemma PrevUndoesNext(i: int, n: int)
    requires 0 <= i < n
    ensures Prev(Next(i, n), n) == i
    ensures Next(Prev(i, n), n) == i
  {
  }

  /** The position after `k` presses of "next". */
  function NextTimes(i: int, n: int, k: nat): int {
    if k == 0 then i else Next(NextTimes(i, n, k - 1), n)
  }

  /** `k` presses of "next" advance the position by `k` modulo the length. */
  lemma {:induction false} NextTimesIsModulo(i: int, n: int, k: nat)
    requires 0 <= i < n
    ensures NextTimes(i, n, k) == (i + k) % n
  {
    if k > 0 {
      NextTimesIsModulo(i, n, k - 1);
      var j := (i + k - 1) % n;
      assert NextTimes(i, n, k) == (j + 1) % n;
      ModuloStep(i + k - 1, n);
    }
  }

  /** The remainder is the one `r` in `[0, n)` with `a == q * n + r`. */
  lemma ModuloUnique(a: int, n: int, q: int, r: int)
    requires n > 0 && 0 <= r < n && a == q * n + r
    ensures a % n == r
  {
    var q', r' := a / n, a % n;
    assert (q - q') * n == r' - r;
    if q > q' {
      MulAtLeast(q - q', n);
    } else if q < q' {
      MulAtLeast(q' - q, n);
    }
  }

  lemma MulAtLeast(d: int, n: int)
    requires d >= 1 && n > 0
    ensures d * n >= n
  {
  }

  lemma ModuloStep(a: nat, n: int)
    requires n > 0
    ensures (a % n + 1) % n == (a + 1) % n
  {
    var q := a / n;
    if a % n + 1 == n {
      ModuloUnique(a % n + 1, n, 1, 0);
      ModuloUnique(a + 1, n, q + 1, 0);
    } else {
      ModuloUnique(a % n + 1, n, 0, a % n + 1);
      ModuloUnique(a + 1, n, q, a % n + 1);
    }
  }

  /** Pressing "next" as many times as there are items comes back to the
      starting item. */
  lemma NextFullCycle(i: int, n: int)
    requires 0 <= i < n
    ensures NextTimes(i, n, n) == i
  {
    NextTimesIsModulo(i, n, n);
    ModuloUnique(i + n, n, 1, i);
  }
}
