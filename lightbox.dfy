/** The gallery lightbox cursor: either closed or the position of the image
    shown, with wrap-around stepping in both directions. */
module Lightbox {

  /** The gallery holds four images. */
  const GallerySize: nat := 4

  /** `null` (nothing shown) or the index of the image shown. */
  datatype Cursor = Closed | Open(index: nat)

  /** The cursor names an image of a gallery of `n` images, if any. */
  predicate InRange(c: Cursor, n: nat) {
    c.Open? ==> c.index < n
  }

  /** JavaScript's `%` on integers: the remainder takes the sign of the
      dividend (truncated division), unlike Dafny's Euclidean `%`. */
  function JsRemainder(a: int, n: int): (r: int)
    requires n > 0
    ensures a >= 0 ==> 0 <= r < n
    ensures a < 0 ==> -n < r <= 0
    ensures a >= 0 ==> r == a % n
  {
    if a >= 0 then a % n else -((-a) % n)
  }

  /** The "next" updater: `(prev + 1) % images.length`. */
  function Next(i: int, n: int): (r: int)
    requires 0 <= i < n
    ensures 0 <= r < n
    ensures r == if i == n - 1 then 0 else i + 1
  {
    JsRemainder(i + 1, n)
  }

  /** The "previous" updater: `(prev - 1 + images.length) % images.length`. */
  function Prev(i: int, n: int): (r: int)
    requires 0 <= i < n
    ensures 0 <= r < n
    ensures r == if i == 0 then n - 1 else i - 1
  {
    JsRemainder(i - 1 + n, n)
  }

  /** Stepping back then forward, or forward then back, returns to the same image. */
  lemma NextPrevInverse(i: int, n: int)
    requires 0 <= i < n
    ensures Next(Prev(i, n), n) == i
    ensures Prev(Next(i, n), n) == i
  {
  }

  /** The image reached by pressing "next" `k` times from image `i`. */
  function Advance(i: int, n: int, k: nat): (r: int)
    requires 0 <= i < n
    ensures 0 <= r < n
  {
    if k == 0 then i else Next(Advance(i, n, k - 1), n)
  }

  /** Division with remainder is unique: a quotient and remainder in range
      that rebuild `x` are Dafny's `/` and `%`. */
  lemma DivModUnique(x: int, n: int, q: int, r: int)
    requires n > 0 && 0 <= r < n && x == q * n + r
    ensures x % n == r && x / n == q
  {
    var d := q - x / n;
    assert d * n == x % n - r by {
      assert x == (x / n) * n + x % n;
      assert d * n == q * n - (x / n) * n;
    }
  }

  /** Adding one to a number steps its remainder forward, wrapping from
      `n - 1` to `0`. */
  lemma ModSucc(x: int, n: int)
    requires n > 0
    ensures (x + 1) % n == if x % n == n - 1 then 0 else x % n + 1
  {
    var q, p := x / n, x % n;
    if p == n - 1 {
      assert x + 1 == (q + 1) * n + 0;
      DivModUnique(x + 1, n, q + 1, 0);
    } else {
      DivModUnique(x + 1, n, q, p + 1);
    }
  }

  /** Pressing "next" `k` times lands on `(i + k) mod n`: stepping never
      stops at the last image. */
  lemma {:induction false} AdvanceIsModular(i: int, n: int, k: nat)
    requires 0 <= i < n
    ensures Advance(i, n, k) == (i + k) % n
  {
    if k > 0 {
      AdvanceIsModular(i, n, k - 1);
      ModSucc(i + k - 1, n);
    }
  }

  /** A full round of `n` presses of "next" comes back to the starting image. */
  lemma FullCycleReturns(i: int, n: int)
    requires 0 <= i < n
    ensures Advance(i, n, n) == i
  {
    AdvanceIsModular(i, n, n);
    DivModUnique(i + n, n, 1, i);
  }

  /** The 1-based "i / total" counter shown while the lightbox is open. */
  function CounterLabel(i: int, n: int): (r: int)
    requires 0 <= i < n
    ensures 1 <= r <= n
    ensures r - 1 == i
  {
    i + 1
  }
}
