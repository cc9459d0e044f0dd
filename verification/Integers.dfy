/** Go's int on a 64-bit platform: arithmetic wraps around. */
module Integers {
  const MAX_INT64: int := 0x7fff_ffff_ffff_ffff
  const MIN_INT64: int := -0x8000_0000_0000_0000
  const TWO_64: int := 0x1_0000_0000_0000_0000

  type Int64 = x: int | MIN_INT64 <= x <= MAX_INT64

  predicate Fits64(x: int) { MIN_INT64 <= x <= MAX_INT64 }

  /** The 64-bit integer that agrees with x modulo 2^64. */
  function Wrap(x: int): Int64 {
    (x - MIN_INT64) % TWO_64 + MIN_INT64
  }

  lemma WrapFits(x: int)
    requires Fits64(x)
    ensures Wrap(x) == x
  {}

  /** Wrapping early or late makes no difference. */
  lemma WrapPlus(x: int, y: int)
    ensures Wrap(Wrap(x) + y) == Wrap(x + y)
  {
    var q, r := (x - MIN_INT64) / TWO_64, (x + y - MIN_INT64) / TWO_64;
    assert Wrap(x) == x - q * TWO_64;
    assert Wrap(x) + y - MIN_INT64 == (r - q) * TWO_64 + (x + y - MIN_INT64) % TWO_64;
    ModUnique(Wrap(x) + y - MIN_INT64, r - q, (x + y - MIN_INT64) % TWO_64);
  }

  lemma ModUnique(x: int, q: int, r: int)
    requires x == q * TWO_64 + r && 0 <= r < TWO_64
    ensures x % TWO_64 == r
  {}

  lemma AtLeastOnce(a: int, d: int)
    requires a >= 1 && d >= 1
    ensures a * d >= d
  {}

  lemma QuotientUnique(x: int, d: int, q: int, r: int)
    requires d >= 1 && x == q * d + r && 0 <= r < d
    ensures x / d == q
  {
    var q', r' := x / d, x % d;
    assert x == q' * d + r';
    assert (q - q') * d == q * d - q' * d == r' - r;
    if q > q' { AtLeastOnce(q - q', d); }
    if q < q' {
      assert (q' - q) * d == r - r';
      AtLeastOnce(q' - q, d);
    }
  }

  /** The quotient rounded up. */
  lemma RoundsUp(n: int, size: int, c: int)
    requires size >= 1 && (c - 1) * size < n <= c * size
    ensures (n + size - 1) / size == c
  {
    assert (c - 1) * size == c * size - size;
    QuotientUnique(n + size - 1, size, c, n + size - 1 - c * size);
  }
}
