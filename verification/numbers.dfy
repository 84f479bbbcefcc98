/**
 * The Kotlin numeric primitives the app relies on, stated over unbounded
 * `int` and exact `real`: `coerceIn`, `coerceAtMost`/`coerceAtLeast`,
 * Long division (which truncates toward zero) and `Long.toInt()`.
 */
module Numbers {

  /** `x.coerceIn(lo, hi)`: the point of [lo, hi] closest to `x`. */
  function Clamp(x: real, lo: real, hi: real): (r: real)
    requires lo <= hi
    ensures lo <= r <= hi
    ensures lo <= x <= hi ==> r == x
    ensures x < lo ==> r == lo
    ensures hi < x ==> r == hi
  {
    if x < lo then lo else if x > hi then hi else x
  }

  /** `a.coerceAtMost(b)`: the smaller of the two. */
  function Min(a: real, b: real): (r: real)
    ensures r <= a && r <= b
    ensures r == a || r == b
  {
    if a > b then b else a
  }

  /** `a.coerceAtLeast(b)`: the larger of the two. */
  function Max(a: real, b: real): (r: real)
    ensures r >= a && r >= b
    ensures r == a || r == b
  {
    if a < b then b else a
  }

  /** Clamping twice is clamping once. */
  lemma ClampIdempotent(x: real, lo: real, hi: real)
    requires lo <= hi
    ensures Clamp(Clamp(x, lo, hi), lo, hi) == Clamp(x, lo, hi)
  {
  }

  /**
   * Division of JVM `Long`s: the quotient is truncated toward zero, so the
   * remainder takes the sign of the dividend. Dafny's own `/` is Euclidean
   * and differs from it for negative dividends.
   */
  function TruncDiv(a: int, b: int): (q: int)
    requires b > 0
    ensures a >= 0 ==> 0 <= a - q * b < b
    ensures a < 0 ==> -b < a - q * b <= 0
  {
    if a >= 0 then a / b else -((-a) / b)
  }

  const TwoTo32: int := 0x1_0000_0000
  const TwoTo31: int := 0x8000_0000

  /** `Long.toInt()`: keeps the low 32 bits, read as a signed two's-complement value. */
  function ToInt32(u: int): (r: int)
    ensures -TwoTo31 <= r < TwoTo31
    ensures (u - r) % TwoTo32 == 0
  {
    var low := u % TwoTo32;
    if low >= TwoTo31 then low - TwoTo32 else low
  }
}
