/** Numeric helpers of the site script: `Math.min`/`Math.max` on numbers,
    the `clamp` helper, JavaScript's remainder operator `%` on integers and
    the score shown to the player. */
module Numbers {

  function Min(a: real, b: real): (r: real)
    ensures r <= a && r <= b
    ensures r == a || r == b
  {
    if a <= b then a else b
  }

  function Max(a: real, b: real): (r: real)
    ensures a <= r && b <= r
    ensures r == a || r == b
  {
    if a <= b then b else a
  }

  /** `clamp(n, min, max)`, written `Math.max(min, Math.min(max, n))`:
      the result lies in `[lo, hi]` whenever that interval is not empty,
      leaves a value already inside unchanged, and falls back to `lo`
      when the bounds are crossed. */
  function Clamp(n: real, lo: real, hi: real): (r: real)
    ensures lo <= hi ==> lo <= r <= hi
    ensures lo <= n <= hi ==> r == n
    ensures n < lo ==> r == lo
    ensures hi < lo ==> r == lo
    ensures lo <= hi < n ==> r == hi
  {
    Max(lo, Min(hi, n))
  }

  /** The same `clamp` applied to integer indices (the lightbox uses it). */
  function ClampIndex(n: int, lo: int, hi: int): (r: int)
    ensures lo <= hi ==> lo <= r <= hi
    ensures lo <= n <= hi ==> r == n
    ensures n < lo ==> r == lo
    ensures hi < lo ==> r == lo
    ensures lo <= hi < n ==> r == hi
  {
    var m := if hi <= n then hi else n;
    if lo <= m then m else lo
  }

  /** JavaScript's `a % b` for a positive divisor: the remainder takes the
      sign of the dividend (it truncates toward zero, unlike Dafny's `%`). */
  function JsRem(a: int, b: int): (r: int)
    requires b > 0
    ensures a >= 0 ==> 0 <= r < b && r == a % b
    ensures a < 0 ==> -b < r <= 0 && r == -((-a) % b)
    ensures 0 <= a < b ==> r == a
    ensures b <= a < 2 * b ==> r == a - b
  {
    if 0 <= a < b then
      DivModUnique(a, b, 0, a);
      a % b
    else if b <= a < 2 * b then
      DivModUnique(a, b, 1, a - b);
      a % b
    else if a >= 0 then a % b
    else -((-a) % b)
  }

  /** Adding the divisor does not change the remainder. */
  lemma ModShift(x: int, n: int)
    requires n > 0
    ensures (x + n) % n == x % n
  {
    var q, r := x / n, x % n;
    assert x + n == (q + 1) * n + r;
    DivModUnique(x + n, n, q + 1, r);
  }

  /** Euclidean division is unique: a quotient and remainder that
      rebuild `x` are `x / n` and `x % n`. */
  lemma DivModUnique(x: int, n: int, q: int, r: int)
    requires n > 0 && 0 <= r < n && x == q * n + r
    ensures x / n == q && x % n == r
  {
    var d := q - x / n;
    assert d * n == x % n - r;
  }


  /** A draw `r` of `Math.random()`, in `[0, 1)`, scales a positive `m`
      into `[0, m)`. */
  lemma ScaleBelow(r: real, m: real)
    requires 0.0 <= r < 1.0 && m > 0.0
    ensures 0.0 <= r * m < m
  {
    assert m - r * m == (1.0 - r) * m;
  }

  /** The score line shows `Math.max(0, Math.floor(score))`. */
  function ShownScore(score: real): (n: int)
    ensures n >= 0
    ensures score >= 0.0 ==> n as real <= score < n as real + 1.0
    ensures score < 0.0 ==> n == 0
  {
    if score.Floor < 0 then 0 else score.Floor
  }
}
