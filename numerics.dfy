/** Helpers that give Python's and Kotlin's built-in numeric and indexing
    operations their exact meaning over Dafny's unbounded `int` and `real`. */
module Numerics {

  datatype Option<+T> = None | Some(value: T)

  datatype Result<+T, +E> = Ok(value: T) | Err(error: E)

  /** A float that may be `float("inf")`: the side distances of the grid
      walk and the entries of the z-buffer. */
  datatype Ext = Inf | Fin(v: real)

  /** `a < b` with `inf`: a finite value is below `inf`, and `inf < inf`
      is false. */
  predicate Below(a: Ext, b: Ext)
  {
    a.Fin? && (b.Inf? || a.v < b.v)
  }

  /** `a + b`: `inf` absorbs. */
  function Plus(a: Ext, b: Ext): Ext
  {
    if a.Inf? || b.Inf? then Inf else Fin(a.v + b.v)
  }

  /** The smaller of two extended values. */
  function MinExt(a: Ext, b: Ext): (m: Ext)
    ensures m == a || m == b
    ensures !Below(a, m) && !Below(b, m)
  {
    if Below(b, a) then b else a
  }

  /** Python `int(r)` and Kotlin `Double.toInt()`: truncation toward zero,
      which differs from `Floor` for negative non-integers. */
  function Trunc(r: real): (n: int)
    ensures r >= 0.0 ==> n as real <= r < n as real + 1.0
    ensures r < 0.0 ==> n as real - 1.0 < r <= n as real
  {
    if r >= 0.0 then r.Floor else -((-r).Floor)
  }

  /** Adding a whole number k to a non-negative real adds k to its
      truncation. */
  lemma TruncShift(r: real, k: nat)
    requires r >= 0.0
    ensures Trunc(r + k as real) == Trunc(r) + k
  {
    var n := Trunc(r);
    assert n as real <= r < n as real + 1.0;
    assert (n + k) as real <= r + k as real < (n + k) as real + 1.0;
  }

  /** Python's `x % 1.0`: the remainder takes the sign of the divisor, so it
      is the fractional part `x - floor(x)`. */
  function PyMod1(x: real): (f: real)
    ensures 0.0 <= f < 1.0
    ensures (x - f).Floor as real == x - f
  {
    x - x.Floor as real
  }

  /** Kotlin's `x % 1.0` on a `Double`: the remainder takes the sign of the
      dividend. */
  function KtRem1(x: real): (f: real)
    ensures -1.0 < f < 1.0
    ensures x >= 0.0 ==> f >= 0.0
    ensures x <= 0.0 ==> f <= 0.0
  {
    x - Trunc(x) as real
  }

  /** `var xi = x % 1.0; if (xi < 0) xi += 1.0` in kotlin/src/Texture.kt:
      the fix-up makes the Kotlin remainder agree with Python's. */
  function KtWrap1(x: real): (f: real)
    ensures f == PyMod1(x)
  {
    var xi := KtRem1(x);
    if xi < 0.0 then xi + 1.0 else xi
  }

  /** Python 3 `round(r)` to an int: nearest integer, ties to the even one. */
  function RoundHalfEven(r: real): (n: int)
    ensures n as real - 0.5 <= r <= n as real + 0.5
    ensures (r == n as real - 0.5 || r == n as real + 0.5) ==> n % 2 == 0
  {
    var f := r.Floor;
    var d := r - f as real;
    if d < 0.5 then f
    else if d > 0.5 then f + 1
    else if f % 2 == 0 then f else f + 1
  }

  /** Python list indexing `s[i]`: a negative index counts from the end, and
      an index outside `[-len(s), len(s))` raises IndexError (None here). */
  function PyIndex<T>(s: seq<T>, i: int): (r: Option<T>)
    ensures r.Some? <==> -|s| <= i < |s|
    ensures 0 <= i < |s| ==> r == Some(s[i])
    ensures -|s| <= i < 0 ==> r == Some(s[|s| + i])
  {
    if 0 <= i < |s| then Some(s[i])
    else if -|s| <= i < 0 then Some(s[|s| + i])
    else None
  }

  function Max(a: int, b: int): int { if a >= b then a else b }

  function Min(a: int, b: int): int { if a <= b then a else b }

  function MaxReal(a: real, b: real): real { if a >= b then a else b }

  function MinReal(a: real, b: real): real { if a <= b then a else b }

  /** 2^k, positive so that it can divide. */
  function Pow2(k: nat): (p: int)
    ensures p >= 1
  {
    if k == 0 then 1 else 2 * Pow2(k - 1)
  }

  /** Python's `n & (2**k - 1)` bit by bit: the lowest bit of n's two's
      complement form is `n % 2` and `n // 2` shifts it out (both floor
      toward minus infinity, as Dafny's `%` and `/` by 2 do). */
  function LowBits(n: int, k: nat): int
    decreases k
  {
    if k == 0 then 0 else n % 2 + 2 * LowBits(n / 2, k - 1)
  }

  /** Masking the low k bits is taking the remainder modulo 2^k. */
  lemma {:induction false} LowBitsIsMod(n: int, k: nat)
    ensures LowBits(n, k) == n % Pow2(k)
    decreases k
  {
    if k > 0 {
      LowBitsIsMod(n / 2, k - 1);
      var p := Pow2(k - 1);
      var q := n / 2;
      var r := q % p;
      assert n == 2 * q + n % 2;
      assert q == p * (q / p) + r;
      assert n == (2 * p) * (q / p) + (2 * r + n % 2);
      ModUnique(n, 2 * p, q / p, 2 * r + n % 2);
    }
  }

  /** The quotient and remainder are the unique q and r in [0, d) with
      n == d*q + r. */
  lemma ModUnique(n: int, d: int, q: int, r: int)
    requires d > 0 && n == d * q + r && 0 <= r < d
    ensures n % d == r && n / d == q
  {
    var q', r' := n / d, n % d;
    assert n == d * q' + r';
    var t := q - q';
    assert d * t == r' - r by {
      assert d * q - d * q' == d * t;
    }
    ProductBounds(d, t);
  }

  /** `a / n < b` exactly when `a < n * b`, for a positive n. */
  lemma QuotientBelow(a: real, n: real, b: real)
    requires n > 0.0
    ensures a / n < b <==> a < n * b
  {
    assert (a / n) * n == a;
    if a / n < b {
      assert (b - a / n) * n > 0.0;
    } else {
      assert (a / n - b) * n >= 0.0;
    }
  }

  /** A non-zero multiple of d is at least d away from 0. */
  lemma ProductBounds(d: int, t: int)
    requires d > 0
    ensures t >= 1 ==> d * t >= d
    ensures t <= -1 ==> d * t <= -d
  {
    if t >= 1 {
      assert d * t == d + d * (t - 1);
      assert d * (t - 1) >= 0;
    } else if t <= -1 {
      assert d * t == -d + d * (t + 1);
      assert d * (t + 1) <= 0;
    }
  }

  /** Multiplying by a positive d keeps the order. */
  lemma ProductMonotone(d: int, a: int, b: int)
    requires d > 0
    ensures a <= b ==> d * a <= d * b
  {
    if a < b {
      ProductBounds(d, b - a);
      assert d * b == d * a + d * (b - a);
    }
  }
}
