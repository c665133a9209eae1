/**
 * The arithmetic the screens do with `Math.round` and `Math.floor(Math.random() * n)`.
 * Quotients are exact rationals here; `Math.random()` is supplied by the caller as a real
 * in [0, 1).
 */
module Numbers {

  /** A value `Math.random()` can return. */
  type UnitReal = r: real | 0.0 <= r < 1.0

  /**
   * `Math.round(a / b)` for `b > 0`: the nearest integer to the quotient, halves rounded
   * up (towards positive infinity), as JavaScript does.
   */
  function RoundDiv(a: int, b: int): (r: int)
    requires b > 0
    ensures 2 * a - b < 2 * b * r <= 2 * a + b
  {
    var q := (2 * a + b) / (2 * b);
    assert 2 * a + b == 2 * b * q + (2 * a + b) % (2 * b);
    q
  }

  /** One more copy of `a`. */
  lemma MulSucc(a: int, n: int)
    ensures a * (n + 1) == a * n + a
  {
  }

  /** If `n * x < n * y` with `n > 0` then `x < y`. */
  lemma MulStrictCancel(n: int, x: int, y: int)
    requires n > 0 && n * x < n * y
    ensures x < y
  {
  }

  /** A rounded quotient stays within the bounds of the quotient itself. */
  lemma RoundDivBounds(a: int, b: int, lo: int, hi: int)
    requires b > 0 && lo * b <= a <= hi * b
    ensures lo <= RoundDiv(a, b) <= hi
  {
    var r := RoundDiv(a, b);
    assert 2 * b * r <= 2 * a + b < 2 * b * (hi + 1) by {
      assert 2 * b * (hi + 1) == 2 * (hi * b) + 2 * b;
    }
    MulStrictCancel(2 * b, r, hi + 1);
    assert 2 * b * (lo - 1) < 2 * b * r by {
      assert 2 * b * (lo - 1) == 2 * (lo * b) - 2 * b;
    }
    MulStrictCancel(2 * b, lo - 1, r);
  }

  /** `Math.floor(r * n)`: a uniform pick of an index below `n`. */
  function ScaledFloor(r: UnitReal, n: nat): (k: int)
    requires n > 0
    ensures 0 <= k < n
  {
    assert r * n as real < n as real;
    (r * n as real).Floor
  }
}
