/**
 * The JavaScript numeric helpers the components use, over exact reals:
 * `Math.min`, `Math.max`, `Math.abs`, `Math.round`, `Math.ceil`, and the
 * display rounding `parseFloat(x.toFixed(n))`.
 */
module JsMath {

  function Min(a: real, b: real): (r: real)
    ensures r <= a && r <= b
    ensures r == a || r == b
  {
    if a <= b then a else b
  }

  function Max(a: real, b: real): (r: real)
    ensures r >= a && r >= b
    ensures r == a || r == b
  {
    if a >= b then a else b
  }

  function Abs(x: real): (r: real)
    ensures r >= 0.0
    ensures r == x || r == -x
  {
    if x < 0.0 then -x else x
  }

  /** `Math.round`: the nearest integer, halves rounding up. */
  function Round(x: real): (r: int)
    ensures x - 0.5 < r as real <= x + 0.5
  {
    (x + 0.5).Floor
  }

  /** `Math.ceil`: the least integer not below `x`. */
  function Ceil(x: real): (r: int)
    ensures x <= r as real < x + 1.0
  {
    -((-x).Floor)
  }

  function Pow10(n: nat): (r: int)
    ensures r >= 1
  {
    if n == 0 then 1 else 10 * Pow10(n - 1)
  }

  /**
   * `parseFloat(x.toFixed(places))`: `x` rounded half-up to `places`
   * decimals. The result is a whole number of `10^-places` steps, namely
   * `x * 10^places` rounded, and lies within half a step of `x`.
   */
  function RoundTo(x: real, places: nat): (r: real)
    ensures var step := 1.0 / Pow10(places) as real;
      x - step / 2.0 < r <= x + step / 2.0
    ensures r * Pow10(places) as real == Round(x * Pow10(places) as real) as real
  {
    ScaleBack(x, Pow10(places) as real, Round(x * Pow10(places) as real) as real);
    Round(x * Pow10(places) as real) as real / Pow10(places) as real
  }

  /** A count of steps within half a step of `x * scale`, scaled back, lies within half of `1 / scale` of `x`. */
  lemma ScaleBack(x: real, scale: real, n: real)
    requires scale >= 1.0
    requires x * scale - 0.5 < n <= x * scale + 0.5
    ensures x - (1.0 / scale) / 2.0 < n / scale <= x + (1.0 / scale) / 2.0
    ensures (n / scale) * scale == n
  {
    var r := n / scale;
    var half := (1.0 / scale) / 2.0;
    assert r * scale == n;
    assert half * scale == 0.5;
    assert (x - half) * scale == x * scale - 0.5;
    assert (x + half) * scale == x * scale + 0.5;
    ScaledLess(x - half, r, scale);
    ScaledAtMost(r, x + half, scale);
  }

  lemma ScaledLess(a: real, b: real, scale: real)
    requires scale > 0.0 && a * scale < b * scale
    ensures a < b
  {
  }

  lemma ScaledAtMost(a: real, b: real, scale: real)
    requires scale > 0.0 && a * scale <= b * scale
    ensures a <= b
  {
  }
}
