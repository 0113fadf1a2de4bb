/** JavaScript's `Math.round` and `Math.min` on exact reals.
    `Math.round(x)` is the integer nearest to `x`, with halves going
    toward positive infinity, which is `floor(x + 0.5)`. */
module JsMath {

  /** `Math.round(x)`: the nearest integer, halves rounded up. */
  function Round(x: real): (r: int)
    ensures x - 0.5 < r as real <= x + 0.5
  {
    (x + 0.5).Floor
  }

  /** `Math.min(a, b)` on reals. */
  function Min(a: real, b: real): (m: real)
    ensures m <= a && m <= b
    ensures m == a || m == b
  {
    if a <= b then a else b
  }

  /** Rounding never reverses the order of two amounts. */
  lemma RoundMonotone(x: real, y: real)
    requires x <= y
    ensures Round(x) <= Round(y)
  {
  }

  /** An exact integer rounds to itself. */
  lemma RoundOfInteger(n: int)
    ensures Round(n as real) == n
  {
  }

  /** Adding a whole number of rupees commutes with rounding. */
  lemma RoundShift(n: int, x: real)
    ensures Round(n as real + x) == n + Round(x)
  {
    var r := Round(x);
    assert x - 0.5 < r as real <= x + 0.5;
    var s := Round(n as real + x);
    assert n as real + x - 0.5 < s as real <= n as real + x + 0.5;
  }
}
