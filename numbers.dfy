/** The parts of JavaScript's `Math` object that the dashboard uses, over exact reals. */
module Numbers {

  /** `Math.min` of two numbers. */
  function Min(a: real, b: real): (r: real)
    ensures r <= a && r <= b
    ensures r == a || r == b
  {
    if a <= b then a else b
  }

  /** `Math.max` of two numbers. */
  function Max(a: real, b: real): (r: real)
    ensures r >= a && r >= b
    ensures r == a || r == b
  {
    if a >= b then a else b
  }

  /** `Math.round`: the nearest integer, a half rounded up (towards +infinity). */
  function Round(x: real): (r: int)
    ensures r as real - 0.5 <= x < r as real + 0.5
  {
    (x + 0.5).Floor
  }

  /** The rounding interval pins the integer down: `Round` is the only integer within it. */
  lemma RoundUnique(x: real, k: int)
    requires k as real - 0.5 <= x < k as real + 0.5
    ensures Round(x) == k
  {
  }

  /** Rounding an integer gives it back. */
  lemma RoundOfInteger(n: int)
    ensures Round(n as real) == n
  {
    RoundUnique(n as real, n);
  }
}
