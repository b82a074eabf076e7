/**
 * The 26.6 fixed-point numbers of golang.org/x/image/math/fixed: an integer
 * counting 64ths of a unit.
 */
module Fixed {

  /** `fixed.Int26_6`; Go's int32 is modelled unbounded (no wrap-around). */
  type Int26_6 = int

  /**
   * `Int26_6.Round`: `(x + 32) >> 6`, an arithmetic shift, so a floor
   * division by 64. The result is the whole unit nearest to x / 64, with
   * halves rounded up.
   */
  function Round(x: Int26_6): (r: int)
    ensures 64 * r - 32 <= x < 64 * r + 32
  {
    (x + 32) / 64
  }

  /** Rounding never reverses the order of two values. */
  lemma RoundMonotone(x: Int26_6, y: Int26_6)
    requires x <= y
    ensures Round(x) <= Round(y)
  {
  }

  /** A whole number of units rounds to itself; in particular Round(0) == 0. */
  lemma RoundWhole(n: int)
    ensures Round(64 * n) == n
  {
  }
}
