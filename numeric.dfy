/** Integer arithmetic standing in for Python's float division followed by `round(x, 1)`. */
module Numeric {

  function Abs(x: int): nat
  {
    if x < 0 then -x else x
  }

  /**
   * The integer nearest to the rational n / d for a positive d, ties going
   * to the even neighbour (Python's `round` is round-half-even).
   */
  function RoundHalfEven(n: int, d: int): (r: int)
    requires d > 0
    ensures 2 * Abs(n - r * d) <= d
    ensures 2 * Abs(n - r * d) == d ==> r % 2 == 0
  {
    var q := n / d;
    var rem := n % d;
    assert n - q * d == rem;
    assert n - (q + 1) * d == rem - d;
    if 2 * rem < d then q
    else if 2 * rem > d then q + 1
    else if q % 2 == 0 then q else q + 1
  }

  /** For positive d, k * d is at least d when k is at least one, and at least 2 * d when k is at least two. */
  lemma MulLowerBound(k: int, d: int)
    requires d > 0
    ensures k >= 1 ==> k * d >= d
    ensures k >= 2 ==> k * d >= 2 * d
    ensures k <= -1 ==> k * d <= -d
    ensures k <= -2 ==> k * d <= -2 * d
  {
    // hints only: they keep the proof stable across solver seeds
    if k >= 1 { assert k * d == d + (k - 1) * d; }
    if k <= -1 { assert k * d == -d + (k + 1) * d; }
  }

  /**
   * Two integers within half a unit of the same value, whose distances to it
   * differ by k * d, are either equal or both exactly half a unit away.
   */
  lemma HalfUnitApart(a: int, b: int, d: int, k: int, kd: int)
    requires d > 0 && 2 * Abs(a) <= d && 2 * Abs(b) <= d
    requires a - b == kd
    requires k >= 1 ==> kd >= d
    requires k >= 2 ==> kd >= 2 * d
    requires k <= -1 ==> kd <= -d
    requires k <= -2 ==> kd <= -2 * d
    ensures k == 0 || ((k == 1 || k == -1) && 2 * Abs(a) == d && 2 * Abs(b) == d)
  {
  }

  /** Multiplication distributes over subtraction; stated apart to keep the solver's arithmetic small. */
  lemma Distribute(x: int, y: int, d: int)
    ensures (x - y) * d == x * d - y * d
  {
  }

  /** Once the sign of d is moved into n, the distance to the nearest multiple is unchanged. */
  lemma SignMovedIntoNumerator(x: int, p: int, d: int)
    requires d != 0
    ensures Abs((if d > 0 then x else -x) - p * Abs(d)) == Abs(x - p * d)
  {
    // a hint only: it keeps the proof stable across solver seeds
    if d < 0 {
      assert p * Abs(d) == -(p * d);
    }
  }

  /** The two properties of RoundHalfEven single out its result. */
  lemma RoundHalfEvenUnique(n: int, d: int, t: int)
    requires d > 0
    requires 2 * Abs(n - t * d) <= d
    requires 2 * Abs(n - t * d) == d ==> t % 2 == 0
    ensures t == RoundHalfEven(n, d)
  {
    var r := RoundHalfEven(n, d);
    var k := r - t;
    var a, b, kd := n - t * d, n - r * d, k * d;
    Distribute(r, t, d);
    MulLowerBound(k, d);
    HalfUnitApart(a, b, d, k, kd);
    // two even numbers cannot be one apart
    assert k == 0;
  }
}
