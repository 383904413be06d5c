/**
 * Scalar helpers with the semantics of Unity's Mathf functions, over the
 * reals and unbounded integers (no single-precision rounding, no overflow).
 */
module Numerics {

  /** Mathf.Max on two reals: `a > b ? a : b`. */
  function MaxR(a: real, b: real): (r: real)
    ensures r >= a && r >= b
    ensures r == a || r == b
  {
    if a > b then a else b
  }

  /** Mathf.Max on two ints. */
  function MaxI(a: int, b: int): (r: int)
    ensures r >= a && r >= b
    ensures r == a || r == b
  {
    if a > b then a else b
  }

  /** Mathf.Min on two ints. */
  function MinI(a: int, b: int): (r: int)
    ensures r <= a && r <= b
    ensures r == a || r == b
  {
    if a < b then a else b
  }

  /**
   * Mathf.Clamp on ints: below `lo` gives `lo`, otherwise above `hi` gives
   * `hi`; the lower bound is tested first, so `lo` wins when `hi < lo`.
   */
  function ClampI(v: int, lo: int, hi: int): (r: int)
    ensures lo <= hi ==> lo <= r <= hi
    ensures lo <= v <= hi ==> r == v
    ensures r == v || r == lo || r == hi
  {
    if v < lo then lo else if v > hi then hi else v
  }

  /** Mathf.Clamp01, which Vector2.Lerp applies to its blend factor. */
  function Clamp01(t: real): (r: real)
    ensures 0.0 <= r <= 1.0
    ensures 0.0 <= t <= 1.0 ==> r == t
  {
    if t < 0.0 then 0.0 else if t > 1.0 then 1.0 else t
  }

  /**
   * Mathf.RoundToInt, that is `(int)Math.Round(f)`: round to the nearest
   * integer, and a value exactly halfway between two integers goes to the
   * even one.
   */
  function RoundToInt(x: real): (r: int)
    ensures -0.5 <= r as real - x <= 0.5
    ensures (r as real - x == 0.5 || x - r as real == 0.5) ==> r % 2 == 0
  {
    var f := x.Floor;
    var frac := x - f as real;
    if frac < 0.5 then f
    else if frac > 0.5 then f + 1
    else if f % 2 == 0 then f else f + 1
  }

  /** `n = m + 1` steps of length `dt` are `m` steps and one more. */
  lemma MulSucc(m: nat, n: nat, dt: real)
    requires n == m + 1
    ensures n as real * dt == m as real * dt + dt
  {
    assert n as real == m as real + 1.0;
  }

  /** The time that `k` fixed steps of length `dt` take. */
  function Elapsed(k: nat, dt: real): real
  {
    k as real * dt
  }

  /** `n = m + 1` steps take one step longer than `m` steps. */
  lemma ElapsedSucc(m: nat, n: nat, dt: real)
    requires n == m + 1
    ensures Elapsed(n, dt) == Elapsed(m, dt) + dt
  {
    MulSucc(m, n, dt);
  }

  /** Whole numbers are left as they are. */
  lemma RoundToIntOfInt(n: int)
    ensures RoundToInt(n as real) == n
  {
  }
}
