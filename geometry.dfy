/**
 * Two-dimensional vectors over the reals, standing in for Unity's Vector2.
 * Square roots are not available over the reals, so a vector's magnitude
 * is supplied by the caller as a function `norm` that satisfies IsNorm.
 */
module Geometry {
  import opened Numerics

  datatype Vec2 = Vec2(x: real, y: real)

  const Zero: Vec2 := Vec2(0.0, 0.0)

  /** Vector2.right, the fallback direction of a degenerate offset. */
  const Right: Vec2 := Vec2(1.0, 0.0)

  /** Vector2.kEpsilon: `normalized` returns zero at or below this magnitude. */
  const NormalizeEpsilon: real := 0.00001

  /** Squared speed above which an agent turns to face its velocity. */
  const FacingEpsilon: real := 0.01

  function Add(a: Vec2, b: Vec2): Vec2 { Vec2(a.x + b.x, a.y + b.y) }

  function Sub(a: Vec2, b: Vec2): Vec2 { Vec2(a.x - b.x, a.y - b.y) }

  function Scale(a: Vec2, k: real): Vec2 { Vec2(a.x * k, a.y * k) }

  function Neg(a: Vec2): Vec2 { Vec2(-a.x, -a.y) }

  function Dot(a: Vec2, b: Vec2): real { a.x * b.x + a.y * b.y }

  /** Vector2.sqrMagnitude. */
  function SqLen(a: Vec2): real { a.x * a.x + a.y * a.y }

  /** A stand-in for Vector2.magnitude: non-negative, and its square is the squared length. */
  ghost predicate IsNorm(norm: Vec2 -> real)
  {
    forall v :: norm(v) >= 0.0 && norm(v) * norm(v) == SqLen(v)
  }

  /** `a` rotated a quarter turn counter-clockwise: `(-a.y, a.x)`. */
  function Perp(a: Vec2): (r: Vec2)
    ensures Dot(r, a) == 0.0
    ensures SqLen(r) == SqLen(a)
    // the cross product `a × r` is positive (for a non-zero `a`): the turn is counter-clockwise
    ensures a.x * r.y - a.y * r.x == SqLen(a)
  {
    Vec2(-a.y, a.x)
  }

  /** Vector2.LerpUnclamped: `a + (b - a) * t`. */
  function LerpUnclamped(a: Vec2, b: Vec2, t: real): Vec2
  {
    Add(a, Scale(Sub(b, a), t))
  }

  /** Vector2.Lerp: the blend factor is clamped to [0, 1] first. */
  function Lerp(a: Vec2, b: Vec2, t: real): Vec2
  {
    LerpUnclamped(a, b, Clamp01(t))
  }

  /**
   * Vector2.normalized: `v / |v|` when `|v|` exceeds Vector2.kEpsilon,
   * otherwise the zero vector.
   */
  function Normalized(v: Vec2, norm: Vec2 -> real): (r: Vec2)
    requires IsNorm(norm)
    ensures SqLen(r) == 1.0 || r == Zero
    ensures r == Zero <==> norm(v) <= NormalizeEpsilon
    ensures norm(v) > NormalizeEpsilon ==> Scale(r, norm(v)) == v
  {
    if norm(v) > NormalizeEpsilon then
      var n := norm(v);
      DivideUnit(v, n);
      ScaleScale(v, 1.0 / n, n);
      assert n * (1.0 / n) == 1.0;
      Scale(v, 1.0 / n)
    else Zero
  }

  /** Dividing a vector by its own length gives a unit vector. */
  lemma DivideUnit(v: Vec2, n: real)
    requires n > 0.0 && n * n == SqLen(v)
    ensures SqLen(Scale(v, 1.0 / n)) == 1.0
  {
    var k := 1.0 / n;
    calc {
      SqLen(Scale(v, k));
      v.x * k * (v.x * k) + v.y * k * (v.y * k);
      { MulCommute4(v.x, v.y, k); }
      (v.x * v.x + v.y * v.y) * (k * k);
      (n * n) * (k * k);
      { assert n * k == 1.0; MulCommute4(n, 0.0, k); }
      (n * k) * (n * k);
      1.0;
    }
  }

  /** Regrouping of products that nonlinear arithmetic does not find unaided. */
  lemma MulCommute4(a: real, b: real, k: real)
    ensures a * k * (a * k) + b * k * (b * k) == (a * a + b * b) * (k * k)
  {
  }

  /**
   * The residual of a blend: after `LerpUnclamped(a, b, t)` the distance
   * to `b` is the old distance scaled by `1 - t`.
   */
  lemma LerpResidual(a: Vec2, b: Vec2, t: real)
    ensures Sub(LerpUnclamped(a, b, t), b) == Scale(Sub(a, b), 1.0 - t)
  {
    var l := LerpUnclamped(a, b, t);
    var d := Sub(a, b);
    assert (b.x - a.x) * t == -(d.x * t) && (b.y - a.y) * t == -(d.y * t);
    assert d.x * (1.0 - t) == d.x - d.x * t && d.y * (1.0 - t) == d.y - d.y * t;
    assert l.x - b.x == d.x * (1.0 - t);
    assert l.y - b.y == d.y * (1.0 - t);
  }

  /**
   * The orientation after a tick: the angle of the velocity (given by
   * `angleOf`, which stands for Atan2 in degrees) when its squared length
   * exceeds 0.01, otherwise the old orientation.
   */
  function Facing(rotation: real, v: Vec2, angleOf: Vec2 -> real): real
  {
    if SqLen(v) > FacingEpsilon then angleOf(v) else rotation
  }

  lemma SqLenScale(v: Vec2, k: real)
    ensures SqLen(Scale(v, k)) == k * k * SqLen(v)
  {
  }

  lemma ScaleScale(v: Vec2, p: real, q: real)
    ensures Scale(Scale(v, p), q) == Scale(v, q * p)
  {
    assert v.x * p * q == v.x * (q * p);
    assert v.y * p * q == v.y * (q * p);
  }

  /** Scaling by `p` and then by `q` is scaling once by their product `k`. */
  lemma ScaleTwice(v: Vec2, p: real, q: real, k: real)
    requires k == p * q
    ensures Scale(Scale(v, p), q) == Scale(v, k)
  {
    ScaleScale(v, p, q);
    assert q * p == k;
  }

  /** A unit vector scaled by `k` has squared length `k * k`. */
  lemma SqLenScaleUnit(u: Vec2, k: real)
    requires SqLen(u) == 1.0
    ensures SqLen(Scale(u, k)) == k * k
  {
    SqLenScale(u, k);
  }

  /** If `u` scaled by `n` is `v`, then `u` scaled by `k` and then by `n` is `v` scaled by `k`. */
  lemma ScaleAlong(u: Vec2, n: real, k: real, v: Vec2)
    requires Scale(u, n) == v
    ensures Scale(Scale(u, k), n) == Scale(v, k)
  {
    ScaleScale(u, k, n);
    ScaleScale(u, n, k);
    assert n * k == k * n;
  }

  /** Scaling a vector by a factor in [-1, 1] never lengthens it. */
  lemma ScaleShrinks(v: Vec2, k: real)
    requires -1.0 <= k <= 1.0
    ensures SqLen(Scale(v, k)) <= SqLen(v)
  {
    var s := SqLen(v);
    assert SqLen(Scale(v, k)) == k * k * s;
    assert k * k <= 1.0 by {
      if k >= 0.0 { assert k * k <= k * 1.0; } else { assert k * k <= (-k) * 1.0; }
    }
    assert s >= 0.0;
    assert (1.0 - k * k) * s >= 0.0;
  }
}
