/**
 * EnemyChaser.cs: an enemy that runs straight at the player, stops
 * short of it, and smooths its turns by blending its velocity toward the
 * desired one.
 *
 * The blend factor `1 - exp(-steeringLerp * fixedDeltaTime)` is an input
 * `alpha` of each tick (exp is not available over the reals); like
 * Vector2.Lerp, the model clamps it to [0, 1].
 */
module Chaser {
  import opened Options
  import opened Numerics
  import opened Geometry

  /** The inspector settings that enter a tick (steeringLerp enters through `alpha`). */
  datatype ChaserSettings = ChaserSettings(moveSpeed: real, stopRange: real)

  /** rb.linearVelocity and the z angle of transform.rotation. */
  datatype ChaserState = ChaserState(velocity: Vec2, rotation: real)

  /**
   * The desired velocity: full speed along the direction to the player
   * when farther than stopRange, otherwise exactly zero.
   */
  function Desired(c: ChaserSettings, toPlayer: Vec2, norm: Vec2 -> real): (r: Vec2)
    requires IsNorm(norm)
    ensures norm(toPlayer) <= c.stopRange ==> r == Zero
    ensures norm(toPlayer) > c.stopRange && norm(toPlayer) > NormalizeEpsilon ==>
              SqLen(r) == c.moveSpeed * c.moveSpeed
    ensures norm(toPlayer) > c.stopRange && norm(toPlayer) > NormalizeEpsilon ==>
              Scale(r, norm(toPlayer)) == Scale(toPlayer, c.moveSpeed)
    ensures c.moveSpeed >= 0.0 ==> Dot(r, toPlayer) >= 0.0
  {
    if norm(toPlayer) > c.stopRange then
      var u := Normalized(toPlayer, norm);
      SqLenScale(u, c.moveSpeed);
      assert norm(toPlayer) > NormalizeEpsilon ==> Scale(Scale(u, c.moveSpeed), norm(toPlayer)) == Scale(toPlayer, c.moveSpeed) by {
        if norm(toPlayer) > NormalizeEpsilon { ScaleAlong(u, norm(toPlayer), c.moveSpeed, toPlayer); }
      }
      TowardTarget(toPlayer, u, c.moveSpeed, norm);
      Scale(u, c.moveSpeed)
    else Zero
  }

  /** A non-negative multiple of the normalized offset points along the offset. */
  lemma TowardTarget(toPlayer: Vec2, u: Vec2, speed: real, norm: Vec2 -> real)
    requires IsNorm(norm) && u == Normalized(toPlayer, norm)
    ensures speed >= 0.0 ==> Dot(Scale(u, speed), toPlayer) >= 0.0
  {
    if u != Zero && speed >= 0.0 {
      var n := norm(toPlayer);
      var k := 1.0 / n;
      var s := SqLen(toPlayer);
      assert Dot(Scale(u, speed), toPlayer) == (k * speed) * s;
      assert k * speed >= 0.0;
      assert (k * speed) * s >= 0.0;
    }
  }

  /** Vector2.Lerp of the current velocity toward the desired one by `alpha`. */
  function Blend(v: Vec2, desired: Vec2, alpha: real): Vec2
  {
    Lerp(v, desired, alpha)
  }

  /**
   * The blend lies on the segment from `v` to `desired`: it moves a
   * fraction `a = Clamp01(alpha)` of the way, the remaining residual is
   * the old one scaled by `1 - a`, it is never farther from `desired`
   * than `v` was, and `v == desired` is a fixed point.
   */
  lemma BlendSpec(v: Vec2, desired: Vec2, alpha: real)
    ensures var a := Clamp01(alpha);
      && Sub(Blend(v, desired, alpha), v) == Scale(Sub(desired, v), a)
      && Sub(Blend(v, desired, alpha), desired) == Scale(Sub(v, desired), 1.0 - a)
      && SqLen(Sub(Blend(v, desired, alpha), desired)) <= SqLen(Sub(v, desired))
      && (v == desired ==> Blend(v, desired, alpha) == v)
  {
    var a := Clamp01(alpha);
    LerpResidual(v, desired, a);
    ScaleShrinks(Sub(v, desired), 1.0 - a);
  }

  /** Within stopRange the desired velocity is zero, so the speed can only drop. */
  lemma StopRangeSlows(c: ChaserSettings, v: Vec2, toPlayer: Vec2, alpha: real, norm: Vec2 -> real)
    requires IsNorm(norm)
    requires norm(toPlayer) <= c.stopRange
    ensures Blend(v, Desired(c, toPlayer, norm), alpha) == Scale(v, 1.0 - Clamp01(alpha))
    ensures SqLen(Blend(v, Desired(c, toPlayer, norm), alpha)) <= SqLen(v)
  {
    var a := Clamp01(alpha);
    LerpResidual(v, Zero, a);
    assert Sub(v, Zero) == v;
    ScaleShrinks(v, 1.0 - a);
  }

  function Pow(x: real, n: nat): real
  {
    if n == 0 then 1.0 else x * Pow(x, n - 1)
  }

  /** `n` successive blends toward a fixed desired velocity with the same factor. */
  function Blends(v: Vec2, desired: Vec2, alpha: real, n: nat): Vec2
  {
    if n == 0 then v else Blend(Blends(v, desired, alpha, n - 1), desired, alpha)
  }

  /**
   * After `n` ticks toward the same desired velocity the residual is the
   * initial one scaled by `(1 - a)^n`: geometric convergence, the
   * discrete form of exp(-steeringLerp * t).
   */
  lemma {:induction false} BlendsConverge(v: Vec2, desired: Vec2, alpha: real, n: nat)
    ensures Sub(Blends(v, desired, alpha, n), desired) == Scale(Sub(v, desired), Pow(1.0 - Clamp01(alpha), n))
  {
    if n == 0 {
      assert Scale(Sub(v, desired), 1.0) == Sub(v, desired);
    } else {
      BlendsConverge(v, desired, alpha, n - 1);
      BlendStep(Blends(v, desired, alpha, n - 1), desired, alpha, Sub(v, desired),
                Pow(1.0 - Clamp01(alpha), n - 1), Pow(1.0 - Clamp01(alpha), n));
    }
  }

  /** One more blend scales a residual of `d * p` by `1 - Clamp01(alpha)`, giving `d * k`. */
  lemma BlendStep(w: Vec2, desired: Vec2, alpha: real, d: Vec2, p: real, k: real)
    requires Sub(w, desired) == Scale(d, p) && k == (1.0 - Clamp01(alpha)) * p
    ensures Sub(Blend(w, desired, alpha), desired) == Scale(d, k)
  {
    var q := 1.0 - Clamp01(alpha);
    LerpResidual(w, desired, Clamp01(alpha));
    ScaleScale(d, p, q);
  }

  /** One FixedUpdate: `target` is the player's position, if there is a player. */
  function Tick(c: ChaserSettings, s: ChaserState, target: Option<Vec2>, position: Vec2, alpha: real,
                norm: Vec2 -> real, angleOf: Vec2 -> real): ChaserState
    requires IsNorm(norm)
  {
    if target.None? then s.(velocity := Zero)
    else
      var v := Blend(s.velocity, Desired(c, Sub(target.value, position), norm), alpha);
      ChaserState(v, Facing(s.rotation, v, angleOf))
  }

  /**
   * What a tick does: without a player the velocity becomes zero and the
   * facing is kept; with one the velocity blends toward Desired; the
   * facing changes only above the speed threshold.
   */
  lemma TickSpec(c: ChaserSettings, s: ChaserState, target: Option<Vec2>, position: Vec2, alpha: real,
                 norm: Vec2 -> real, angleOf: Vec2 -> real)
    requires IsNorm(norm)
    ensures var r := Tick(c, s, target, position, alpha, norm, angleOf);
      && (target.None? ==> r == ChaserState(Zero, s.rotation))
      && (target.Some? ==>
            var desired := Desired(c, Sub(target.value, position), norm);
            Sub(r.velocity, desired) == Scale(Sub(s.velocity, desired), 1.0 - Clamp01(alpha)))
      && (r.rotation != s.rotation ==> SqLen(r.velocity) > FacingEpsilon)
      && (SqLen(r.velocity) > FacingEpsilon ==> r.rotation == angleOf(r.velocity))
  {
    if target.Some? {
      BlendSpec(s.velocity, Desired(c, Sub(target.value, position), norm), alpha);
    }
  }

  class EnemyChaser {
    const moveSpeed: real
    const stopRange: real
    /** rb.linearVelocity */
    var velocity: Vec2
    /** the z angle of transform.rotation, in degrees */
    var rotation: real

    function Settings(): ChaserSettings
    {
      ChaserSettings(moveSpeed, stopRange)
    }

    function Snapshot(): ChaserState
      reads this
    {
      ChaserState(velocity, rotation)
    }

    constructor (c: ChaserSettings, velocity: Vec2, rotation: real)
      ensures Settings() == c && Snapshot() == ChaserState(velocity, rotation)
    {
      moveSpeed := c.moveSpeed;
      stopRange := c.stopRange;
      this.velocity := velocity;
      this.rotation := rotation;
    }

    method FixedUpdate(target: Option<Vec2>, position: Vec2, alpha: real, norm: Vec2 -> real, angleOf: Vec2 -> real)
      requires IsNorm(norm)
      modifies this
      ensures Snapshot() == Tick(Settings(), old(Snapshot()), target, position, alpha, norm, angleOf)
    {
      if target.None? {
        velocity := Zero;
        return;
      }
      var toPlayer := Sub(target.value, position);
      var desired := if norm(toPlayer) > stopRange then Scale(Normalized(toPlayer, norm), moveSpeed) else Zero;
      velocity := Lerp(velocity, desired, alpha);
      if SqLen(velocity) > FacingEpsilon {
        rotation := angleOf(velocity);
      }
    }
  }
}
