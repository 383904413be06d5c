/**
 * EnemyDiver.cs: an enemy that orbits the player and now and then dives
 * at it. A two-state machine (Cruise, Dive) with a dive-cooldown timer
 * that is decremented on every targeted tick and never clamped.
 *
 * The player's position and the diver's own position are inputs of a
 * tick; the magnitude of a vector comes from a `norm` function (see
 * Geometry.IsNorm) and the facing angle from `angleOf`.
 */
module Diver {
  import opened Options
  import opened Numerics
  import opened Geometry

  datatype DiveState = Cruise | Dive

  /** The inspector settings. */
  datatype DiverSettings = DiverSettings(
    cruiseRadius: real,
    tangentialSpeed: real,
    radialGain: real,
    maxSpeed: real,
    diveSpeed: real,
    diveCooldown: real,
    diveRange: real,
    stopRange: real)

  /** Below this distance the direction to the player falls back to Vector2.right. */
  const DirectionEpsilon: real := 0.001

  /** The fixed blend factor of the cruise velocity (not scaled by time). */
  const CruiseBlend: real := 0.35

  /** The range of the random seed of the cooldown timer. */
  const SeedMin: real := 0.2
  const SeedMax: real := 0.9

  /** The diver's per-tick state: mode, cooldown timer, velocity and facing angle. */
  datatype DiverState = DiverState(mode: DiveState, cdTimer: real, velocity: Vec2, rotation: real)

  /** The unit direction to the player, or Vector2.right when the player is (almost) on top of the diver. */
  function Direction(toP: Vec2, dist: real): (r: Vec2)
    requires dist >= 0.0 && dist * dist == SqLen(toP)
    ensures SqLen(r) == 1.0
    ensures dist > DirectionEpsilon ==> Scale(r, dist) == toP
    ensures dist <= DirectionEpsilon ==> r == Right
  {
    if dist > DirectionEpsilon then
      DivideUnit(toP, dist);
      var k := 1.0 / dist;
      assert k * dist == 1.0;
      assert toP.x * k * dist == toP.x * (k * dist);
      assert toP.y * k * dist == toP.y * (k * dist);
      Scale(toP, k)
    else Right
  }

  /**
   * The orbit controller before clamping: tangential motion (a quarter
   * turn counter-clockwise from the direction to the player) plus a radial
   * correction proportional to the distance from the cruise circle.
   */
  function CruiseRaw(c: DiverSettings, dir: Vec2, dist: real): Vec2
  {
    Add(Scale(Perp(dir), c.tangentialSpeed), Scale(Neg(dir), (dist - c.cruiseRadius) * c.radialGain))
  }

  /**
   * Along a unit direction, the raw cruise velocity has tangential
   * component `tangentialSpeed` and radial component
   * `-(dist - cruiseRadius) * radialGain`: inward when too far out,
   * outward when too far in.
   */
  lemma CruiseRawComponents(c: DiverSettings, dir: Vec2, dist: real)
    requires SqLen(dir) == 1.0
    ensures Dot(CruiseRaw(c, dir, dist), dir) == -((dist - c.cruiseRadius) * c.radialGain)
    ensures Dot(CruiseRaw(c, dir, dist), Perp(dir)) == c.tangentialSpeed
  {
    var k := (dist - c.cruiseRadius) * c.radialGain;
    var t := c.tangentialSpeed;
    var x, y := dir.x, dir.y;
    var xx, yy, xy := x * x, y * y, x * y;
    assert Dot(CruiseRaw(c, dir, dist), dir) == (-y * t + -x * k) * x + (x * t + -y * k) * y;
    assert (-y * t + -x * k) * x + (x * t + -y * k) * y == -k * (xx + yy);
    assert Dot(CruiseRaw(c, dir, dist), Perp(dir)) == (-y * t + -x * k) * -y + (x * t + -y * k) * x;
    assert (-y * t + -x * k) * -y + (x * t + -y * k) * x == t * (xx + yy);
  }

  /** `if (v.magnitude > maxSpeed) v = v.normalized * maxSpeed`. */
  function ClampSpeed(v: Vec2, maxSpeed: real, norm: Vec2 -> real): (r: Vec2)
    requires IsNorm(norm)
    ensures maxSpeed >= 0.0 ==> SqLen(r) <= maxSpeed * maxSpeed
    ensures norm(v) <= maxSpeed ==> r == v
    ensures maxSpeed >= 0.0 && norm(v) > maxSpeed && norm(v) > NormalizeEpsilon ==> SqLen(r) == maxSpeed * maxSpeed
    // a rescaled velocity keeps its direction: r = v / |v| * maxSpeed
    ensures norm(v) > maxSpeed && norm(v) > NormalizeEpsilon ==> Scale(r, norm(v)) == Scale(v, maxSpeed)
  {
    if norm(v) > maxSpeed then
      var u := Normalized(v, norm);
      SqLenScale(u, maxSpeed);
      assert norm(v) > NormalizeEpsilon ==> Scale(Scale(u, maxSpeed), norm(v)) == Scale(v, maxSpeed) by {
        if norm(v) > NormalizeEpsilon { ScaleAlong(u, norm(v), maxSpeed, v); }
      }
      Scale(u, maxSpeed)
    else
      var n := norm(v);
      var nn, nm, mm := n * n, n * maxSpeed, maxSpeed * maxSpeed;
      assert nn <= nm by { assert n * n <= n * maxSpeed; }
      assert nm <= mm by { assert n * maxSpeed <= maxSpeed * maxSpeed; }
      v
  }

  /**
   * The mode change and cooldown of one targeted tick: the timer first
   * drops by `dt`; Cruise turns to Dive exactly when the timer is then at
   * or below zero and the player is within diveRange, and the timer is
   * reset to diveCooldown exactly then; Dive turns back to Cruise exactly
   * when the player is within stopRange.
   */
  function ModeStep(c: DiverSettings, mode: DiveState, timer: real, dist: real, dt: real): (r: (DiveState, real))
    ensures mode == Cruise ==> (r.0 == Dive <==> timer - dt <= 0.0 && dist <= c.diveRange)
    ensures mode == Dive ==> (r.0 == Cruise <==> dist <= c.stopRange)
    ensures r.1 == (if mode == Cruise && r.0 == Dive then c.diveCooldown else timer - dt)
  {
    var t := timer - dt;
    match mode
    case Cruise => if t <= 0.0 && dist <= c.diveRange then (Dive, c.diveCooldown) else (Cruise, t)
    case Dive => if dist > c.stopRange then (Dive, t) else (Cruise, t)
  }

  /** The velocity command of one targeted tick, in the mode the tick started in. */
  function VelocityStep(c: DiverSettings, mode: DiveState, v: Vec2, dir: Vec2, dist: real, norm: Vec2 -> real): Vec2
    requires IsNorm(norm)
  {
    match mode
    case Cruise => Lerp(v, ClampSpeed(CruiseRaw(c, dir, dist), c.maxSpeed, norm), CruiseBlend)
    case Dive => if dist > c.stopRange then Scale(dir, c.diveSpeed) else v
  }

  /**
   * The velocity command of a targeted tick: in Cruise it moves 35% of
   * the way to a desired velocity no faster than maxSpeed; in Dive beyond
   * stopRange it is a dash at exactly diveSpeed along a unit direction;
   * in Dive within stopRange the velocity is kept.
   */
  lemma VelocityStepSpec(c: DiverSettings, mode: DiveState, v: Vec2, dir: Vec2, dist: real, norm: Vec2 -> real)
    requires IsNorm(norm) && SqLen(dir) == 1.0
    ensures var r := VelocityStep(c, mode, v, dir, dist, norm);
      && (mode == Cruise ==>
            var desired := ClampSpeed(CruiseRaw(c, dir, dist), c.maxSpeed, norm);
            && Sub(r, desired) == Scale(Sub(v, desired), 1.0 - CruiseBlend)
            && (c.maxSpeed >= 0.0 ==> SqLen(desired) <= c.maxSpeed * c.maxSpeed))
      && (mode == Dive && dist > c.stopRange ==>
            r == Scale(dir, c.diveSpeed) && SqLen(r) == c.diveSpeed * c.diveSpeed)
      && (mode == Dive && dist <= c.stopRange ==> r == v)
  {
    var r := VelocityStep(c, mode, v, dir, dist, norm);
    if mode == Cruise {
      var desired := ClampSpeed(CruiseRaw(c, dir, dist), c.maxSpeed, norm);
      assert r == LerpUnclamped(v, desired, CruiseBlend);
      LerpResidual(v, desired, CruiseBlend);
    } else if dist > c.stopRange {
      assert r == Scale(dir, c.diveSpeed);
      SqLenScale(dir, c.diveSpeed);
    }
  }

  /** A tick with the player at distance `dist` along the unit direction `dir`. */
  function Targeted(c: DiverSettings, s: DiverState, dir: Vec2, dist: real, dt: real,
                    norm: Vec2 -> real, angleOf: Vec2 -> real): DiverState
    requires IsNorm(norm)
  {
    var mt := ModeStep(c, s.mode, s.cdTimer, dist, dt);
    var v := VelocityStep(c, s.mode, s.velocity, dir, dist, norm);
    DiverState(mt.0, mt.1, v, Facing(s.rotation, v, angleOf))
  }

  /**
   * What a targeted tick does. Cruise turns to Dive exactly when the
   * decremented timer has run out and the player is within diveRange (the
   * timer is then reset to diveCooldown); Dive turns back exactly within
   * stopRange. The cruise velocity closes 35% of the gap to a desired
   * velocity no faster than maxSpeed; a dive beyond stopRange moves at
   * exactly diveSpeed along `dir`; a dive within stopRange keeps its
   * velocity. The facing angle changes only above the speed threshold.
   */
  lemma TargetedSpec(c: DiverSettings, s: DiverState, dir: Vec2, dist: real, dt: real,
                     norm: Vec2 -> real, angleOf: Vec2 -> real)
    requires IsNorm(norm) && SqLen(dir) == 1.0
    ensures var r := Targeted(c, s, dir, dist, dt, norm, angleOf);
      && (s.mode == Cruise ==> (r.mode == Dive <==> s.cdTimer - dt <= 0.0 && dist <= c.diveRange))
      && (s.mode == Dive ==> (r.mode == Cruise <==> dist <= c.stopRange))
      && r.cdTimer == (if s.mode == Cruise && r.mode == Dive then c.diveCooldown else s.cdTimer - dt)
      && (s.mode == Cruise ==>
            var desired := ClampSpeed(CruiseRaw(c, dir, dist), c.maxSpeed, norm);
            && Sub(r.velocity, desired) == Scale(Sub(s.velocity, desired), 1.0 - CruiseBlend)
            && (c.maxSpeed >= 0.0 ==> SqLen(desired) <= c.maxSpeed * c.maxSpeed))
      && (s.mode == Dive && dist > c.stopRange ==>
            r.velocity == Scale(dir, c.diveSpeed) && SqLen(r.velocity) == c.diveSpeed * c.diveSpeed)
      && (s.mode == Dive && dist <= c.stopRange ==> r.velocity == s.velocity)
      && (r.rotation != s.rotation ==> SqLen(r.velocity) > FacingEpsilon)
      && (SqLen(r.velocity) > FacingEpsilon ==> r.rotation == angleOf(r.velocity))
  {
    var mt := ModeStep(c, s.mode, s.cdTimer, dist, dt);
    var v := VelocityStep(c, s.mode, s.velocity, dir, dist, norm);
    assert Targeted(c, s, dir, dist, dt, norm, angleOf) == DiverState(mt.0, mt.1, v, Facing(s.rotation, v, angleOf));
    VelocityStepSpec(c, s.mode, s.velocity, dir, dist, norm);
  }

  /** One FixedUpdate: `target` is the player's position, if there is a player. */
  function Tick(c: DiverSettings, s: DiverState, target: Option<Vec2>, position: Vec2, dt: real,
                norm: Vec2 -> real, angleOf: Vec2 -> real): DiverState
    requires IsNorm(norm)
  {
    if target.None? then s.(velocity := Zero)
    else
      var toP := Sub(target.value, position);
      var dist := norm(toP);
      Targeted(c, s, Direction(toP, dist), dist, dt, norm, angleOf)
  }

  /**
   * Without a player a tick zeroes the velocity and changes nothing else;
   * with one it is a targeted tick (see TargetedSpec) along a unit vector
   * that, scaled by the distance, is the offset to the player (or
   * Vector2.right when the player is within 0.001).
   */
  lemma TickSpec(c: DiverSettings, s: DiverState, target: Option<Vec2>, position: Vec2, dt: real,
                 norm: Vec2 -> real, angleOf: Vec2 -> real)
    requires IsNorm(norm)
    ensures var r := Tick(c, s, target, position, dt, norm, angleOf);
      && (target.None? ==> r.velocity == Zero && r.mode == s.mode && r.cdTimer == s.cdTimer
                           && r.rotation == s.rotation)
      && (target.Some? ==>
            var toP := Sub(target.value, position);
            var dist := norm(toP);
            exists dir: Vec2 {:trigger Targeted(c, s, dir, dist, dt, norm, angleOf)} ::
              && SqLen(dir) == 1.0
              && (dist > DirectionEpsilon ==> Scale(dir, dist) == toP)
              && (dist <= DirectionEpsilon ==> dir == Right)
              && r == Targeted(c, s, dir, dist, dt, norm, angleOf))
  {
    if target.Some? {
      var toP := Sub(target.value, position);
      var dist := norm(toP);
      assert dist >= 0.0 && dist * dist == SqLen(toP);
      var dir := Direction(toP, dist);
      assert Tick(c, s, target, position, dt, norm, angleOf) == Targeted(c, s, dir, dist, dt, norm, angleOf);
    }
  }

  /** The mode and timer after targeted ticks at the distances `dists`, in order. */
  function Modes(c: DiverSettings, mode: DiveState, timer: real, dists: seq<real>, dt: real): (DiveState, real)
    decreases |dists|
  {
    if dists == [] then (mode, timer)
    else
      var before := Modes(c, mode, timer, dists[..|dists| - 1], dt);
      ModeStep(c, before.0, before.1, dists[|dists| - 1], dt)
  }

  /** The dive condition on tick number `k` (from 0) of a cruise that started with timer `timer`. */
  predicate DiveChance(c: DiverSettings, timer: real, dt: real, k: nat, dist: real)
  {
    timer - Elapsed(k + 1, dt) <= 0.0 && dist <= c.diveRange
  }

  /**
   * A diver stays in Cruise, with its timer counting down by `dt` per
   * tick, as long as no tick has both an elapsed cooldown and the player
   * within diveRange.
   */
  lemma {:induction false} CruiseUntilChance(c: DiverSettings, timer: real, dists: seq<real>, dt: real)
    requires forall k :: 0 <= k < |dists| ==> !DiveChance(c, timer, dt, k, dists[k])
    ensures Modes(c, Cruise, timer, dists, dt) == (Cruise, timer - Elapsed(|dists|, dt))
    decreases |dists|
  {
    if dists != [] {
      var n := |dists| - 1;
      CruiseUntilChance(c, timer, dists[..n], dt);
      assert !DiveChance(c, timer, dt, n, dists[n]);
      ElapsedSucc(n, |dists|, dt);
      CruiseStep(c, timer - Elapsed(n, dt), dists[n], dt, timer - Elapsed(|dists|, dt));
    }
  }

  /** A Cruise tick that ends with timer `after = t - dt` stays in Cruise unless that is a dive chance. */
  lemma CruiseStep(c: DiverSettings, t: real, d: real, dt: real, after: real)
    requires after == t - dt
    ensures ModeStep(c, Cruise, t, d, dt) == if after <= 0.0 && d <= c.diveRange then (Dive, c.diveCooldown) else (Cruise, after)
  {
  }

  /** ... and it enters Dive on the very first tick that has both, with the timer reset to diveCooldown. */
  lemma DiveOnFirstChance(c: DiverSettings, timer: real, dists: seq<real>, d: real, dt: real)
    requires forall k :: 0 <= k < |dists| ==> !DiveChance(c, timer, dt, k, dists[k])
    requires DiveChance(c, timer, dt, |dists|, d)
    ensures Modes(c, Cruise, timer, dists + [d], dt) == (Dive, c.diveCooldown)
  {
    CruiseUntilChance(c, timer, dists, dt);
    var n := |dists|;
    var all := dists + [d];
    assert all[..n] == dists;
    ElapsedSucc(n, n + 1, dt);
    CruiseStep(c, timer - Elapsed(n, dt), d, dt, timer - Elapsed(n + 1, dt));
  }

  class EnemyDiver {
    const cruiseRadius: real
    const tangentialSpeed: real
    const radialGain: real
    const maxSpeed: real
    const diveSpeed: real
    const diveCooldown: real
    const diveRange: real
    const stopRange: real

    var state: DiveState
    var cdTimer: real
    /** rb.linearVelocity */
    var velocity: Vec2
    /** the z angle of transform.rotation, in degrees */
    var rotation: real

    function Settings(): DiverSettings
    {
      DiverSettings(cruiseRadius, tangentialSpeed, radialGain, maxSpeed, diveSpeed, diveCooldown, diveRange, stopRange)
    }

    function Snapshot(): DiverState
      reads this
    {
      DiverState(state, cdTimer, velocity, rotation)
    }

    /** Awake and Start: Cruise, with the cooldown timer seeded by `Random.Range(0.2f, 0.9f)`. */
    constructor (c: DiverSettings, seed: real, velocity: Vec2, rotation: real)
      requires SeedMin <= seed <= SeedMax
      ensures Settings() == c
      ensures state == Cruise && SeedMin <= cdTimer <= SeedMax
      ensures cdTimer == seed && this.velocity == velocity && this.rotation == rotation
    {
      cruiseRadius := c.cruiseRadius;
      tangentialSpeed := c.tangentialSpeed;
      radialGain := c.radialGain;
      maxSpeed := c.maxSpeed;
      diveSpeed := c.diveSpeed;
      diveCooldown := c.diveCooldown;
      diveRange := c.diveRange;
      stopRange := c.stopRange;
      state := Cruise;
      cdTimer := seed;
      this.velocity := velocity;
      this.rotation := rotation;
    }

    method FixedUpdate(target: Option<Vec2>, position: Vec2, dt: real, norm: Vec2 -> real, angleOf: Vec2 -> real)
      requires IsNorm(norm)
      modifies this
      ensures Snapshot() == Tick(Settings(), old(Snapshot()), target, position, dt, norm, angleOf)
    {
      if target.None? {
        velocity := Zero;
        return;
      }
      var toP := Sub(target.value, position);
      var dist := norm(toP);
      var dir := Direction(toP, dist);
      ghost var before := Snapshot();
      Steer(dir, dist, dt, norm);
      if SqLen(velocity) > FacingEpsilon {
        rotation := angleOf(velocity);
      }
      assert Snapshot() == Targeted(Settings(), before, dir, dist, dt, norm, angleOf);
    }

    /** The body of FixedUpdate once the direction and distance to the player are known. */
    method Steer(dir: Vec2, dist: real, dt: real, norm: Vec2 -> real)
      requires IsNorm(norm)
      modifies this`state, this`cdTimer, this`velocity
      ensures (state, cdTimer) == ModeStep(Settings(), old(state), old(cdTimer), dist, dt)
      ensures velocity == VelocityStep(Settings(), old(state), old(velocity), dir, dist, norm)
    {
      cdTimer := cdTimer - dt;
      match state {
        case Cruise =>
          var desired := ClampSpeed(CruiseRaw(Settings(), dir, dist), maxSpeed, norm);
          velocity := Lerp(velocity, desired, CruiseBlend);
          if cdTimer <= 0.0 && dist <= diveRange {
            state := Dive;
            cdTimer := diveCooldown;
          }
        case Dive =>
          if dist > stopRange {
            velocity := Scale(dir, diveSpeed);
          } else {
            state := Cruise;
          }
      }
    }
  }
}
