/**
 * The dash of PlayerController.cs: a dash timer and a cooldown timer, a
 * speed multiplier while dashing, and invulnerability frames granted
 * through PlayerHealth for the length of a dash.
 *
 * The move input is an input of a tick (input bindings, aiming and the
 * weapon hand-off are not part of this model).
 */
module Dash {
  import opened Numerics
  import opened Geometry
  import opened Vitals

  datatype DashSettings = DashSettings(
    moveSpeed: real,
    dashSpeedMultiplier: real,
    dashDuration: real,
    dashCooldown: real,
    dashGrantsIFrames: bool)

  /** isDashing, dashTimer and dashCooldownTimer. */
  datatype DashState = DashState(dashing: bool, dashTimer: real, cooldownTimer: real)

  /**
   * TryDash: refused while a dash is active or the cooldown is still
   * positive; otherwise a dash starts with both timers at their full
   * settings.
   */
  function StartDash(c: DashSettings, s: DashState): (r: DashState)
    ensures s.dashing || s.cooldownTimer > 0.0 ==> r == s
    ensures !s.dashing && s.cooldownTimer <= 0.0 ==> r == DashState(true, c.dashDuration, c.dashCooldown)
    ensures r.dashing <==> s.dashing || Started(c, s)
  {
    if s.dashing || s.cooldownTimer > 0.0 then s
    else DashState(true, c.dashDuration, c.dashCooldown)
  }

  /** A dash started by this TryDash call. */
  predicate Started(c: DashSettings, s: DashState)
  {
    !s.dashing && s.cooldownTimer <= 0.0
  }

  /**
   * The timer part of FixedUpdate: a running dash loses `dt` and ends
   * once its timer is at or below zero; the cooldown loses `dt` only
   * while it is positive.
   */
  function DashTick(s: DashState, dt: real): (r: DashState)
    ensures s.dashing ==> r.dashTimer == s.dashTimer - dt && (r.dashing <==> r.dashTimer > 0.0)
    ensures !s.dashing ==> !r.dashing && r.dashTimer == s.dashTimer
    ensures s.cooldownTimer > 0.0 ==> r.cooldownTimer == s.cooldownTimer - dt
    ensures s.cooldownTimer <= 0.0 ==> r.cooldownTimer == s.cooldownTimer
  {
    var timer := if s.dashing then s.dashTimer - dt else s.dashTimer;
    var cooldown := if s.cooldownTimer > 0.0 then s.cooldownTimer - dt else s.cooldownTimer;
    DashState(s.dashing && timer > 0.0, timer, cooldown)
  }

  /** A dash ended on this tick. */
  predicate Ended(s: DashState, dt: real)
  {
    s.dashing && s.dashTimer - dt <= 0.0
  }

  /** `k` FixedUpdate ticks of the timers with the same step. */
  function DashTicks(s: DashState, dt: real, k: nat): DashState
  {
    if k == 0 then s else DashTick(DashTicks(s, dt, k - 1), dt)
  }

  /**
   * A dash with timer `T` is still on after `k >= 1` ticks exactly when
   * `T - k * dt > 0`, with that much left on its timer: it lasts the
   * smallest number of ticks whose total time reaches T.
   */
  lemma {:induction false} DashLasts(s: DashState, dt: real, k: nat)
    requires s.dashing && dt > 0.0
    ensures k > 0 ==> (DashTicks(s, dt, k).dashing <==> s.dashTimer - Elapsed(k, dt) > 0.0)
    ensures DashTicks(s, dt, k).dashing ==> DashTicks(s, dt, k).dashTimer == s.dashTimer - Elapsed(k, dt)
  {
    if k > 0 {
      DashLasts(s, dt, k - 1);
      ElapsedSucc(k - 1, k, dt);
      DashStep(DashTicks(s, dt, k - 1), dt, s.dashTimer, Elapsed(k - 1, dt), Elapsed(k, dt));
    }
  }

  /**
   * One tick of a dash whose timer, if still on, is `T - before`, where a
   * dash that is already off had `T - before <= 0`: afterwards it is on
   * exactly when `T - after > 0`, with `after = before + dt`.
   */
  lemma DashStep(w: DashState, dt: real, T: real, before: real, after: real)
    requires after == before + dt
    requires w.dashing ==> w.dashTimer == T - before
    requires !w.dashing ==> T - before <= 0.0 && dt > 0.0
    ensures DashTick(w, dt).dashing <==> T - after > 0.0
    ensures DashTick(w, dt).dashing ==> DashTick(w, dt).dashTimer == T - after
  {
  }

  /**
   * While a dash lasts, the cooldown is at least the time left on the
   * dash, provided the cooldown setting is no shorter than the dash.
   * Hence a dash always ends before the next one can be started.
   */
  predicate CooldownCovers(s: DashState)
  {
    s.dashing ==> s.dashTimer <= s.cooldownTimer
  }

  lemma CooldownCoversKept(c: DashSettings, s: DashState, dt: real)
    requires c.dashDuration <= c.dashCooldown && dt >= 0.0
    requires CooldownCovers(s)
    ensures CooldownCovers(StartDash(c, s))
    ensures CooldownCovers(DashTick(s, dt))
    ensures DashTick(s, dt).dashing ==> DashTick(s, dt).cooldownTimer > 0.0
  {
  }

  /** The speed of the move command: moveSpeed, times dashSpeedMultiplier while dashing. */
  function MoveSpeed(c: DashSettings, dashing: bool): real
  {
    if dashing then c.moveSpeed * c.dashSpeedMultiplier else c.moveSpeed
  }

  /**
   * The velocity command of FixedUpdate: the normalized move input at
   * moveSpeed, times dashSpeedMultiplier when a dash was on at the start
   * of the tick.
   */
  function MoveVelocity(c: DashSettings, dashing: bool, moveInput: Vec2, norm: Vec2 -> real): (r: Vec2)
    requires IsNorm(norm)
    ensures r == Scale(Normalized(moveInput, norm), MoveSpeed(c, dashing))
    ensures norm(moveInput) <= NormalizeEpsilon ==> r == Zero
    ensures norm(moveInput) > NormalizeEpsilon ==> SqLen(r) == MoveSpeed(c, dashing) * MoveSpeed(c, dashing)
  {
    var u := Normalized(moveInput, norm);
    var v := Scale(u, c.moveSpeed);
    var r := if dashing then Scale(v, c.dashSpeedMultiplier) else v;
    assert r == Scale(u, MoveSpeed(c, dashing)) by {
      if dashing { ScaleTwice(u, c.moveSpeed, c.dashSpeedMultiplier, MoveSpeed(c, dashing)); }
    }
    assert norm(moveInput) > NormalizeEpsilon ==> SqLen(r) == MoveSpeed(c, dashing) * MoveSpeed(c, dashing) by {
      if norm(moveInput) > NormalizeEpsilon { SqLenScaleUnit(u, MoveSpeed(c, dashing)); }
    }
    r
  }

  class PlayerController {
    const moveSpeed: real
    const dashSpeedMultiplier: real
    const dashDuration: real
    const dashCooldown: real
    const dashGrantsIFrames: bool
    const playerHealth: PlayerHealth?

    var isDashing: bool
    var dashTimer: real
    var dashCooldownTimer: real
    /** rb.linearVelocity */
    var velocity: Vec2

    function Settings(): DashSettings
    {
      DashSettings(moveSpeed, dashSpeedMultiplier, dashDuration, dashCooldown, dashGrantsIFrames)
    }

    function Timers(): DashState
      reads this
    {
      DashState(isDashing, dashTimer, dashCooldownTimer)
    }

    /** Dash invulnerability is applied: while a dash is on, the player is invulnerable. */
    predicate IFramesHeld()
      reads this, playerHealth
    {
      dashGrantsIFrames && playerHealth != null && isDashing ==> playerHealth.invulnerable
    }

    /** The IsDashing property. */
    function IsDashing(): bool
      reads this
    {
      isDashing
    }

    constructor (c: DashSettings, playerHealth: PlayerHealth?)
      ensures Settings() == c && this.playerHealth == playerHealth
      ensures Timers() == DashState(false, 0.0, 0.0) && velocity == Zero
      ensures IFramesHeld()
    {
      moveSpeed := c.moveSpeed;
      dashSpeedMultiplier := c.dashSpeedMultiplier;
      dashDuration := c.dashDuration;
      dashCooldown := c.dashCooldown;
      dashGrantsIFrames := c.dashGrantsIFrames;
      this.playerHealth := playerHealth;
      isDashing := false;
      dashTimer := 0.0;
      dashCooldownTimer := 0.0;
      velocity := Zero;
    }

    method TryDash()
      modifies this, playerHealth
      ensures Timers() == StartDash(Settings(), old(Timers())) && velocity == old(velocity)
      ensures playerHealth != null ==>
                playerHealth.Snapshot() == old(playerHealth.Snapshot()).(invulnerable :=
                  if Started(Settings(), old(Timers())) && dashGrantsIFrames then true else old(playerHealth.invulnerable))
      ensures old(IFramesHeld()) ==> IFramesHeld()
    {
      if isDashing || dashCooldownTimer > 0.0 {
        return;
      }
      isDashing := true;
      dashTimer := dashDuration;
      dashCooldownTimer := dashCooldown;
      if dashGrantsIFrames && playerHealth != null {
        playerHealth.SetInvulnerable(true);
      }
    }

    method EndDash()
      modifies this, playerHealth
      ensures Timers() == old(Timers()).(dashing := false) && velocity == old(velocity)
      ensures playerHealth != null ==>
                playerHealth.Snapshot() == old(playerHealth.Snapshot()).(invulnerable :=
                  if dashGrantsIFrames then false else old(playerHealth.invulnerable))
    {
      isDashing := false;
      if dashGrantsIFrames && playerHealth != null {
        playerHealth.SetInvulnerable(false);
      }
    }

    method FixedUpdate(moveInput: Vec2, dt: real, norm: Vec2 -> real)
      requires IsNorm(norm)
      modifies this, playerHealth
      ensures Timers() == DashTick(old(Timers()), dt)
      ensures velocity == MoveVelocity(Settings(), old(isDashing), moveInput, norm)
      ensures playerHealth != null ==>
                playerHealth.Snapshot() == old(playerHealth.Snapshot()).(invulnerable :=
                  if Ended(old(Timers()), dt) && dashGrantsIFrames then false else old(playerHealth.invulnerable))
      ensures old(IFramesHeld()) ==> IFramesHeld()
    {
      var desired := Scale(Normalized(moveInput, norm), moveSpeed);
      if isDashing {
        desired := Scale(desired, dashSpeedMultiplier);
      }
      velocity := desired;
      if isDashing {
        dashTimer := dashTimer - dt;
        if dashTimer <= 0.0 {
          EndDash();
        }
      }
      if dashCooldownTimer > 0.0 {
        dashCooldownTimer := dashCooldownTimer - dt;
      }
    }
  }
}
