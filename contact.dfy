/**
 * EnemyContactDamage.cs: an enemy hurts the player it touches, at most
 * once per hit cooldown. Both the collision-enter and collision-stay
 * callbacks go through the same gate.
 *
 * The collider is given by whether it is tagged Player and by its
 * PlayerHealth component, if it has one; the knockback impulse is not
 * part of this model.
 */
module Contact {
  import opened Vitals

  /**
   * The hit-cooldown timer after Update: it loses `dt` only while it is
   * positive, so once at or below zero it stays where it is.
   */
  function CooldownAfter(timer: real, dt: real): (r: real)
    ensures timer > 0.0 ==> r == timer - dt
    ensures timer <= 0.0 ==> r == timer
  {
    if timer > 0.0 then timer - dt else timer
  }

  /** A hit lands: the cooldown has run out, the collider is the player, and it has a PlayerHealth. */
  predicate Lands(timer: real, isPlayer: bool, hasHealth: bool)
  {
    timer <= 0.0 && isPlayer && hasHealth
  }

  /** The timer after a run of Update calls with the steps `dts`, in order. */
  function CooldownAfterAll(timer: real, dts: seq<real>): real
    decreases |dts|
  {
    if dts == [] then timer else CooldownAfter(CooldownAfterAll(timer, dts[..|dts| - 1]), dts[|dts| - 1])
  }

  /**
   * Over any run of Update calls with steps between 0 and `maxStep`, the
   * timer never rises, and a running cooldown never overshoots zero by
   * more than one step.
   */
  lemma {:induction false} CooldownRunsDown(timer: real, dts: seq<real>, maxStep: real)
    requires maxStep >= 0.0
    requires forall i :: 0 <= i < |dts| ==> 0.0 <= dts[i] <= maxStep
    ensures CooldownAfterAll(timer, dts) <= timer
    ensures CooldownAfterAll(timer, dts) >= (if timer > 0.0 then -maxStep else timer)
    decreases |dts|
  {
    if dts != [] {
      var n := |dts| - 1;
      assert forall i :: 0 <= i < n ==> 0.0 <= dts[..n][i] <= maxStep by {
        forall i | 0 <= i < n ensures 0.0 <= dts[..n][i] <= maxStep {
          assert dts[..n][i] == dts[i];
        }
      }
      CooldownRunsDown(timer, dts[..n], maxStep);
      assert 0.0 <= dts[n] <= maxStep;
    }
  }

  class EnemyContactDamage {
    const damage: int
    const hitCooldown: real
    var timer: real

    constructor (damage: int, hitCooldown: real)
      ensures this.damage == damage && this.hitCooldown == hitCooldown && timer == 0.0
    {
      this.damage := damage;
      this.hitCooldown := hitCooldown;
      timer := 0.0;
    }

    method Update(dt: real)
      modifies this
      ensures timer == CooldownAfter(old(timer), dt)
    {
      if timer > 0.0 {
        timer := timer - dt;
      }
    }

    /**
     * A landing hit calls TakeDamage(damage) on the player's health once
     * and restarts the cooldown; anything else changes nothing.
     */
    method TryHit(isPlayer: bool, hp: PlayerHealth?)
      modifies this, hp
      ensures Lands(old(timer), isPlayer, hp != null) ==>
                timer == hitCooldown && hp.Snapshot() == Damaged(old(hp.Snapshot()), hp.maxHP, damage)
      ensures !Lands(old(timer), isPlayer, hp != null) ==>
                timer == old(timer) && (hp != null ==> hp.Snapshot() == old(hp.Snapshot()))
    {
      if timer > 0.0 {
        return;
      }
      if !isPlayer {
        return;
      }
      if hp != null {
        hp.TakeDamage(damage);
        timer := hitCooldown;
      }
    }

    method OnCollisionEnter2D(isPlayer: bool, hp: PlayerHealth?)
      modifies this, hp
      ensures Lands(old(timer), isPlayer, hp != null) ==>
                timer == hitCooldown && hp.Snapshot() == Damaged(old(hp.Snapshot()), hp.maxHP, damage)
      ensures !Lands(old(timer), isPlayer, hp != null) ==>
                timer == old(timer) && (hp != null ==> hp.Snapshot() == old(hp.Snapshot()))
    {
      TryHit(isPlayer, hp);
    }

    method OnCollisionStay2D(isPlayer: bool, hp: PlayerHealth?)
      modifies this, hp
      ensures Lands(old(timer), isPlayer, hp != null) ==>
                timer == hitCooldown && hp.Snapshot() == Damaged(old(hp.Snapshot()), hp.maxHP, damage)
      ensures !Lands(old(timer), isPlayer, hp != null) ==>
                timer == old(timer) && (hp != null ==> hp.Snapshot() == old(hp.Snapshot()))
    {
      TryHit(isPlayer, hp);
    }
  }
}
