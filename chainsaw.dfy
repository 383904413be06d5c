/**
 * ChainsawWeapon.cs: a melee weapon that burns fuel while the trigger is
 * held and damages every enemy its hitbox touches, in proportion to the
 * frame time.
 *
 * The frame time `Time.deltaTime` is an input; the collider a trigger
 * callback reports is given by whether it is tagged Enemy and by its
 * EnemyHealth component, if it has one.
 */
module Chainsaw {
  import opened Numerics
  import opened Vitals

  /** The fuel after one Fire: none is burnt when the tank is empty, otherwise exactly `fuelDrain * dt`, without a floor. */
  function FuelAfterFire(fuel: real, fuelDrain: real, dt: real): (r: real)
    ensures fuel <= 0.0 ==> r == fuel
    ensures fuel > 0.0 ==> r == fuel - fuelDrain * dt
    ensures fuel > 0.0 && fuelDrain * dt <= fuel ==> r >= 0.0
  {
    if fuel <= 0.0 then fuel else fuel - fuelDrain * dt
  }

  /** The damage of one trigger-stay callback: `dps * dt` rounded half to even. */
  function StayDamage(dps: real, dt: real): (r: int)
    ensures -0.5 <= r as real - dps * dt <= 0.5
    ensures dps * dt >= 0.0 ==> r >= 0
  {
    RoundToInt(dps * dt)
  }

  /** The fuel after Fire calls with the frame times `dts`, in order. */
  function FuelAfterAll(fuel: real, fuelDrain: real, dts: seq<real>): real
    decreases |dts|
  {
    if dts == [] then fuel else FuelAfterFire(FuelAfterAll(fuel, fuelDrain, dts[..|dts| - 1]), fuelDrain, dts[|dts| - 1])
  }

  /**
   * With a non-negative drain and non-negative frame times, fuel never
   * rises, and it overshoots below zero by less than one frame's drain:
   * the first Fire that empties the tank is the last one that burns.
   */
  lemma {:induction false} FuelRunsOut(fuel: real, fuelDrain: real, dts: seq<real>, maxDt: real)
    requires fuelDrain >= 0.0 && maxDt >= 0.0
    requires forall i :: 0 <= i < |dts| ==> 0.0 <= dts[i] <= maxDt
    ensures FuelAfterAll(fuel, fuelDrain, dts) <= fuel
    ensures FuelAfterAll(fuel, fuelDrain, dts) >= (if fuel > 0.0 then -(fuelDrain * maxDt) else fuel)
    decreases |dts|
  {
    if dts != [] {
      var n := |dts| - 1;
      var prefix := dts[..n];
      assert forall i :: 0 <= i < |prefix| ==> 0.0 <= prefix[i] <= maxDt by {
        forall i | 0 <= i < |prefix| ensures 0.0 <= prefix[i] <= maxDt {
          assert prefix[i] == dts[i];
        }
      }
      FuelRunsOut(fuel, fuelDrain, prefix, maxDt);
      assert 0.0 <= dts[n] <= maxDt;
      FuelStep(FuelAfterAll(fuel, fuelDrain, prefix), fuel, fuelDrain, dts[n], maxDt);
    }
  }

  /** One Fire of the run in FuelRunsOut. */
  lemma FuelStep(f: real, fuel: real, fuelDrain: real, dt: real, maxDt: real)
    requires fuelDrain >= 0.0 && 0.0 <= dt <= maxDt
    requires f <= fuel && f >= (if fuel > 0.0 then -(fuelDrain * maxDt) else fuel)
    ensures FuelAfterFire(f, fuelDrain, dt) <= fuel
    ensures FuelAfterFire(f, fuelDrain, dt) >= (if fuel > 0.0 then -(fuelDrain * maxDt) else fuel)
  {
    var burn, most := fuelDrain * dt, fuelDrain * maxDt;
    assert 0.0 <= burn <= most by {
      assert fuelDrain * dt <= fuelDrain * maxDt;
    }
    if f > 0.0 {
      assert fuel > 0.0;
    }
  }

  class ChainsawWeapon {
    const dps: real
    const fuelDrain: real
    var fuel: real
    var active: bool
    /** hitbox.enabled */
    var hitboxEnabled: bool

    constructor (dps: real, fuel: real, fuelDrain: real)
      ensures this.dps == dps && this.fuelDrain == fuelDrain
      ensures this.fuel == fuel && !active && !hitboxEnabled
    {
      this.dps := dps;
      this.fuelDrain := fuelDrain;
      this.fuel := fuel;
      active := false;
      hitboxEnabled := false;
    }

    /** Fire for a frame of length `dt`: switches the saw on and burns fuel, unless the tank is empty. */
    method Fire(dt: real)
      modifies this
      ensures fuel == FuelAfterFire(old(fuel), fuelDrain, dt)
      ensures !old(HasAmmo()) ==> active == old(active) && hitboxEnabled == old(hitboxEnabled)
      ensures old(HasAmmo()) ==> active && hitboxEnabled
    {
      if fuel <= 0.0 {
        return;
      }
      active := true;
      hitboxEnabled := true;
      fuel := fuel - fuelDrain * dt;
    }

    method StopFire()
      modifies this
      ensures !active && !hitboxEnabled && fuel == old(fuel)
    {
      active := false;
      hitboxEnabled := false;
    }

    /** Refuelling is not implemented: Reload changes nothing. */
    method Reload()
    {
    }

    /** Some fuel is left. */
    predicate HasAmmo()
      reads this
    {
      fuel > 0.0
    }

    /**
     * The trigger-stay callback for a frame of length `dt`: while the saw
     * is on, an Enemy-tagged collider with an EnemyHealth takes
     * StayDamage(dps, dt); otherwise nothing changes.
     */
    method OnTriggerStay2D(isEnemy: bool, e: EnemyHealth?, dt: real)
      modifies e
      ensures active && isEnemy && e != null ==> e.Snapshot() == EnemyDamaged(old(e.Snapshot()), StayDamage(dps, dt))
      ensures !(active && isEnemy) && e != null ==> e.Snapshot() == old(e.Snapshot())
    {
      if !active {
        return;
      }
      if isEnemy {
        if e != null {
          e.TakeDamage(RoundToInt(dps * dt));
        }
      }
    }
  }
}
