/**
 * BoomstickWeapon.cs: a semi-automatic shotgun with a clip, a reserve,
 * a fire-rate gate, and a timed reload that refills the clip from the
 * reserve.
 *
 * The game clock `Time.time` is an input of the calls that read it. The
 * pellets themselves are not modelled; each shot is counted as one
 * volley. The reload coroutine is split in two: Fire starts it, and
 * ResumeReload is its resumption once the reload time has passed.
 */
module Boomstick {
  import opened Numerics

  datatype BoomSettings = BoomSettings(clipSize: int, shotsPerSecond: real, isAutomatic: bool, reloadTime: real)

  /**
   * The weapon's state: clip and reserve ammunition, the fire-rate gate,
   * the semi-automatic "held" flag, whether a reload is pending and when
   * it finishes, and the number of volleys fired.
   */
  datatype Boom = Boom(
    currentAmmo: int,
    reserveAmmo: int,
    nextFireTime: real,
    wasHeld: bool,
    isReloading: bool,
    reloadDoneAt: real,
    volleys: nat)

  /** The least allowed fire rate, in shots per second. */
  const MinShotsPerSecond: real := 0.01

  /** The clip after Start: an empty clip means "start full", and the result is clamped to [0, clipSize]. */
  function StartAmmo(clipSize: int, currentAmmo: int): (r: int)
    ensures clipSize >= 0 ==> 0 <= r <= clipSize
    ensures currentAmmo == 0 ==> r == MaxI(clipSize, 0)
    ensures 0 < currentAmmo <= clipSize ==> r == currentAmmo
    ensures currentAmmo > clipSize >= 0 ==> r == clipSize
  {
    ClampI(if currentAmmo == 0 then clipSize else currentAmmo, 0, clipSize)
  }

  /** The time between two shots: the inverse of the fire rate, which is floored at 0.01. */
  function ShotGap(shotsPerSecond: real): (r: real)
    ensures r > 0.0
    ensures shotsPerSecond >= MinShotsPerSecond ==> r * shotsPerSecond == 1.0
    ensures r <= 1.0 / MinShotsPerSecond
  {
    var rate := MaxR(MinShotsPerSecond, shotsPerSecond);
    assert (1.0 / rate) * rate == 1.0;
    assert 1.0 / rate <= 1.0 / MinShotsPerSecond by {
      assert (1.0 / rate) * rate == 1.0;
      assert (1.0 / rate) * MinShotsPerSecond <= (1.0 / rate) * rate;
    }
    1.0 / rate
  }

  /**
   * The end of a reload: `min(clipSize - currentAmmo, reserveAmmo)`
   * rounds move from the reserve to the clip. Nothing is created or
   * lost, and from a sane state the clip ends full or the reserve empty.
   */
  function ReloadTransfer(clipSize: int, current: int, reserve: int): (r: (int, int))
    ensures r.0 + r.1 == current + reserve
    ensures current <= clipSize && reserve >= 0 ==>
              && current <= r.0 <= clipSize
              && 0 <= r.1 <= reserve
              && (r.0 == clipSize || r.1 == 0)
  {
    var load := MinI(clipSize - current, reserve);
    (current + load, reserve - load)
  }

  /** Fire is refused: a reload is pending, the fire-rate gate is closed, or a semi-automatic trigger is still held. */
  predicate Blocked(c: BoomSettings, s: Boom, now: real)
  {
    s.isReloading || now < s.nextFireTime || (!c.isAutomatic && s.wasHeld)
  }

  /**
   * Fire at time `now`. A refused call changes nothing. With an empty
   * clip it starts a reload, which ends `reloadTime` later, and leaves
   * the ammunition as it is. Otherwise it fires one volley, spends
   * exactly one round and closes the fire-rate gate for one ShotGap.
   */
  function Fired(c: BoomSettings, s: Boom, now: real): (r: Boom)
    ensures Blocked(c, s, now) ==> r == s
    ensures !Blocked(c, s, now) && s.currentAmmo <= 0 ==>
              r == s.(isReloading := true, reloadDoneAt := now + c.reloadTime)
    ensures !Blocked(c, s, now) && s.currentAmmo > 0 ==>
              && r.currentAmmo == s.currentAmmo - 1 && r.reserveAmmo == s.reserveAmmo
              && r.volleys == s.volleys + 1
              && r.nextFireTime == now + ShotGap(c.shotsPerSecond) && r.nextFireTime > now
              && r.wasHeld == s.wasHeld && !r.isReloading && r.reloadDoneAt == s.reloadDoneAt
    ensures r.volleys > s.volleys ==> now >= s.nextFireTime
  {
    if Blocked(c, s, now) then s
    else if s.currentAmmo <= 0 then s.(isReloading := true, reloadDoneAt := now + c.reloadTime)
    else s.(currentAmmo := s.currentAmmo - 1, nextFireTime := now + ShotGap(c.shotsPerSecond), volleys := s.volleys + 1)
  }

  /** The manual Reload: refused while a reload is pending, otherwise the clip is set full and the reserve is left alone. */
  function Reloaded(c: BoomSettings, s: Boom): (r: Boom)
    ensures s.isReloading ==> r == s
    ensures !s.isReloading ==> r == s.(currentAmmo := c.clipSize)
    ensures !r.isReloading || s.isReloading
  {
    if s.isReloading then s else s.(currentAmmo := c.clipSize)
  }

  /**
   * The reload coroutine resuming at time `now`: once the reload time
   * has passed, the clip is refilled from the reserve and the reload
   * ends. Before that, or with no reload pending, nothing changes.
   */
  function Resumed(c: BoomSettings, s: Boom, now: real): (r: Boom)
    ensures !s.isReloading || now < s.reloadDoneAt ==> r == s
    ensures s.isReloading && now >= s.reloadDoneAt ==>
              && (r.currentAmmo, r.reserveAmmo) == ReloadTransfer(c.clipSize, s.currentAmmo, s.reserveAmmo)
              && !r.isReloading && r.volleys == s.volleys && r.nextFireTime == s.nextFireTime
              && r.wasHeld == s.wasHeld && r.reloadDoneAt == s.reloadDoneAt
  {
    if s.isReloading && now >= s.reloadDoneAt then
      var (current, reserve) := ReloadTransfer(c.clipSize, s.currentAmmo, s.reserveAmmo);
      s.(currentAmmo := current, reserveAmmo := reserve, isReloading := false)
    else s
  }

  /** The clip is within [0, clipSize] and the reserve is not negative. */
  predicate Sane(c: BoomSettings, s: Boom)
  {
    0 <= s.currentAmmo <= c.clipSize && s.reserveAmmo >= 0
  }

  /** What the player does to the weapon: trigger pulls at a time, holding, releasing, reloading, and the reload coroutine resuming. */
  datatype WeaponEvent = Pull(now: real) | Hold | Release | ManualReload | Resume(now: real)

  function Apply(c: BoomSettings, s: Boom, e: WeaponEvent): Boom
  {
    match e
    case Pull(now) => Fired(c, s, now)
    case Hold => s.(wasHeld := true)
    case Release => s.(wasHeld := false)
    case ManualReload => Reloaded(c, s)
    case Resume(now) => Resumed(c, s, now)
  }

  function Run(c: BoomSettings, s: Boom, events: seq<WeaponEvent>): Boom
    decreases |events|
  {
    if events == [] then s else Apply(c, Run(c, s, events[..|events| - 1]), events[|events| - 1])
  }

  /**
   * Ammunition accounting: without a manual Reload (which creates rounds),
   * every round in clip and reserve is either still there or was fired
   * in a volley; and the clip and reserve stay sane.
   */
  lemma {:induction false} AmmoAccounted(c: BoomSettings, s: Boom, events: seq<WeaponEvent>)
    requires Sane(c, s)
    requires forall i :: 0 <= i < |events| ==> events[i] != ManualReload
    ensures var r := Run(c, s, events);
      && r.currentAmmo + r.reserveAmmo + r.volleys == s.currentAmmo + s.reserveAmmo + s.volleys
      && Sane(c, r)
    decreases |events|
  {
    if events != [] {
      var n := |events| - 1;
      var prefix := events[..n];
      assert forall i :: 0 <= i < |prefix| ==> prefix[i] != ManualReload by {
        forall i | 0 <= i < |prefix| ensures prefix[i] != ManualReload {
          assert prefix[i] == events[i];
        }
      }
      AmmoAccounted(c, s, prefix);
      assert events[n] != ManualReload;
    }
  }

  /** A manual Reload keeps the state sane as well (given a non-negative clip size). */
  lemma ReloadKeepsSane(c: BoomSettings, s: Boom)
    requires Sane(c, s)
    ensures Sane(c, Reloaded(c, s))
  {
  }

  /**
   * Semi-automatic fire: once the trigger is held, no further volley is
   * fired until it is released, however often Fire is called.
   */
  lemma {:induction false} HeldTriggerFiresNothing(c: BoomSettings, s: Boom, events: seq<WeaponEvent>)
    requires !c.isAutomatic && s.wasHeld
    requires forall i :: 0 <= i < |events| ==> events[i] != Release
    ensures Run(c, s, events).volleys == s.volleys
    ensures Run(c, s, events).wasHeld
    decreases |events|
  {
    if events != [] {
      var n := |events| - 1;
      var prefix := events[..n];
      assert forall i :: 0 <= i < |prefix| ==> prefix[i] != Release by {
        forall i | 0 <= i < |prefix| ensures prefix[i] != Release {
          assert prefix[i] == events[i];
        }
      }
      HeldTriggerFiresNothing(c, s, prefix);
      assert events[n] != Release;
    }
  }

  class BoomstickWeapon {
    const clipSize: int
    const shotsPerSecond: real
    const isAutomatic: bool
    const reloadTime: real

    var currentAmmo: int
    var reserveAmmo: int
    var nextFireTime: real
    var wasHeldLastFrame: bool
    var isReloading: bool
    /** When the pending reload coroutine resumes. */
    var reloadDoneAt: real
    /** ShootPellets calls so far. */
    var volleys: nat

    function Settings(): BoomSettings
    {
      BoomSettings(clipSize, shotsPerSecond, isAutomatic, reloadTime)
    }

    function Snapshot(): Boom
      reads this
    {
      Boom(currentAmmo, reserveAmmo, nextFireTime, wasHeldLastFrame, isReloading, reloadDoneAt, volleys)
    }

    /** The inspector values followed by Start, which normalizes the clip. */
    constructor (c: BoomSettings, currentAmmo: int, reserveAmmo: int)
      ensures Settings() == c
      ensures Snapshot() == Boom(StartAmmo(c.clipSize, currentAmmo), reserveAmmo, 0.0, false, false, 0.0, 0)
      ensures c.clipSize >= 0 && reserveAmmo >= 0 ==> Sane(c, Snapshot())
    {
      clipSize := c.clipSize;
      shotsPerSecond := c.shotsPerSecond;
      isAutomatic := c.isAutomatic;
      reloadTime := c.reloadTime;
      this.currentAmmo := ClampI(if currentAmmo == 0 then c.clipSize else currentAmmo, 0, c.clipSize);
      this.reserveAmmo := reserveAmmo;
      nextFireTime := 0.0;
      wasHeldLastFrame := false;
      isReloading := false;
      reloadDoneAt := 0.0;
      volleys := 0;
    }

    method Fire(now: real)
      modifies this
      ensures Snapshot() == Fired(Settings(), old(Snapshot()), now)
    {
      if isReloading || now < nextFireTime {
        return;
      }
      if !isAutomatic && wasHeldLastFrame {
        return;
      }
      if currentAmmo <= 0 {
        isReloading := true;
        reloadDoneAt := now + reloadTime;
        return;
      }
      volleys := volleys + 1;
      currentAmmo := currentAmmo - 1;
      nextFireTime := now + 1.0 / MaxR(MinShotsPerSecond, shotsPerSecond);
    }

    method Reload()
      modifies this
      ensures Snapshot() == Reloaded(Settings(), old(Snapshot()))
    {
      if isReloading {
        return;
      }
      isReloading := true;
      currentAmmo := clipSize;
      isReloading := false;
    }

    /** The reload coroutine after its wait. */
    method ResumeReload(now: real)
      modifies this
      ensures Snapshot() == Resumed(Settings(), old(Snapshot()), now)
    {
      if !isReloading || now < reloadDoneAt {
        return;
      }
      var need := clipSize - currentAmmo;
      var load := MinI(need, reserveAmmo);
      currentAmmo := currentAmmo + load;
      reserveAmmo := reserveAmmo - load;
      isReloading := false;
    }

    /** Some ammunition is left, in the clip or in the reserve. */
    function HasAmmo(): (r: bool)
      reads this
      ensures currentAmmo >= 0 && reserveAmmo >= 0 ==> (r <==> currentAmmo + reserveAmmo > 0)
    {
      currentAmmo > 0 || reserveAmmo > 0
    }

    method StopFire()
      modifies this
      ensures Snapshot() == old(Snapshot()).(wasHeld := false)
    {
      wasHeldLastFrame := false;
    }

    method MarkHeldThisFrame()
      modifies this
      ensures Snapshot() == old(Snapshot()).(wasHeld := true)
    {
      wasHeldLastFrame := true;
    }
  }
}
