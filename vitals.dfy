/**
 * Hit points. PlayerHealth.cs keeps the player's HP between 0 and maxHP
 * and raises C# events; EnemyHealth.cs subtracts damage without any
 * clamp and destroys the enemy once HP is at or below zero.
 *
 * The C# events OnHealthChanged and OnDeath are recorded, in order, in a
 * log of HealthEvent values; what subscribers do with them is not part
 * of this model.
 */
module Vitals {
  import opened Numerics

  datatype HealthEvent = HealthChanged(current: int, max: int) | Died

  /** The player's health state: HP, the invulnerability flag, whether the game object is active, and the event log. */
  datatype PlayerVitals = PlayerVitals(hp: int, invulnerable: bool, active: bool, events: seq<HealthEvent>)

  /** The range PlayerHealth keeps HP in. */
  predicate InRange(v: PlayerVitals, maxHP: int)
  {
    0 <= v.hp <= maxHP
  }

  /**
   * PlayerHealth.TakeDamage. Ignored while invulnerable or for a
   * non-positive amount. Otherwise HP drops by `amount` but not below 0,
   * OnHealthChanged is raised, and when HP is then 0 the player dies
   * (OnDeath, then the object is deactivated), on every such hit.
   */
  function Damaged(v: PlayerVitals, maxHP: int, amount: int): (r: PlayerVitals)
    ensures v.invulnerable || amount <= 0 ==> r == v
    ensures !v.invulnerable && amount > 0 ==>
              && r.hp >= 0
              && (r.hp == 0 <==> amount >= v.hp)
              && (r.hp > 0 ==> r.hp == v.hp - amount)
              && r.invulnerable == v.invulnerable
              && r.active == (v.active && r.hp != 0)
              && r.events == v.events + [HealthChanged(r.hp, maxHP)] + (if r.hp == 0 then [Died] else [])
    ensures InRange(v, maxHP) ==> InRange(r, maxHP) && r.hp <= v.hp
  {
    if v.invulnerable || amount <= 0 then v
    else
      var hp := MaxI(0, v.hp - amount);
      var changed := v.(hp := hp, events := v.events + [HealthChanged(hp, maxHP)]);
      if hp == 0 then changed.(active := false, events := changed.events + [Died]) else changed
  }

  /**
   * PlayerHealth.Heal. Ignored for a non-positive amount. Otherwise HP
   * rises by `amount` but not above maxHP, and OnHealthChanged is raised.
   */
  function Healed(v: PlayerVitals, maxHP: int, amount: int): (r: PlayerVitals)
    ensures amount <= 0 ==> r == v
    ensures amount > 0 ==>
              && r.hp <= maxHP
              && (r.hp == maxHP || r.hp == v.hp + amount)
              && (r.hp == maxHP <==> v.hp + amount >= maxHP)
              && r.invulnerable == v.invulnerable && r.active == v.active
              && r.events == v.events + [HealthChanged(r.hp, maxHP)]
    ensures InRange(v, maxHP) ==> InRange(r, maxHP) && r.hp >= v.hp
  {
    if amount <= 0 then v
    else
      var hp := MinI(maxHP, v.hp + amount);
      v.(hp := hp, events := v.events + [HealthChanged(hp, maxHP)])
  }

  /** The number of deaths in an event log. */
  function Deaths(events: seq<HealthEvent>): nat
  {
    if events == [] then 0 else Deaths(events[..|events| - 1]) + (if events[|events| - 1] == Died then 1 else 0)
  }

  /** The player's state after a run of TakeDamage calls with the given amounts. */
  function DamagedAll(v: PlayerVitals, maxHP: int, amounts: seq<int>): PlayerVitals
    decreases |amounts|
  {
    if amounts == [] then v else Damaged(DamagedAll(v, maxHP, amounts[..|amounts| - 1]), maxHP, amounts[|amounts| - 1])
  }

  /**
   * Hits keep HP within [0, maxHP] and never raise it, each hit adds at
   * most one death to the log, and while invulnerable the state does not
   * change at all.
   */
  lemma {:induction false} DamagedAllSpec(v: PlayerVitals, maxHP: int, amounts: seq<int>)
    requires InRange(v, maxHP)
    ensures var r := DamagedAll(v, maxHP, amounts);
      && InRange(r, maxHP) && r.hp <= v.hp
      && r.invulnerable == v.invulnerable
      && Deaths(r.events) <= Deaths(v.events) + |amounts|
      && (v.invulnerable ==> r == v)
    decreases |amounts|
  {
    if amounts != [] {
      var n := |amounts| - 1;
      DamagedAllSpec(v, maxHP, amounts[..n]);
      var w := DamagedAll(v, maxHP, amounts[..n]);
      var r := Damaged(w, maxHP, amounts[n]);
      if !w.invulnerable && amounts[n] > 0 {
        var mid := w.events + [HealthChanged(r.hp, maxHP)];
        DeathsAppend(w.events, HealthChanged(r.hp, maxHP));
        if r.hp == 0 {
          DeathsAppend(mid, Died);
        }
      }
    }
  }

  lemma DeathsAppend(events: seq<HealthEvent>, e: HealthEvent)
    ensures Deaths(events + [e]) == Deaths(events) + (if e == Died then 1 else 0)
  {
    assert (events + [e])[..|events|] == events;
  }

  /** The enemy's health state: HP, whether Destroy was requested, and how often Die ran. */
  datatype EnemyVitals = EnemyVitals(hp: int, destroyed: bool, dieCalls: nat)

  /**
   * EnemyHealth.TakeDamage: HP drops by exactly `dmg` (a negative amount
   * heals past maxHP), and Die runs, requesting the object's destruction,
   * whenever HP is then at or below zero. Die does not report to the
   * wave scheduler.
   */
  function EnemyDamaged(e: EnemyVitals, dmg: int): (r: EnemyVitals)
    ensures r.hp == e.hp - dmg
    ensures r.dieCalls == e.dieCalls + (if r.hp <= 0 then 1 else 0)
    ensures r.destroyed <==> e.destroyed || r.hp <= 0
  {
    var hp := e.hp - dmg;
    if hp <= 0 then EnemyVitals(hp, true, e.dieCalls + 1) else e.(hp := hp)
  }

  class PlayerHealth {
    const maxHP: int
    var currentHP: int
    var invulnerable: bool
    /** gameObject.activeSelf */
    var active: bool
    /** The OnHealthChanged and OnDeath invocations so far. */
    var events: seq<HealthEvent>

    function Snapshot(): PlayerVitals
      reads this
    {
      PlayerVitals(currentHP, invulnerable, active, events)
    }

    /** Awake: full health, announced through OnHealthChanged. */
    constructor (maxHP: int, invulnerable: bool)
      ensures this.maxHP == maxHP
      ensures Snapshot() == PlayerVitals(maxHP, invulnerable, true, [HealthChanged(maxHP, maxHP)])
      ensures maxHP >= 0 ==> InRange(Snapshot(), maxHP)
    {
      this.maxHP := maxHP;
      currentHP := maxHP;
      this.invulnerable := invulnerable;
      active := true;
      events := [HealthChanged(maxHP, maxHP)];
    }

    method TakeDamage(amount: int)
      modifies this
      ensures Snapshot() == Damaged(old(Snapshot()), maxHP, amount)
    {
      if invulnerable || amount <= 0 {
        return;
      }
      currentHP := MaxI(0, currentHP - amount);
      events := events + [HealthChanged(currentHP, maxHP)];
      if currentHP == 0 {
        Die();
      }
    }

    method Heal(amount: int)
      modifies this
      ensures Snapshot() == Healed(old(Snapshot()), maxHP, amount)
    {
      if amount <= 0 {
        return;
      }
      currentHP := MinI(maxHP, currentHP + amount);
      events := events + [HealthChanged(currentHP, maxHP)];
    }

    /** OnDeath, then the game object is deactivated. */
    method Die()
      modifies this
      ensures Snapshot() == old(Snapshot()).(active := false, events := old(events) + [Died])
    {
      events := events + [Died];
      active := false;
    }

    method SetInvulnerable(value: bool)
      modifies this
      ensures Snapshot() == old(Snapshot()).(invulnerable := value)
    {
      invulnerable := value;
    }
  }

  class EnemyHealth {
    const maxHP: int
    var currentHP: int
    /** Destroy(gameObject) was requested. */
    var destroyed: bool
    /** How many times Die ran. */
    var dieCalls: nat

    function Snapshot(): EnemyVitals
      reads this
    {
      EnemyVitals(currentHP, destroyed, dieCalls)
    }

    /** Awake: full health. */
    constructor (maxHP: int)
      ensures this.maxHP == maxHP && Snapshot() == EnemyVitals(maxHP, false, 0)
    {
      this.maxHP := maxHP;
      currentHP := maxHP;
      destroyed := false;
      dieCalls := 0;
    }

    method TakeDamage(dmg: int)
      modifies this
      ensures Snapshot() == EnemyDamaged(old(Snapshot()), dmg)
    {
      currentHP := currentHP - dmg;
      if currentHP <= 0 {
        Die();
      }
    }

    method Die()
      modifies this
      ensures Snapshot() == old(Snapshot()).(destroyed := true, dieCalls := old(dieCalls) + 1)
    {
      destroyed := true;
      dieCalls := dieCalls + 1;
    }
  }
}
