/**
 * WaveManager.cs: the wave scheduler.
 *
 * The scheduler keeps a population counter (`alive`), a running flag, the
 * index of the current wave and a coroutine (RunAllWaves) that starts the
 * waves one after another. The coroutine is modelled as a resumable state
 * machine: `Phase` says where it is suspended, and one Step runs it from
 * there to the next control point. Random picks, the player's position and
 * elapsed time are inputs of Step. Enemy deaths reach the scheduler only
 * through ReportEnemyDeath, which nothing in the model calls on its own.
 *
 * Each operation is given twice: as a function on a `Sched` snapshot, which
 * the lemmas reason about, and as a method of the class WaveManager, which
 * updates the fields in place and is proved to agree with the function.
 */
module Waves {
  import opened Options
  import opened Numerics
  import opened Geometry

  // ----------------- DATA -----------------

  /** One spawn group: which prefab, how many, and the pause after each spawn. */
  datatype WaveEntry = WaveEntry(enemyPrefab: nat, count: int, spawnInterval: real)

  /** A wave: a display name, its spawn groups in order, and the rest after it clears. */
  datatype Wave = Wave(name: string, entries: seq<WaveEntry>, restAfterWave: real)

  /** An Instantiate call made by the scheduler: the prefab and the spawn point's index. */
  datatype SpawnRecord = SpawnRecord(enemyPrefab: nat, point: nat)

  /** The floor on a rescaled spawn interval. */
  const IntervalFloor: real := 0.05

  /** Rescaled intervals are divided by this constant times the scale factor. */
  const IntervalDivisor: real := 0.9

  /** Number of checked random picks before the unchecked fallback pick. */
  const SpawnAttempts: nat := 10

  /** The inspector settings, fixed for the lifetime of a run. */
  datatype Settings = Settings(
    spawnPoints: seq<Vec2>,
    loopWaves: bool,
    loopScaleFactor: real,
    startDelay: real,
    minSpawnDistanceFromPlayer: real,
    maxAliveCap: int)
  {
    /**
     * A zero scale factor would divide by zero when intervals are rescaled,
     * which only happens when the waves loop.
     */
    predicate WellFormed() { loopWaves ==> loopScaleFactor != 0.0 }
  }

  /** Where the RunAllWaves coroutine is suspended, or Done when there is none. */
  datatype Phase =
    | Done
      /** `yield return new WaitForSeconds(startDelay)`, with the time still to wait */
    | StartDelay(left: real)
      /** the head of `while (_running)` */
    | NextWave
      /** the head of the `for` loop over spawn `spawned` of entry `entry` */
    | NextSpawn(entry: nat, spawned: nat)
      /** the alive-cap throttle before spawn `spawned` of entry `entry` */
    | Throttle(entry: nat, spawned: nat)
      /** `WaitForSeconds(entry.spawnInterval)` after that spawn */
    | SpawnInterval(entry: nat, spawned: nat, left: real)
      /** the wave-clear wait `while (_alive > 0 && _running)` */
    | ClearWait
      /** `WaitForSeconds(w.restAfterWave)` */
    | Rest(left: real)

  /** The scheduler's mutable state. */
  datatype Sched = Sched(
    waves: seq<Wave>,
    waveIndex: int,
    alive: int,
    running: bool,
    phase: Phase,
    spawnLog: seq<SpawnRecord>)

  /** The current wave exists and has an entry numbered `e`. */
  predicate HasEntry(s: Sched, e: nat)
  {
    0 <= s.waveIndex < |s.waves| && e < |s.waves[s.waveIndex].entries|
  }

  /** Every logged spawn used a configured spawn point. */
  ghost predicate LogFits(c: Settings, log: seq<SpawnRecord>)
  {
    forall k :: 0 <= k < |log| ==> log[k].point < |c.spawnPoints|
  }

  /** A suspended coroutine refers to an existing wave and entry. */
  predicate PhaseFits(waves: seq<Wave>, waveIndex: int, phase: Phase)
  {
    match phase
    case NextSpawn(e, _) => 0 <= waveIndex < |waves| && e <= |waves[waveIndex].entries|
    case Throttle(e, _) => 0 <= waveIndex < |waves| && e < |waves[waveIndex].entries|
    case SpawnInterval(e, _, _) => 0 <= waveIndex < |waves| && e < |waves[waveIndex].entries|
    case ClearWait => 0 <= waveIndex < |waves|
    case Done => true
    case _ => waveIndex < |waves|
  }

  /**
   * The invariant of the scheduler: the counter is never negative, the
   * index stays within [-1, |waves|], every logged spawn used a configured
   * spawn point, and a suspended coroutine refers to an existing wave and
   * entry.
   */
  ghost predicate Consistent(c: Settings, s: Sched)
  {
    && s.alive >= 0
    && -1 <= s.waveIndex <= |s.waves|
    && LogFits(c, s.spawnLog)
    && PhaseFits(s.waves, s.waveIndex, s.phase)
  }

  /** A suspended coroutine only exists while the running flag is set. */
  predicate Live(s: Sched)
  {
    s.phase != Done ==> s.running
  }

  /** The population is within the cap (or zero, for a cap below one). */
  predicate WithinCap(c: Settings, s: Sched)
  {
    s.alive <= MaxI(c.maxAliveCap, 0)
  }

  // ----------------- LOOP SCALING -----------------

  /**
   * One entry rescaled on a wrap: the count is multiplied by `factor` and
   * rounded half-to-even, the interval is multiplied by `1 / (0.9 * factor)`
   * and floored at 0.05.
   */
  function ScaleEntry(e: WaveEntry, factor: real): WaveEntry
    requires factor != 0.0
  {
    e.(count := RoundToInt(e.count as real * factor),
       spawnInterval := MaxR(IntervalFloor, e.spawnInterval * (1.0 / (IntervalDivisor * factor))))
  }

  /**
   * What rescaling does to one entry: the prefab is kept; the new count is
   * the nearest integer to `count * factor`, the even one on a tie; the new
   * interval is `interval / (0.9 * factor)` unless that is below 0.05, in
   * which case it is 0.05.
   */
  lemma ScaleEntrySpec(e: WaveEntry, factor: real)
    requires factor != 0.0
    ensures var r := ScaleEntry(e, factor);
      && r.enemyPrefab == e.enemyPrefab
      && -0.5 <= r.count as real - e.count as real * factor <= 0.5
      && ((r.count as real - e.count as real * factor == 0.5
           || e.count as real * factor - r.count as real == 0.5) ==> r.count % 2 == 0)
      && r.spawnInterval >= IntervalFloor
      && r.spawnInterval >= e.spawnInterval * (1.0 / (IntervalDivisor * factor))
      && (r.spawnInterval == IntervalFloor
          || r.spawnInterval == e.spawnInterval * (1.0 / (IntervalDivisor * factor)))
  {
  }

  function ScaleEntries(es: seq<WaveEntry>, factor: real): (r: seq<WaveEntry>)
    requires factor != 0.0
    ensures |r| == |es|
  {
    seq(|es|, i requires 0 <= i < |es| => ScaleEntry(es[i], factor))
  }

  function ScaleWave(w: Wave, factor: real): Wave
    requires factor != 0.0
  {
    w.(entries := ScaleEntries(w.entries, factor))
  }

  /** ScaleWaves: every entry of every wave rescaled. */
  function ScaleAll(ws: seq<Wave>, factor: real): (r: seq<Wave>)
    requires factor != 0.0
    ensures |r| == |ws|
  {
    seq(|ws|, k requires 0 <= k < |ws| => ScaleWave(ws[k], factor))
  }

  /**
   * Rescaling keeps the number of waves, their names and rests, the number
   * of entries and their prefabs, and leaves every interval at or above the
   * floor.
   */
  lemma ScaleAllShape(ws: seq<Wave>, factor: real)
    requires factor != 0.0
    ensures |ScaleAll(ws, factor)| == |ws|
    ensures forall k :: 0 <= k < |ws| ==>
      var w, w' := ws[k], ScaleAll(ws, factor)[k];
      && w'.name == w.name
      && w'.restAfterWave == w.restAfterWave
      && |w'.entries| == |w.entries|
      && forall i :: 0 <= i < |w.entries| ==>
           && w'.entries[i].enemyPrefab == w.entries[i].enemyPrefab
           && w'.entries[i].spawnInterval >= IntervalFloor
           && -0.5 <= w'.entries[i].count as real - w.entries[i].count as real * factor <= 0.5
  {
  }

  /** A wave whose counts are all zero stays so: rounding 0 * factor gives 0. */
  lemma ScaleKeepsEmptyCounts(e: WaveEntry, factor: real)
    requires factor != 0.0 && e.count == 0
    ensures ScaleEntry(e, factor).count == 0
  {
    RoundToIntOfInt(0);
  }

  // ----------------- SPAWN-POINT CHOICE -----------------

  /**
   * `Vector2.Distance(p, player) >= minDist`, without a square root: a
   * non-positive minimum always holds, otherwise compare squares.
   */
  predicate FarEnough(p: Vec2, player: Vec2, minDist: real)
  {
    minDist <= 0.0 || SqLen(Sub(p, player)) >= minDist * minDist
  }

  /** FarEnough agrees with a comparison of the true distance. */
  lemma FarEnoughIsDistance(norm: Vec2 -> real, p: Vec2, player: Vec2, minDist: real)
    requires IsNorm(norm)
    ensures FarEnough(p, player, minDist) <==> norm(Sub(p, player)) >= minDist
  {
    var d := norm(Sub(p, player));
    assert d >= 0.0 && d * d == SqLen(Sub(p, player));
    if minDist > 0.0 {
      SquareMonotone(d, minDist);
    }
  }

  /** For a non-negative `d` and a positive `m`, `d >= m` exactly when `d * d >= m * m`. */
  lemma SquareMonotone(d: real, m: real)
    requires d >= 0.0 && m > 0.0
    ensures d >= m <==> d * d >= m * m
  {
    var gap, sum := d - m, d + m;
    assert d * d - m * m == gap * sum;
    if d >= m {
      assert gap * sum >= 0.0 by { MulLe(0.0, gap, sum); }
    } else {
      assert gap * sum < 0.0 by { MulLt(gap, 0.0, sum); }
    }
  }

  /** Multiplying by a non-negative factor keeps `<=`. */
  lemma MulLe(a: real, b: real, k: real)
    requires k >= 0.0 && a <= b
    ensures a * k <= b * k
  {
    assert b * k - a * k == (b - a) * k;
  }

  /** Multiplying by a positive factor keeps `<`. */
  lemma MulLt(a: real, b: real, k: real)
    requires k > 0.0 && a < b
    ensures a * k < b * k
  {
    assert b * k - a * k == (b - a) * k;
  }

  /** The random indices fed to a spawn-point choice: one per attempt plus the fallback, each a valid index. */
  predicate PicksFit(points: seq<Vec2>, picks: seq<nat>)
  {
    && |picks| == SpawnAttempts + 1
    && (|points| > 0 ==> forall k :: 0 <= k < |picks| ==> picks[k] < |points|)
  }

  /** Attempts `attempt` .. 9 of PickSpawnPoint, then the fallback pick. */
  function ChoiceFrom(points: seq<Vec2>, player: Option<Vec2>, minDist: real, picks: seq<nat>, attempt: nat): nat
    requires |points| > 0 && PicksFit(points, picks) && attempt <= SpawnAttempts
    decreases SpawnAttempts - attempt
  {
    if attempt == SpawnAttempts then picks[SpawnAttempts]
    else if player.None? || FarEnough(points[picks[attempt]], player.value, minDist) then picks[attempt]
    else ChoiceFrom(points, player, minDist, picks, attempt + 1)
  }

  /** The spawn point PickSpawnPoint returns for the given random picks. */
  function SpawnChoice(points: seq<Vec2>, player: Option<Vec2>, minDist: real, picks: seq<nat>): Option<nat>
    requires PicksFit(points, picks)
  {
    if |points| == 0 then None else Some(ChoiceFrom(points, player, minDist, picks, 0))
  }

  lemma {:induction false} ChoiceFromFirstFar(points: seq<Vec2>, player: Vec2, minDist: real, picks: seq<nat>, attempt: nat)
    requires |points| > 0 && PicksFit(points, picks) && attempt <= SpawnAttempts
    ensures var r := ChoiceFrom(points, Some(player), minDist, picks, attempt);
      || (exists k :: attempt <= k < SpawnAttempts && r == picks[k]
            && FarEnough(points[picks[k]], player, minDist)
            && forall j :: attempt <= j < k ==> !FarEnough(points[picks[j]], player, minDist))
      || (r == picks[SpawnAttempts]
            && forall j :: attempt <= j < SpawnAttempts ==> !FarEnough(points[picks[j]], player, minDist))
    decreases SpawnAttempts - attempt
  {
    if attempt < SpawnAttempts && !FarEnough(points[picks[attempt]], player, minDist) {
      ChoiceFromFirstFar(points, player, minDist, picks, attempt + 1);
    }
  }

  /**
   * PickSpawnPoint's promise: nothing exactly when there are no spawn
   * points, otherwise one of them; with no player the first pick; with a
   * player the first of the ten picks at least the minimum distance away,
   * or else the eleventh, unchecked pick.
   */
  lemma SpawnChoiceSpec(points: seq<Vec2>, player: Option<Vec2>, minDist: real, picks: seq<nat>)
    requires PicksFit(points, picks)
    ensures var r := SpawnChoice(points, player, minDist, picks);
      && (r.None? <==> |points| == 0)
      && (r.Some? ==> r.value < |points|)
      && (|points| > 0 && player.None? ==> r == Some(picks[0]))
      && (|points| > 0 && player.Some? ==>
            || (exists k :: 0 <= k < SpawnAttempts && r == Some(picks[k])
                  && FarEnough(points[picks[k]], player.value, minDist)
                  && forall j :: 0 <= j < k ==> !FarEnough(points[picks[j]], player.value, minDist))
            || (r == Some(picks[SpawnAttempts])
                  && forall j :: 0 <= j < SpawnAttempts ==> !FarEnough(points[picks[j]], player.value, minDist)))
  {
    if |points| > 0 && player.Some? {
      ChoiceFromFirstFar(points, player.value, minDist, picks, 0);
    }
  }

  // ----------------- OPERATIONS ON THE STATE -----------------

  /** StartWaves: replaces any previous run by a fresh one, suspended in the start delay. */
  function Start(c: Settings, s: Sched): (r: Sched)
    ensures r.running && r.waveIndex == -1 && r.alive == 0
    ensures r.phase == StartDelay(c.startDelay)
    ensures r.waves == s.waves && r.spawnLog == s.spawnLog
  {
    s.(running := true, waveIndex := -1, alive := 0, phase := StartDelay(c.startDelay))
  }

  /** StopWaves: ends the run; the counter is reset only when the remaining enemies are killed. */
  function Stop(s: Sched, killRemaining: bool): (r: Sched)
    ensures !r.running && r.phase == Done
    ensures r.alive == (if killRemaining then 0 else s.alive)
    ensures r.waves == s.waves && r.waveIndex == s.waveIndex && r.spawnLog == s.spawnLog
  {
    var stopped := s.(running := false, phase := Done);
    if killRemaining then stopped.(alive := 0) else stopped
  }

  /** ReportEnemyDeath: one fewer, never below zero. */
  function ReportDeath(s: Sched): (r: Sched)
    ensures r.alive >= 0
    ensures s.alive > 0 ==> r.alive == s.alive - 1
    ensures s.alive <= 0 ==> r.alive == 0
    ensures r.(alive := s.alive) == s
  {
    s.(alive := MaxI(0, s.alive - 1))
  }

  /** ReportEnemySpawn: one more, with no cap check. */
  function ReportSpawn(s: Sched): (r: Sched)
    ensures r.alive == s.alive + 1
    ensures r.(alive := s.alive) == s
  {
    s.(alive := s.alive + 1)
  }

  /**
   * The head of the wave loop: a stopped run ends; otherwise the index
   * moves on by one, and past the last wave a looping run wraps to wave 0
   * after rescaling every wave once.
   */
  function LoopHead(c: Settings, s: Sched): (r: Sched)
    requires c.WellFormed() && Consistent(c, s) && s.phase == NextWave
    ensures Consistent(c, r)
    ensures r.running == s.running && r.alive == s.alive && r.spawnLog == s.spawnLog
    ensures !s.running ==> r.phase == Done && r.waves == s.waves && r.waveIndex == s.waveIndex
    ensures s.running && s.waveIndex + 1 < |s.waves|
            ==> r.waveIndex == s.waveIndex + 1 && r.phase == NextSpawn(0, 0) && r.waves == s.waves
    ensures s.running && !c.loopWaves && s.waveIndex + 1 >= |s.waves| ==> r.phase == Done && r.waves == s.waves
    ensures s.running && c.loopWaves && s.waveIndex + 1 >= |s.waves|
            ==> && r.waves == ScaleAll(s.waves, c.loopScaleFactor) && r.waveIndex == 0
                && r.phase == (if |s.waves| > 0 then NextSpawn(0, 0) else Done)
  {
    if !s.running then s.(phase := Done)
    else
      var i := s.waveIndex + 1;
      if i < |s.waves| then s.(waveIndex := i, phase := NextSpawn(0, 0))
      else if !c.loopWaves then s.(waveIndex := i, phase := Done)
      else
        var ws := ScaleAll(s.waves, c.loopScaleFactor);
        ScaleAllShape(s.waves, c.loopScaleFactor);
        // with no waves at all, `waves[0]` throws and the coroutine ends
        s.(waveIndex := 0, waves := ws, phase := if |ws| > 0 then NextSpawn(0, 0) else Done)
  }

  /**
   * The spawn throttle of entry `e`: at the cap of a running scheduler it
   * waits; otherwise one enemy of the entry's prefab spawns at the chosen
   * point if there is a spawn point, and the interval wait follows.
   */
  function ThrottleTick(c: Settings, s: Sched, player: Option<Vec2>, picks: seq<nat>): (r: Sched)
    requires Consistent(c, s) && PicksFit(c.spawnPoints, picks) && s.phase.Throttle?
    ensures Consistent(c, r)
    ensures r.running == s.running && r.waves == s.waves && r.waveIndex == s.waveIndex
    ensures s.alive >= c.maxAliveCap && s.running ==> r == s
    ensures s.alive < c.maxAliveCap || !s.running ==>
              var e, k := s.phase.entry, s.phase.spawned;
              var entry := s.waves[s.waveIndex].entries[e];
              && r.phase == SpawnInterval(e, k, entry.spawnInterval)
              && (|c.spawnPoints| == 0 ==> r.alive == s.alive && r.spawnLog == s.spawnLog)
              && (|c.spawnPoints| > 0 ==>
                    && r.alive == s.alive + 1
                    && |r.spawnLog| == |s.spawnLog| + 1 && s.spawnLog <= r.spawnLog
                    && r.spawnLog[|s.spawnLog|].enemyPrefab == entry.enemyPrefab
                    && Some(r.spawnLog[|s.spawnLog|].point)
                       == SpawnChoice(c.spawnPoints, player, c.minSpawnDistanceFromPlayer, picks))
  {
    var e, k := s.phase.entry, s.phase.spawned;
    if s.alive >= c.maxAliveCap && s.running then s
    else
      var entry := s.waves[s.waveIndex].entries[e];
      SpawnChoiceSpec(c.spawnPoints, player, c.minSpawnDistanceFromPlayer, picks);
      var spawned :=
        match SpawnChoice(c.spawnPoints, player, c.minSpawnDistanceFromPlayer, picks)
        case None => s
        case Some(p) => s.(alive := s.alive + 1, spawnLog := s.spawnLog + [SpawnRecord(entry.enemyPrefab, p)]);
      spawned.(phase := SpawnInterval(e, k, entry.spawnInterval))
  }

  /**
   * The head of the entry loop: spawn number `k` of entry `e` is attempted
   * while `k` is below the entry's count, then the next entry begins, and
   * after the last entry comes the wave-clear wait.
   */
  function EntryHead(c: Settings, s: Sched): (r: Sched)
    requires Consistent(c, s) && s.phase.NextSpawn?
    ensures Consistent(c, r) && r == s.(phase := r.phase)
    ensures var e, k, entries := s.phase.entry, s.phase.spawned, s.waves[s.waveIndex].entries;
            && (e == |entries| ==> r.phase == ClearWait)
            && (e < |entries| && k < entries[e].count ==> r.phase == Throttle(e, k))
            && (e < |entries| && k >= entries[e].count ==> r.phase == NextSpawn(e + 1, 0))
  {
    var e, k := s.phase.entry, s.phase.spawned;
    var entries := s.waves[s.waveIndex].entries;
    if e == |entries| then s.(phase := ClearWait)
    else if k < entries[e].count then s.(phase := Throttle(e, k))
    else s.(phase := NextSpawn(e + 1, 0))
  }

  /**
   * The wave-clear wait: it is left only at zero population or when
   * stopped; a stopped run ends without a rest, and a rest is only entered
   * for a positive rest time.
   */
  function ClearTick(c: Settings, s: Sched): (r: Sched)
    requires Consistent(c, s) && s.phase == ClearWait
    ensures Consistent(c, r) && r == s.(phase := r.phase)
    ensures r.phase == ClearWait <==> s.alive > 0 && s.running
    ensures !s.running ==> r.phase == Done
    ensures r.phase.Rest? ==> r.phase.left > 0.0 && s.alive == 0 && s.running
    ensures s.alive <= 0 && s.running ==>
              var rest := s.waves[s.waveIndex].restAfterWave;
              r.phase == (if rest > 0.0 then Rest(rest) else NextWave)
    ensures r.phase == ClearWait || r.phase == Done || r.phase == NextWave || r.phase.Rest?
  {
    if s.alive > 0 && s.running then s
    else if !s.running then s.(phase := Done)
    else
      var rest := s.waves[s.waveIndex].restAfterWave;
      if rest > 0.0 then s.(phase := Rest(rest)) else s.(phase := NextWave)
  }

  /**
   * One step of RunAllWaves from where it is suspended to its next control
   * point. `dt` is the time that passes in a timed wait, `player` the
   * player's position (if there is a player) and `picks` the random
   * indices the spawn-point choice would draw.
   */
  function Next(c: Settings, s: Sched, dt: real, player: Option<Vec2>, picks: seq<nat>): (r: Sched)
    requires c.WellFormed() && Consistent(c, s) && PicksFit(c.spawnPoints, picks)
    ensures Consistent(c, r)
    // nothing happens without a suspended coroutine
    ensures s.phase == Done ==> r == s
    // the running flag belongs to StartWaves and StopWaves
    ensures r.running == s.running
    // deaths are never assumed: the counter only grows, one spawn at a time,
    // and only from the throttle once the population is under the cap
    ensures s.alive <= r.alive <= s.alive + 1
    ensures r.alive > s.alive ==> s.phase.Throttle? && (s.alive < c.maxAliveCap || !s.running)
    ensures |r.spawnLog| == |s.spawnLog| + (r.alive - s.alive)
    ensures s.spawnLog <= r.spawnLog
    // the waves change only on a wrap, by exactly one rescaling
    ensures r.waves == s.waves
            || (&& s.phase == NextWave && s.running && c.loopWaves
                && s.waveIndex + 1 >= |s.waves|
                && r.waves == ScaleAll(s.waves, c.loopScaleFactor) && r.waveIndex == 0)
    ensures s.phase == NextWave && s.running && s.waveIndex + 1 >= |s.waves| && !c.loopWaves
            ==> r.phase == Done && r.waves == s.waves
    // the loop head: a stopped run ends; otherwise the index moves on by one
    // and the next wave's first entry begins, or past the last wave a looping
    // run wraps to wave 0 and rescales every wave once
    ensures s.phase == NextWave && !s.running ==> r.phase == Done
    ensures s.phase == NextWave && s.running && s.waveIndex + 1 < |s.waves|
            ==> r.waveIndex == s.waveIndex + 1 && r.phase == NextSpawn(0, 0) && r.waves == s.waves
    ensures s.phase == NextWave && s.running && c.loopWaves && s.waveIndex + 1 >= |s.waves|
            ==> && r.waves == ScaleAll(s.waves, c.loopScaleFactor) && r.waveIndex == 0
                && r.phase == (if |s.waves| > 0 then NextSpawn(0, 0) else Done)
    ensures s.phase != NextWave ==> r.waveIndex == s.waveIndex
    // the entry loop: spawn number `k` of entry `e` is attempted while `k` is
    // below the entry's count, then the next entry begins, and after the last
    // entry the wave-clear wait
    ensures s.phase.NextSpawn? ==>
              var e, k, entries := s.phase.entry, s.phase.spawned, s.waves[s.waveIndex].entries;
              && (e == |entries| ==> r.phase == ClearWait)
              && (e < |entries| && k < entries[e].count ==> r.phase == Throttle(e, k))
              && (e < |entries| && k >= entries[e].count ==> r.phase == NextSpawn(e + 1, 0))
    // the throttle: at the cap of a running scheduler nothing happens;
    // otherwise one enemy of the entry's prefab spawns if there is a spawn
    // point (none otherwise), and the interval wait follows either way
    ensures s.phase.Throttle? && s.alive >= c.maxAliveCap && s.running ==> r == s
    ensures s.phase.Throttle? && (s.alive < c.maxAliveCap || !s.running) ==>
              var e, k := s.phase.entry, s.phase.spawned;
              var entry := s.waves[s.waveIndex].entries[e];
              && r.phase == SpawnInterval(e, k, entry.spawnInterval)
              && (|c.spawnPoints| == 0 ==> r.alive == s.alive && r.spawnLog == s.spawnLog)
              && (|c.spawnPoints| > 0 ==>
                    && r.alive == s.alive + 1
                    && r.spawnLog[|s.spawnLog|].enemyPrefab == entry.enemyPrefab
                    && Some(r.spawnLog[|s.spawnLog|].point)
                       == SpawnChoice(c.spawnPoints, player, c.minSpawnDistanceFromPlayer, picks))
    // a timed wait counts down by `dt` and ends once `dt` covers what is left
    // the start delay and the rest between waves count down by `dt` the same
    // way and then return to the loop head
    ensures s.phase.StartDelay? ==>
              r.phase == (if dt < s.phase.left then StartDelay(s.phase.left - dt) else NextWave)
    ensures s.phase.Rest? ==>
              r.phase == (if dt < s.phase.left then Rest(s.phase.left - dt) else NextWave)
    ensures s.phase.SpawnInterval? ==>
              r.phase == (if dt < s.phase.left then s.phase.(left := s.phase.left - dt)
                          else NextSpawn(s.phase.entry, s.phase.spawned + 1))
    // the wave-clear wait is left only at zero population or when stopped;
    // a stopped run ends without a rest, and a rest is only entered for a positive rest time
    ensures s.phase == ClearWait ==>
              && (r.phase == ClearWait <==> s.alive > 0 && s.running)
              && (!s.running ==> r.phase == Done)
              && (r.phase.Rest? ==> r.phase.left > 0.0)
              && (s.alive <= 0 && s.running ==>
                    var rest := s.waves[s.waveIndex].restAfterWave;
                    r.phase == (if rest > 0.0 then Rest(rest) else NextWave))
    ensures r.phase.Rest? && !s.phase.Rest? ==> s.phase == ClearWait && s.alive == 0 && s.running
  {
    match s.phase
    case Done => s
    case StartDelay(left) =>
      if dt < left then s.(phase := StartDelay(left - dt)) else s.(phase := NextWave)
    case NextWave => LoopHead(c, s)
    case NextSpawn(_, _) => EntryHead(c, s)
    case Throttle(_, _) => ThrottleTick(c, s, player, picks)
    case SpawnInterval(e, k, left) =>
      if dt < left then s.(phase := SpawnInterval(e, k, left - dt)) else s.(phase := NextSpawn(e, k + 1))
    case ClearWait => ClearTick(c, s)
    case Rest(left) =>
      if dt < left then s.(phase := Rest(left - dt)) else s.(phase := NextWave)
  }

  // ----------------- TRACES -----------------

  /** Everything that can happen to the scheduler from outside, in some order. */
  datatype Event =
    | Begin
    | Halt(killRemaining: bool)
    | EnemyDied
    | EnemySpawnedElsewhere
    | Tick(dt: real, player: Option<Vec2>, picks: seq<nat>)

  predicate EventFits(c: Settings, ev: Event)
  {
    ev.Tick? ==> PicksFit(c.spawnPoints, ev.picks)
  }

  function Apply(c: Settings, s: Sched, ev: Event): (r: Sched)
    requires c.WellFormed() && Consistent(c, s) && EventFits(c, ev)
    ensures Consistent(c, r)
  {
    match ev
    case Begin => Start(c, s)
    case Halt(kill) => Stop(s, kill)
    case EnemyDied => ReportDeath(s)
    case EnemySpawnedElsewhere => ReportSpawn(s)
    case Tick(dt, player, picks) => Next(c, s, dt, player, picks)
  }

  /** The state after a sequence of events. */
  function Run(c: Settings, s: Sched, evs: seq<Event>): (r: Sched)
    requires c.WellFormed() && Consistent(c, s)
    requires forall k :: 0 <= k < |evs| ==> EventFits(c, evs[k])
    ensures Consistent(c, r)
    decreases |evs|
  {
    if evs == [] then s else Run(c, Apply(c, s, evs[0]), evs[1..])
  }

  /** A suspended coroutine implies the running flag, whatever happens. */
  lemma {:induction false} RunKeepsLive(c: Settings, s: Sched, evs: seq<Event>)
    requires c.WellFormed() && Consistent(c, s) && Live(s)
    requires forall k :: 0 <= k < |evs| ==> EventFits(c, evs[k])
    ensures Live(Run(c, s, evs))
    decreases |evs|
  {
    if evs != [] {
      RunKeepsLive(c, Apply(c, s, evs[0]), evs[1..]);
    }
  }

  /**
   * The cap holds for the whole of any run in which nobody calls
   * ReportEnemySpawn: the scheduler's own spawns never lift the population
   * above `maxAliveCap`.
   */
  lemma {:induction false} RunKeepsCap(c: Settings, s: Sched, evs: seq<Event>)
    requires c.WellFormed() && Consistent(c, s) && Live(s) && WithinCap(c, s)
    requires forall k :: 0 <= k < |evs| ==> EventFits(c, evs[k]) && !evs[k].EnemySpawnedElsewhere?
    ensures WithinCap(c, Run(c, s, evs))
    decreases |evs|
  {
    if evs != [] {
      var s' := Apply(c, s, evs[0]);
      assert Live(s') by { RunKeepsLive(c, s, evs[..1]); assert Run(c, s', []) == s'; }
      RunKeepsCap(c, s', evs[1..]);
    }
  }

  /** After StopWaves, no spawn happens until StartWaves is called again. */
  lemma {:induction false} NoSpawnAfterStop(c: Settings, s: Sched, evs: seq<Event>)
    requires c.WellFormed() && Consistent(c, s) && s.phase == Done
    requires forall k :: 0 <= k < |evs| ==> EventFits(c, evs[k]) && !evs[k].Begin?
    ensures Run(c, s, evs).spawnLog == s.spawnLog
    ensures Run(c, s, evs).phase == Done
    decreases |evs|
  {
    if evs != [] {
      NoSpawnAfterStop(c, Apply(c, s, evs[0]), evs[1..]);
    }
  }

  /** The coroutine waits on the population: at the cap in the throttle, or above zero in the wave-clear wait. */
  predicate Blocked(c: Settings, s: Sched)
  {
    && s.running
    && ((s.phase.Throttle? && s.alive >= c.maxAliveCap) || (s.phase == ClearWait && s.alive > 0))
  }

  /**
   * Time alone never unblocks the scheduler: without ReportEnemyDeath (or a
   * stop or restart) a throttled spawn never happens and a wave with live
   * enemies never clears.
   */
  lemma {:induction false} BlockedUntilReported(c: Settings, s: Sched, evs: seq<Event>)
    requires c.WellFormed() && Consistent(c, s) && Blocked(c, s)
    requires forall k :: 0 <= k < |evs| ==> EventFits(c, evs[k]) && evs[k].Tick?
    ensures Run(c, s, evs) == s
    decreases |evs|
  {
    if evs != [] {
      assert Apply(c, s, evs[0]) == s;
      BlockedUntilReported(c, s, evs[1..]);
    }
  }

  /**
   * One death report at the cap releases the throttle: the next tick spawns
   * (when there is a spawn point) and the counter is back at the cap.
   */
  lemma DeathReleasesThrottle(c: Settings, s: Sched, dt: real, player: Option<Vec2>, picks: seq<nat>)
    requires c.WellFormed() && Consistent(c, s) && PicksFit(c.spawnPoints, picks)
    requires s.phase.Throttle? && s.running && s.alive == c.maxAliveCap > 0 && |c.spawnPoints| > 0
    ensures var r := Run(c, s, [EnemyDied, Tick(dt, player, picks)]);
      && r.alive == s.alive
      && |r.spawnLog| == |s.spawnLog| + 1
      && r.phase == SpawnInterval(s.phase.entry, s.phase.spawned,
                                  s.waves[s.waveIndex].entries[s.phase.entry].spawnInterval)
  {
    var evs := [EnemyDied, Tick(dt, player, picks)];
    var s1 := Apply(c, s, evs[0]);
    assert Run(c, s, evs) == Run(c, s1, evs[1..]);
    assert Run(c, s1, evs[1..]) == Run(c, Apply(c, s1, evs[1]), evs[2..]);
    SpawnChoiceSpec(c.spawnPoints, player, c.minSpawnDistanceFromPlayer, picks);
  }

  /** Entry `e` of the current wave. */
  function EntryOf(s: Sched, e: nat): WaveEntry
    requires HasEntry(s, e)
  {
    s.waves[s.waveIndex].entries[e]
  }

  /**
   * The entry loop spawns each entry's count: from spawn `k` of entry `e`,
   * with spawn points, room under the cap for the remaining spawns and
   * ticks long enough to cover the spawn interval, three ticks per spawn
   * (loop head, throttle, interval) and one more reach the next entry,
   * with exactly `count - k` more enemies of the entry's prefab logged
   * and counted.
   */
  lemma {:induction false} EntrySpawnsCount(c: Settings, s: Sched, evs: seq<Event>)
    requires c.WellFormed() && Consistent(c, s) && s.running && |c.spawnPoints| > 0
    requires s.phase.NextSpawn? && HasEntry(s, s.phase.entry)
    requires s.phase.spawned <= EntryOf(s, s.phase.entry).count
    requires s.alive + (EntryOf(s, s.phase.entry).count - s.phase.spawned) <= c.maxAliveCap
    requires |evs| == 3 * (EntryOf(s, s.phase.entry).count - s.phase.spawned) + 1
    requires forall i :: 0 <= i < |evs| ==>
               && evs[i].Tick? && PicksFit(c.spawnPoints, evs[i].picks)
               && evs[i].dt >= EntryOf(s, s.phase.entry).spawnInterval
    ensures var r, entry, n := Run(c, s, evs), EntryOf(s, s.phase.entry), EntryOf(s, s.phase.entry).count - s.phase.spawned;
      && r.phase == NextSpawn(s.phase.entry + 1, 0)
      && r.waves == s.waves && r.waveIndex == s.waveIndex && r.running
      && r.alive == s.alive + n
      && |r.spawnLog| == |s.spawnLog| + n
      && r.spawnLog[..|s.spawnLog|] == s.spawnLog
      && forall j :: |s.spawnLog| <= j < |r.spawnLog| ==> r.spawnLog[j].enemyPrefab == entry.enemyPrefab
    decreases EntryOf(s, s.phase.entry).count - s.phase.spawned
  {
    var e, k := s.phase.entry, s.phase.spawned;
    var entry := EntryOf(s, e);
    if k == entry.count {
      var s1 := Apply(c, s, evs[0]);
      assert Run(c, s, evs) == Run(c, s1, evs[1..]);
      assert Run(c, s1, evs[1..]) == s1;
    } else {
      var s3 := SpawnRound(c, s, evs);
      var rest := evs[3..];
      assert forall i :: 0 <= i < |rest| ==> rest[i] == evs[i + 3];
      EntrySpawnsCount(c, s3, rest);
      var r := Run(c, s3, rest);
      PrefixOfPrefix(r.spawnLog, s3.spawnLog, s.spawnLog);
      forall j | |s.spawnLog| <= j < |r.spawnLog|
        ensures r.spawnLog[j].enemyPrefab == entry.enemyPrefab
      {
        if j == |s.spawnLog| {
          assert r.spawnLog[..|s3.spawnLog|][j] == s3.spawnLog[j];
        }
      }
    }
  }

  /** A prefix of a prefix. */
  lemma PrefixOfPrefix<T>(a: seq<T>, b: seq<T>, c: seq<T>)
    requires |b| <= |a| && a[..|b|] == b && |c| <= |b| && b[..|c|] == c
    ensures a[..|c|] == c
  {
    assert forall i :: 0 <= i < |c| ==> a[i] == b[i] == c[i];
  }

  /**
   * One round of the entry loop below the cap: loop head, throttle and a
   * covered interval wait take three ticks and spawn one enemy of the
   * entry's prefab. The result is the state after those three ticks.
   */
  lemma SpawnRound(c: Settings, s: Sched, evs: seq<Event>) returns (s3: Sched)
    requires c.WellFormed() && Consistent(c, s) && s.running && |c.spawnPoints| > 0
    requires s.phase.NextSpawn? && HasEntry(s, s.phase.entry)
    requires s.phase.spawned < EntryOf(s, s.phase.entry).count && s.alive < c.maxAliveCap
    requires |evs| >= 3
    requires forall i :: 0 <= i < |evs| ==>
               && evs[i].Tick? && PicksFit(c.spawnPoints, evs[i].picks)
               && evs[i].dt >= EntryOf(s, s.phase.entry).spawnInterval
    ensures Consistent(c, s3) && Run(c, s, evs) == Run(c, s3, evs[3..])
    ensures s3.phase == NextSpawn(s.phase.entry, s.phase.spawned + 1)
    ensures s3.waves == s.waves && s3.waveIndex == s.waveIndex && s3.running
    ensures s3.alive == s.alive + 1 && |s3.spawnLog| == |s.spawnLog| + 1
    ensures s3.spawnLog[..|s.spawnLog|] == s.spawnLog
    ensures s3.spawnLog[|s.spawnLog|].enemyPrefab == EntryOf(s, s.phase.entry).enemyPrefab
  {
    var e, k := s.phase.entry, s.phase.spawned;
    var s1 := Apply(c, s, evs[0]);
    assert s1 == s.(phase := Throttle(e, k));
    var s2 := Apply(c, s1, evs[1]);
    assert s2.phase == SpawnInterval(e, k, EntryOf(s, e).spawnInterval);
    s3 := Apply(c, s2, evs[2]);
    assert Run(c, s, evs) == Run(c, s1, evs[1..]);
    assert evs[1..][0] == evs[1] && evs[1..][1..] == evs[2..];
    assert Run(c, s1, evs[1..]) == Run(c, s2, evs[2..]);
    assert evs[2..][0] == evs[2] && evs[2..][1..] == evs[3..];
    assert Run(c, s2, evs[2..]) == Run(c, s3, evs[3..]);
  }

  // ----------------- THE SCHEDULER OBJECT -----------------

  class WaveManager {
    const spawnPoints: seq<Vec2>
    const loopWaves: bool
    const loopScaleFactor: real
    const startDelay: real
    const minSpawnDistanceFromPlayer: real
    const maxAliveCap: int

    var waves: seq<Wave>
    var currentWaveIndex: int
    var alive: int
    var running: bool
    /** Where the runner coroutine is suspended; Done when there is none. */
    var phase: Phase
    /** The scheduler's Instantiate calls, in order. */
    var spawnLog: seq<SpawnRecord>

    function Config(): Settings
    {
      Settings(spawnPoints, loopWaves, loopScaleFactor, startDelay, minSpawnDistanceFromPlayer, maxAliveCap)
    }

    function State(): Sched
      reads this
    {
      Sched(waves, currentWaveIndex, alive, running, phase, spawnLog)
    }

    ghost predicate Valid()
      reads this
    {
      Config().WellFormed() && Consistent(Config(), State())
    }

    constructor (spawnPoints: seq<Vec2>, waves: seq<Wave>, loopWaves: bool, loopScaleFactor: real,
                 startDelay: real, minSpawnDistanceFromPlayer: real, maxAliveCap: int)
      requires loopWaves ==> loopScaleFactor != 0.0
      ensures Valid()
      ensures Config() == Settings(spawnPoints, loopWaves, loopScaleFactor, startDelay,
                                   minSpawnDistanceFromPlayer, maxAliveCap)
      ensures State() == Sched(waves, -1, 0, false, Done, [])
    {
      this.spawnPoints := spawnPoints;
      this.loopWaves := loopWaves;
      this.loopScaleFactor := loopScaleFactor;
      this.startDelay := startDelay;
      this.minSpawnDistanceFromPlayer := minSpawnDistanceFromPlayer;
      this.maxAliveCap := maxAliveCap;
      this.waves := waves;
      currentWaveIndex := -1;
      alive := 0;
      running := false;
      phase := Done;
      spawnLog := [];
    }

    method StartWaves()
      requires Valid()
      modifies this
      ensures Valid()
      ensures State() == Start(Config(), old(State()))
    {
      // StopCoroutine(_runner): the old run is dropped wherever it was suspended
      running := true;
      currentWaveIndex := -1;
      alive := 0;
      phase := StartDelay(startDelay);
    }

    method StopWaves(killRemaining: bool)
      requires Valid()
      modifies this
      ensures Valid()
      ensures State() == Stop(old(State()), killRemaining)
    {
      running := false;
      phase := Done;
      if killRemaining {
        // the enemies themselves are destroyed by the engine
        alive := 0;
      }
    }

    method ReportEnemyDeath()
      requires Valid()
      modifies this
      ensures Valid()
      ensures State() == ReportDeath(old(State()))
    {
      alive := MaxI(0, alive - 1);
    }

    method ReportEnemySpawn()
      requires Valid()
      modifies this
      ensures Valid()
      ensures State() == ReportSpawn(old(State()))
    {
      alive := alive + 1;
    }

    /** The counter part of Spawn: one Instantiate, one more alive. */
    method Spawn(enemyPrefab: nat, point: nat)
      modifies this`alive, this`spawnLog
      ensures alive == old(alive) + 1
      ensures spawnLog == old(spawnLog) + [SpawnRecord(enemyPrefab, point)]
    {
      spawnLog := spawnLog + [SpawnRecord(enemyPrefab, point)];
      alive := alive + 1;
    }

    /** Up to ten random picks checked against the minimum distance, then one unchecked pick. */
    method PickSpawnPoint(player: Option<Vec2>, picks: seq<nat>) returns (r: Option<nat>)
      requires PicksFit(spawnPoints, picks)
      ensures r == SpawnChoice(spawnPoints, player, minSpawnDistanceFromPlayer, picks)
    {
      if |spawnPoints| == 0 {
        return None;
      }
      var attempt := 0;
      while attempt < SpawnAttempts
        invariant 0 <= attempt <= SpawnAttempts
        invariant ChoiceFrom(spawnPoints, player, minSpawnDistanceFromPlayer, picks, attempt)
                  == ChoiceFrom(spawnPoints, player, minSpawnDistanceFromPlayer, picks, 0)
      {
        var sp := picks[attempt];
        if player.None? {
          return Some(sp);
        }
        if FarEnough(spawnPoints[sp], player.value, minSpawnDistanceFromPlayer) {
          return Some(sp);
        }
        attempt := attempt + 1;
      }
      return Some(picks[SpawnAttempts]);
    }

    /** Rewrites every entry of every wave in place. */
    method ScaleWaves(factor: real)
      requires factor != 0.0
      modifies this`waves
      ensures waves == ScaleAll(old(waves), factor)
    {
      var k := 0;
      while k < |waves|
        invariant 0 <= k <= |waves| == |old(waves)|
        invariant forall j :: 0 <= j < k ==> waves[j] == ScaleWave(old(waves)[j], factor)
        invariant forall j :: k <= j < |waves| ==> waves[j] == old(waves)[j]
      {
        var w := waves[k];
        var entries := ScaleEntriesInPlace(w.entries, factor);
        waves := waves[k := w.(entries := entries)];
        k := k + 1;
      }
    }

    /** The inner loop of ScaleWaves: `w.entries[i] = e` for each rescaled entry. */
    static method ScaleEntriesInPlace(entries: seq<WaveEntry>, factor: real) returns (r: seq<WaveEntry>)
      requires factor != 0.0
      ensures r == ScaleEntries(entries, factor)
    {
      r := entries;
      var i := 0;
      while i < |r|
        invariant 0 <= i <= |r| == |entries|
        invariant forall j :: 0 <= j < i ==> r[j] == ScaleEntry(entries[j], factor)
        invariant forall j :: i <= j < |r| ==> r[j] == entries[j]
      {
        var e := r[i];
        e := e.(count := RoundToInt(e.count as real * factor));
        e := e.(spawnInterval := MaxR(IntervalFloor, e.spawnInterval * (1.0 / (IntervalDivisor * factor))));
        assert e == ScaleEntry(entries[i], factor);
        r := r[i := e];
        i := i + 1;
      }
      assert forall j :: 0 <= j < |r| ==> r[j] == ScaleEntries(entries, factor)[j];
    }

    /** Resumes the runner coroutine and runs it to its next control point. */
    method Step(dt: real, player: Option<Vec2>, picks: seq<nat>)
      requires Valid() && PicksFit(spawnPoints, picks)
      modifies this
      ensures Valid()
      ensures State() == Next(Config(), old(State()), dt, player, picks)
    {
      match phase
      case Done =>
      case StartDelay(left) =>
        if dt < left { phase := StartDelay(left - dt); } else { phase := NextWave; }
      case NextWave =>
        AdvanceWave();
      case NextSpawn(e, k) =>
        var entries := waves[currentWaveIndex].entries;
        if e == |entries| {
          phase := ClearWait;
        } else if k < entries[e].count {
          phase := Throttle(e, k);
        } else {
          phase := NextSpawn(e + 1, 0);
        }
      case Throttle(e, k) =>
        ThrottledSpawn(player, picks);
      case SpawnInterval(e, k, left) =>
        if dt < left { phase := SpawnInterval(e, k, left - dt); } else { phase := NextSpawn(e, k + 1); }
      case ClearWait =>
        AwaitClear();
      case Rest(left) =>
        if dt < left { phase := Rest(left - dt); } else { phase := NextWave; }
    }

    /** The head of the wave loop: advance the index, wrapping and rescaling past the last wave. */
    method AdvanceWave()
      requires Valid() && phase == NextWave
      modifies this
      ensures Valid()
      ensures forall dt, player, picks | PicksFit(spawnPoints, picks) ::
                State() == Next(Config(), old(State()), dt, player, picks)
    {
      if !running {
        phase := Done;
        return;
      }
      currentWaveIndex := currentWaveIndex + 1;
      if currentWaveIndex >= |waves| {
        if !loopWaves {
          phase := Done;
          return;
        }
        currentWaveIndex := 0;
        ScaleWaves(loopScaleFactor);
      }
      // `waves[0]` on an empty list throws, which ends the coroutine
      phase := if currentWaveIndex < |waves| then NextSpawn(0, 0) else Done;
    }

    /** The alive-cap throttle, then one spawn (if there is a spawn point) and the interval wait. */
    method ThrottledSpawn(player: Option<Vec2>, picks: seq<nat>)
      requires Valid() && phase.Throttle? && PicksFit(spawnPoints, picks)
      modifies this
      ensures Valid()
      ensures forall dt :: State() == Next(Config(), old(State()), dt, player, picks)
    {
      if alive >= maxAliveCap && running {
        return;
      }
      var entry := waves[currentWaveIndex].entries[phase.entry];
      var sp := PickSpawnPoint(player, picks);
      SpawnChoiceSpec(spawnPoints, player, minSpawnDistanceFromPlayer, picks);
      if sp.Some? {
        Spawn(entry.enemyPrefab, sp.value);
      }
      phase := SpawnInterval(phase.entry, phase.spawned, entry.spawnInterval);
    }

    /** The wave-clear wait, then the rest (if positive) or straight back to the loop head. */
    method AwaitClear()
      requires Valid() && phase == ClearWait
      modifies this
      ensures Valid()
      ensures forall dt, player, picks | PicksFit(spawnPoints, picks) ::
                State() == Next(Config(), old(State()), dt, player, picks)
    {
      if alive > 0 && running {
        return;
      }
      if !running {
        phase := Done;
        return;
      }
      var rest := waves[currentWaveIndex].restAfterWave;
      phase := if rest > 0.0 then Rest(rest) else NextWave;
    }
  }
}
