# Project AVD gameplay core in Dafny

A model of the gameplay logic of a small top-down arena shooter built on
Unity: the wave scheduler that spawns enemies, the two enemy movement
controllers (a chaser and an orbit-and-dive enemy), and the bookkeeping
behind player and enemy health, the player's dash, enemy contact damage
and the two weapons (a shotgun with clip, reserve and reload, and a
fuel-burning chainsaw).

Each MonoBehaviour of the core becomes a Dafny `class` whose fields are the
fields the C# code updates, with one method per callback or public
operation. Beside each class, a function on a value snapshot of its state
says what one call does; each method is proved to agree with that function
(`ensures Snapshot() == Fired(Settings(), old(Snapshot()), now)` and the
like), and the lemmas prove the behaviour the game relies on about those
functions, often over whole sequences of calls.

Modules, one per source file plus two shared helpers:

- `Numerics` (numerics.dfy): Unity's `Mathf.Max`, `Min`, `Clamp`,
  `Clamp01` and `RoundToInt` (round half to even, as `Math.Round` does).
- `Geometry` (geometry.dfy): `Vector2` over the reals: sums, scaling,
  `sqrMagnitude`, `Lerp` (blend factor clamped to [0, 1]), `normalized`
  (zero at or below `1e-5`), the quarter-turn tangent and the facing rule.
- `Waves` (waves.dfy): `WaveManager`. The `RunAllWaves` coroutine is a
  resumable state machine: `Phase` says where it is suspended (start
  delay, wave advance, next spawn, alive-cap throttle, spawn interval,
  wave-clear wait, rest, or no coroutine at all) and `Step` runs it to
  its next control point. Random spawn-point indices, the player's
  position and the time that passes in a wait are inputs of `Step`.
- `Diver` (diver.dfy): `EnemyDiver`, the Cruise/Dive state machine.
- `Chaser` (chaser.dfy): `EnemyChaser`.
- `Vitals` (vitals.dfy): `PlayerHealth` and `EnemyHealth`.
- `Dash` (dash.dfy): the dash part of `PlayerController`.
- `Contact` (contact.dfy): `EnemyContactDamage`.
- `Boomstick` (boomstick.dfy): `BoomstickWeapon`.
- `Chainsaw` (chainsaw.dfy): `ChainsawWeapon`.
- `Options` (options.dfy): an `Option` type for a missing target, spawn
  point or component.

Square roots, `exp` and `atan2` are not available over the reals, so they
enter as parameters: a vector's magnitude comes from a function `norm`
that is non-negative and squares to `sqrMagnitude` (`Geometry.IsNorm`), a
facing angle from a function `angleOf`, and the chaser's blend factor
`1 - exp(-steeringLerp * fixedDeltaTime)` is an input `alpha`. The
minimum spawn distance is checked exactly on squared distances, and
`Waves.FarEnoughIsDistance` proves this agrees with comparing true
distances. The frame time, the game clock and every `Random.Range` draw
(spawn-point indices, the diver's cooldown seed) are inputs.

The doc comment at Assets/_Project/Scripts/Enemy/WaveManager.cs:113 says
that `ReportEnemyDeath` is called from `EnemyHealth.Die()`, but `Die`
(Assets/_Project/Scripts/Enemy/EnemyHealth.cs:19-22) only destroys the
object. The model follows the code: `EnemyHealth` knows nothing of the
scheduler, and a death reaches the scheduler only as an explicit
`ReportEnemyDeath` event. `Waves.BlockedUntilReported` shows what this
means: without such reports, a throttled or clearing wave never moves on.

With an empty wave list and looping on, the code throws on `waves[0]`,
which ends the coroutine; the model ends the run there too (phase
`Done`, with `running` still set, as in the code). `ChainsawWeapon.Reload`
and `ChainsawWeapon.HasAmmo`, and `PlayerController.IsDashing`, are
modelled as a no-op method and plain queries; they carry no contract of
their own, and `HasAmmo` is the gate stated in `Chainsaw.ChainsawWeapon.Fire`.

## Model

| member | source | states |
|---|---|---|
| `Numerics.MaxR` | Assets/_Project/Scripts/Enemy/WaveManager.cs:214 | the result is the larger of the two arguments |
| `Numerics.MaxI` | Assets/_Project/Scripts/Enemy/WaveManager.cs:116 | the result is the larger of the two arguments |
| `Numerics.MinI` | Assets/_Project/Scripts/Weapons/BoomstickWeapon.cs:95 | the result is the smaller of the two arguments |
| `Numerics.ClampI` | Assets/_Project/Scripts/Weapons/BoomstickWeapon.cs:26 | in range for an ordered range, unchanged when already inside, otherwise one of the bounds |
| `Numerics.Clamp01` | Assets/_Project/Scripts/Enemy/EnemyChaser.cs:32 | the blend factor Vector2.Lerp uses lies in [0, 1] and equals the input when that is already inside |
| `Numerics.RoundToInt` | Assets/_Project/Scripts/Enemy/WaveManager.cs:213 | the result is within one half of the input, and an exact half goes to the even neighbour |
| `Numerics.RoundToIntOfInt` | Assets/_Project/Scripts/Enemy/WaveManager.cs:213 | whole numbers are not changed by rounding |
| `Geometry.Perp` | Assets/_Project/Scripts/Enemy/EnemyDiver.cs:61 | the cruise tangent is orthogonal to the direction, has the same length, and is the counter-clockwise quarter turn (the cross product direction × tangent is the squared length) |
| `Geometry.Normalized` | Assets/_Project/Scripts/Enemy/EnemyChaser.cs:31 | `normalized` is a unit vector, or zero exactly when the magnitude is at most 1e-5; above that, scaling it back by the magnitude gives the input |
| `Geometry.DivideUnit` | Assets/_Project/Scripts/Enemy/EnemyDiver.cs:53 | dividing a vector by its magnitude gives a unit vector |
| `Geometry.LerpResidual` | Assets/_Project/Scripts/Enemy/EnemyChaser.cs:32 | after a blend by t the offset to the target is the old offset times 1 - t |
| `Geometry.ScaleShrinks` | Assets/_Project/Scripts/Enemy/EnemyChaser.cs:31-32 | scaling by a factor in [-1, 1] never lengthens a vector |
| `Waves.ScaleEntrySpec` | Assets/_Project/Scripts/Enemy/WaveManager.cs:212-215 | a rescaled entry keeps its prefab, its count is count × factor rounded half to even, its interval is interval / (0.9 × factor) floored at 0.05 |
| `Waves.ScaleEntries` | Assets/_Project/Scripts/Enemy/WaveManager.cs:210-216 | rescaling keeps the number of entries of a wave |
| `Waves.ScaleAll` | Assets/_Project/Scripts/Enemy/WaveManager.cs:205-218 | rescaling keeps the number of waves |
| `Waves.ScaleAllShape` | Assets/_Project/Scripts/Enemy/WaveManager.cs:205-218 | rescaling keeps wave count, names, rests, entry counts and prefabs; every interval ends at least 0.05 and every count within one half of count × factor |
| `Waves.ScaleKeepsEmptyCounts` | Assets/_Project/Scripts/Enemy/WaveManager.cs:213 | a zero count stays zero on every wrap |
| `Waves.FarEnoughIsDistance` | Assets/_Project/Scripts/Enemy/WaveManager.cs:191 | the squared-distance test accepts a point exactly when its distance to the player is at least the minimum |
| `Waves.ChoiceFromFirstFar` | Assets/_Project/Scripts/Enemy/WaveManager.cs:187-196 | from any attempt on, the search returns the first far-enough pick, or the fallback pick when none is |
| `Waves.SpawnChoiceSpec` | Assets/_Project/Scripts/Enemy/WaveManager.cs:182-197 | no point exactly when there are no spawn points, otherwise a valid index: the first pick without a player, else the first of ten far-enough picks or the eleventh, unchecked one |
| `Waves.Start` | Assets/_Project/Scripts/Enemy/WaveManager.cs:90-97 | StartWaves leaves the run flag set, index -1, counter 0, and a fresh run in its start delay, replacing any previous one |
| `Waves.Stop` | Assets/_Project/Scripts/Enemy/WaveManager.cs:99-111 | StopWaves clears the run flag and ends the run; the counter becomes 0 with killRemaining and is kept otherwise |
| `Waves.ReportDeath` | Assets/_Project/Scripts/Enemy/WaveManager.cs:114-117 | a death report lowers a positive counter by one and leaves 0 at 0; nothing else changes |
| `Waves.ReportSpawn` | Assets/_Project/Scripts/Enemy/WaveManager.cs:120-123 | an outside spawn report adds exactly one, with no cap check; nothing else changes |
| `Waves.Next` | Assets/_Project/Scripts/Enemy/WaveManager.cs:127-172 | one coroutine step keeps the scheduler invariant and the run flag; never lowers the counter and spawns one at a time, only from the throttle below the cap (or when stopped), logging exactly the spawns; the loop head ends a stopped run, moves the index on by one into entry 0 of the next wave, ends past the last wave without looping, and otherwise wraps to index 0 after one rescaling (ending at once with no waves); the entry loop goes to the throttle while spawns of the entry remain, then to the next entry, and after the last one to the clear wait; the throttle waits at the cap of a running scheduler, otherwise spawns one enemy of the entry's prefab at the chosen spawn point (nothing without spawn points) and always enters the entry's interval wait; each timed wait (start delay, spawn interval, rest) drops by dt and ends once dt covers it, the start delay and the rest then going to the loop head and the spawn interval to the next spawn; the clear wait is left only at zero or when stopped: a stopped run ends, and a cleared running wave rests for exactly its restAfterWave when that is positive and otherwise goes straight to the loop head |
| `Waves.LoopHead` | Assets/_Project/Scripts/Enemy/WaveManager.cs:131-143 | a stopped run ends; otherwise the index moves on by one into entry 0 of the next wave, a non-looping run ends past the last wave, and a looping one wraps to index 0 after rescaling every wave once; counter and log untouched |
| `Waves.EntryHead` | Assets/_Project/Scripts/Enemy/WaveManager.cs:145-149 | spawn k of entry e goes to the throttle while k is below the entry's count, then entry e + 1 begins, and after the last entry the clear wait; only the phase changes |
| `Waves.ThrottleTick` | Assets/_Project/Scripts/Enemy/WaveManager.cs:150-158 | at the cap of a running scheduler nothing changes; otherwise one enemy of the entry's prefab is counted and logged at the chosen spawn point when there are spawn points (nothing otherwise), and the entry's interval wait follows |
| `Waves.ClearTick` | Assets/_Project/Scripts/Enemy/WaveManager.cs:162-170 | the clear wait stays exactly while enemies are alive and the run goes on; a stopped run ends; a cleared running wave rests for exactly its restAfterWave when that is positive and otherwise goes to the loop head; only the phase changes |
| `Waves.Apply` | Assets/_Project/Scripts/Enemy/WaveManager.cs:88-172 | any outside event or coroutine step keeps the scheduler invariant |
| `Waves.Run` | Assets/_Project/Scripts/Enemy/WaveManager.cs:88-172 | any sequence of events keeps the scheduler invariant |
| `Waves.RunKeepsLive` | Assets/_Project/Scripts/Enemy/WaveManager.cs:90-111 | a suspended run always has the run flag set, whatever happens |
| `Waves.RunKeepsCap` | Assets/_Project/Scripts/Enemy/WaveManager.cs:151-156 | without outside spawn reports, the scheduler's own spawns never lift the counter above maxAliveCap |
| `Waves.NoSpawnAfterStop` | Assets/_Project/Scripts/Enemy/WaveManager.cs:99-111 | after StopWaves nothing is spawned and the run stays ended until StartWaves |
| `Waves.BlockedUntilReported` | Assets/_Project/Scripts/Enemy/WaveManager.cs:150-164 | at the cap in the throttle, or with live enemies in the clear wait, time alone changes nothing |
| `Waves.DeathReleasesThrottle` | Assets/_Project/Scripts/Enemy/WaveManager.cs:114-158 | one death report at the cap lets the next step spawn one enemy, back at the cap, and enter the spawn interval |
| `Waves.SpawnRound` | Assets/_Project/Scripts/Enemy/WaveManager.cs:147-158 | below the cap with spawn points, three ticks (loop head, throttle, a covered interval) spawn one enemy of the entry's prefab and reach spawn k + 1 |
| `Waves.EntrySpawnsCount` | Assets/_Project/Scripts/Enemy/WaveManager.cs:145-160 | from spawn k of an entry, with room under the cap and ticks covering the interval, 3 × (count - k) + 1 ticks reach the next entry with exactly count - k more enemies counted and logged, all of the entry's prefab, the old log kept as a prefix |
| `Waves.WaveManager.constructor` | Assets/_Project/Scripts/Enemy/WaveManager.cs:29-49 | the inspector settings, index -1, counter 0, not running, no coroutine |
| `Waves.WaveManager.StartWaves` | Assets/_Project/Scripts/Enemy/WaveManager.cs:90-97 | the fields become `Start` of the old state, keeping the invariant |
| `Waves.WaveManager.StopWaves` | Assets/_Project/Scripts/Enemy/WaveManager.cs:99-111 | the fields become `Stop` of the old state, keeping the invariant |
| `Waves.WaveManager.ReportEnemyDeath` | Assets/_Project/Scripts/Enemy/WaveManager.cs:114-117 | the fields become `ReportDeath` of the old state |
| `Waves.WaveManager.ReportEnemySpawn` | Assets/_Project/Scripts/Enemy/WaveManager.cs:120-123 | the fields become `ReportSpawn` of the old state |
| `Waves.WaveManager.Spawn` | Assets/_Project/Scripts/Enemy/WaveManager.cs:174-180 | one more alive and one more logged spawn of that prefab at that point |
| `Waves.WaveManager.PickSpawnPoint` | Assets/_Project/Scripts/Enemy/WaveManager.cs:182-197 | the search loop returns exactly `SpawnChoice` |
| `Waves.WaveManager.ScaleWaves` | Assets/_Project/Scripts/Enemy/WaveManager.cs:205-218 | rewriting the entries in place leaves the waves equal to `ScaleAll` of the old waves |
| `Waves.WaveManager.ScaleEntriesInPlace` | Assets/_Project/Scripts/Enemy/WaveManager.cs:210-216 | the inner loop yields exactly `ScaleEntries` |
| `Waves.WaveManager.Step` | Assets/_Project/Scripts/Enemy/WaveManager.cs:127-172 | resuming the coroutine changes the fields exactly as `Next`, keeping the invariant |
| `Waves.WaveManager.AdvanceWave` | Assets/_Project/Scripts/Enemy/WaveManager.cs:131-143 | the loop head (index advance, stop, wrap and rescale) agrees with `Next` |
| `Waves.WaveManager.ThrottledSpawn` | Assets/_Project/Scripts/Enemy/WaveManager.cs:150-158 | the throttle, the spawn and the interval wait agree with `Next` |
| `Waves.WaveManager.AwaitClear` | Assets/_Project/Scripts/Enemy/WaveManager.cs:162-170 | the clear wait, the stop exit and the rest agree with `Next` |
| `Diver.Direction` | Assets/_Project/Scripts/Enemy/EnemyDiver.cs:51-53 | the direction to the player is a unit vector: toP / dist beyond 0.001, otherwise (1, 0) |
| `Diver.CruiseRawComponents` | Assets/_Project/Scripts/Enemy/EnemyDiver.cs:59-70 | the orbit controller's velocity has tangential part tangentialSpeed and radial part -(dist - cruiseRadius) × radialGain: inward outside the circle, outward inside |
| `Diver.ClampSpeed` | Assets/_Project/Scripts/Enemy/EnemyDiver.cs:71-72 | the clamped velocity is no faster than maxSpeed, is unchanged when not too fast, and otherwise is the input rescaled: times its magnitude it is the input times maxSpeed, so its speed is exactly maxSpeed |
| `Diver.ModeStep` | Assets/_Project/Scripts/Enemy/EnemyDiver.cs:49-93 | Cruise turns to Dive iff the decremented timer is at most 0 and dist ≤ diveRange, resetting the timer to diveCooldown exactly then; Dive turns to Cruise iff dist ≤ stopRange; otherwise the timer just drops by dt, unclamped |
| `Diver.VelocityStepSpec` | Assets/_Project/Scripts/Enemy/EnemyDiver.cs:55-93 | Cruise closes 35% of the gap to a desired velocity no faster than maxSpeed; Dive beyond stopRange moves at exactly diveSpeed along the unit direction; Dive within stopRange keeps the velocity |
| `Diver.TargetedSpec` | Assets/_Project/Scripts/Enemy/EnemyDiver.cs:49-101 | a tick with a player: the Cruise/Dive switch and timer reset happen exactly under their conditions, the velocity obeys the per-mode rules above, and the facing becomes angleOf(velocity) above squared speed 0.01 and is kept otherwise |
| `Diver.TickSpec` | Assets/_Project/Scripts/Enemy/EnemyDiver.cs:45-53 | no player: zero velocity and nothing else changes; with one: a targeted tick along a unit vector that, scaled by the distance, is the offset to the player (or (1, 0) within 0.001) |
| `Diver.CruiseUntilChance` | Assets/_Project/Scripts/Enemy/EnemyDiver.cs:49-81 | over any run of ticks with no dive chance the diver stays in Cruise and its timer drops by dt per tick |
| `Diver.DiveOnFirstChance` | Assets/_Project/Scripts/Enemy/EnemyDiver.cs:77-81 | the diver dives on the very first tick with an elapsed cooldown and the player within diveRange, with the timer reset to diveCooldown |
| `Diver.EnemyDiver.constructor` | Assets/_Project/Scripts/Enemy/EnemyDiver.cs:32-43 | Awake and Start: Cruise, with the cooldown timer seeded within [0.2, 0.9] |
| `Diver.EnemyDiver.FixedUpdate` | Assets/_Project/Scripts/Enemy/EnemyDiver.cs:45-102 | one physics tick changes state, timer, velocity and facing exactly as `Tick` |
| `Diver.EnemyDiver.Steer` | Assets/_Project/Scripts/Enemy/EnemyDiver.cs:49-93 | the timer decrement and the Cruise/Dive switch agree with `ModeStep` and `VelocityStep` |
| `Chaser.Desired` | Assets/_Project/Scripts/Enemy/EnemyChaser.cs:31 | the desired velocity is exactly zero within stopRange; beyond it, it has speed moveSpeed and points toward the player: times the distance it is the offset times moveSpeed |
| `Chaser.TowardTarget` | Assets/_Project/Scripts/Enemy/EnemyChaser.cs:31 | a non-negative multiple of the normalized offset points toward the player |
| `Chaser.BlendSpec` | Assets/_Project/Scripts/Enemy/EnemyChaser.cs:32 | the new velocity lies on the segment to the desired one, the residual is multiplied by 1 - alpha, it is never farther from the desired velocity, and the desired velocity is a fixed point |
| `Chaser.StopRangeSlows` | Assets/_Project/Scripts/Enemy/EnemyChaser.cs:31-32 | within stopRange the velocity is scaled by 1 - alpha, so the speed never increases |
| `Chaser.BlendsConverge` | Assets/_Project/Scripts/Enemy/EnemyChaser.cs:32 | after n ticks toward the same desired velocity the residual is the initial one times (1 - alpha)^n |
| `Chaser.TickSpec` | Assets/_Project/Scripts/Enemy/EnemyChaser.cs:24-40 | no player: zero velocity, facing kept; otherwise the residual to Desired shrinks by 1 - alpha; the facing becomes angleOf(velocity) above squared speed 0.01 and is kept otherwise |
| `Chaser.EnemyChaser.constructor` | Assets/_Project/Scripts/Enemy/EnemyChaser.cs:6-22 | the inspector settings and the initial velocity and facing |
| `Chaser.EnemyChaser.FixedUpdate` | Assets/_Project/Scripts/Enemy/EnemyChaser.cs:24-40 | one physics tick changes velocity and facing exactly as `Tick` |
| `Vitals.Damaged` | Assets/_Project/Scripts/Player/PlayerHealth.cs:19-28 | ignored while invulnerable or for amount ≤ 0; otherwise HP drops by amount but not below 0, OnHealthChanged is raised, and OnDeath plus deactivation follow exactly when HP is 0, on every such hit; HP stays within [0, maxHP] |
| `Vitals.Healed` | Assets/_Project/Scripts/Player/PlayerHealth.cs:30-35 | ignored for amount ≤ 0; otherwise HP rises by amount but never above maxHP and OnHealthChanged is raised; HP stays within [0, maxHP] |
| `Vitals.DamagedAllSpec` | Assets/_Project/Scripts/Player/PlayerHealth.cs:19-28 | over any run of hits HP stays within [0, maxHP] and never rises, each hit adds at most one death, and an invulnerable player is not changed at all |
| `Vitals.EnemyDamaged` | Assets/_Project/Scripts/Enemy/EnemyHealth.cs:13-17 | HP drops by exactly dmg, with no floor or sign check, and Die runs on every call that leaves HP at or below 0 |
| `Vitals.PlayerHealth.constructor` | Assets/_Project/Scripts/Player/PlayerHealth.cs:13-17 | Awake: full HP, announced once through OnHealthChanged, within [0, maxHP] |
| `Vitals.PlayerHealth.TakeDamage` | Assets/_Project/Scripts/Player/PlayerHealth.cs:19-28 | the state becomes `Damaged` of the old state |
| `Vitals.PlayerHealth.Heal` | Assets/_Project/Scripts/Player/PlayerHealth.cs:30-35 | the state becomes `Healed` of the old state |
| `Vitals.PlayerHealth.Die` | Assets/_Project/Scripts/Player/PlayerHealth.cs:37-42 | OnDeath is raised and the object deactivated; HP is untouched |
| `Vitals.PlayerHealth.SetInvulnerable` | Assets/_Project/Scripts/Player/PlayerHealth.cs:44 | only the invulnerable flag changes |
| `Vitals.EnemyHealth.constructor` | Assets/_Project/Scripts/Enemy/EnemyHealth.cs:8-11 | Awake: full HP, not destroyed |
| `Vitals.EnemyHealth.TakeDamage` | Assets/_Project/Scripts/Enemy/EnemyHealth.cs:13-17 | the state becomes `EnemyDamaged` of the old state |
| `Vitals.EnemyHealth.Die` | Assets/_Project/Scripts/Enemy/EnemyHealth.cs:19-22 | only requests destruction; no report to the scheduler |
| `Dash.StartDash` | Assets/_Project/Scripts/Player/PlayerController.cs:103-113 | refused while dashing or while the cooldown is positive; otherwise a dash starts with timer dashDuration and cooldown dashCooldown |
| `Dash.DashTick` | Assets/_Project/Scripts/Player/PlayerController.cs:82-91 | a running dash loses dt and ends once its timer is at most 0; the cooldown loses dt only while positive |
| `Dash.DashLasts` | Assets/_Project/Scripts/Player/PlayerController.cs:83-88 | a dash with timer T is still on after k ticks exactly when T - k × dt > 0 |
| `Dash.CooldownCoversKept` | Assets/_Project/Scripts/Player/PlayerController.cs:82-113 | with dashCooldown ≥ dashDuration and non-negative steps, the cooldown is always at least the time left on a running dash, and positive while a dash goes on after a tick |
| `Dash.MoveVelocity` | Assets/_Project/Scripts/Player/PlayerController.cs:75-80 | velocity is the normalized move input at moveSpeed, times dashSpeedMultiplier iff a dash was on at the start of the tick; zero without input |
| `Dash.PlayerController.constructor` | Assets/_Project/Scripts/Player/PlayerController.cs:8-27 | not dashing, both timers at zero |
| `Dash.PlayerController.TryDash` | Assets/_Project/Scripts/Player/PlayerController.cs:103-113 | the timers become `StartDash`; invulnerability is granted iff a dash started, dashGrantsIFrames is set and a PlayerHealth exists; the i-frame invariant is kept |
| `Dash.PlayerController.EndDash` | Assets/_Project/Scripts/Player/PlayerController.cs:115-120 | the dash ends and invulnerability is cleared under the same condition under which it is granted |
| `Dash.PlayerController.FixedUpdate` | Assets/_Project/Scripts/Player/PlayerController.cs:72-91 | the timers become `DashTick`, the velocity `MoveVelocity`, and invulnerability is cleared iff the dash ended with i-frames on |
| `Contact.CooldownAfter` | Assets/_Project/Scripts/Enemy/EnemyContactDamage.cs:18 | the hit timer loses dt only while positive |
| `Contact.CooldownRunsDown` | Assets/_Project/Scripts/Enemy/EnemyContactDamage.cs:18 | over any run of frames the timer never rises and a running cooldown overshoots zero by at most one frame |
| `Contact.EnemyContactDamage.constructor` | Assets/_Project/Scripts/Enemy/EnemyContactDamage.cs:6-10 | the settings, and a timer at zero |
| `Contact.EnemyContactDamage.Update` | Assets/_Project/Scripts/Enemy/EnemyContactDamage.cs:18 | the timer becomes `CooldownAfter` of the old one |
| `Contact.EnemyContactDamage.TryHit` | Assets/_Project/Scripts/Enemy/EnemyContactDamage.cs:23-41 | only with an elapsed cooldown, a Player tag and a PlayerHealth: one TakeDamage(damage) and the timer reset to hitCooldown; otherwise nothing changes |
| `Contact.EnemyContactDamage.OnCollisionEnter2D` | Assets/_Project/Scripts/Enemy/EnemyContactDamage.cs:20 | the same gate and effect as TryHit |
| `Contact.EnemyContactDamage.OnCollisionStay2D` | Assets/_Project/Scripts/Enemy/EnemyContactDamage.cs:21 | the same gate and effect as TryHit |
| `Boomstick.StartAmmo` | Assets/_Project/Scripts/Weapons/BoomstickWeapon.cs:26 | an empty clip starts full, a clip is kept when within size, and the result lies in [0, clipSize] |
| `Boomstick.ShotGap` | Assets/_Project/Scripts/Weapons/BoomstickWeapon.cs:48 | the gap between shots is positive, the inverse of the fire rate, and at most 100 s |
| `Boomstick.ReloadTransfer` | Assets/_Project/Scripts/Weapons/BoomstickWeapon.cs:94-97 | clip plus reserve is conserved; the clip ends within size, the reserve non-negative, and either the clip full or the reserve empty |
| `Boomstick.Fired` | Assets/_Project/Scripts/Weapons/BoomstickWeapon.cs:29-49 | refused while reloading, before the fire-rate gate, or with a held semi-automatic trigger; an empty clip starts a reload with ammo unchanged; otherwise one volley, one round less, and the gate closed for one ShotGap |
| `Boomstick.Reloaded` | Assets/_Project/Scripts/Weapons/BoomstickWeapon.cs:51-57 | refused while a reload is pending; otherwise the clip is set full, the reserve untouched, and no reload left pending |
| `Boomstick.Resumed` | Assets/_Project/Scripts/Weapons/BoomstickWeapon.cs:88-99 | before the reload time, or with no reload pending, nothing changes; once it has passed the clip is refilled from the reserve by `ReloadTransfer` and the reload ends, with the volley count, fire gate, held flag and reload deadline kept |
| `Boomstick.AmmoAccounted` | Assets/_Project/Scripts/Weapons/BoomstickWeapon.cs:38-97 | without manual reloads, every round is either still in clip or reserve or was fired, and clip and reserve stay in range |
| `Boomstick.ReloadKeepsSane` | Assets/_Project/Scripts/Weapons/BoomstickWeapon.cs:51-57 | a manual reload keeps clip and reserve in range |
| `Boomstick.HeldTriggerFiresNothing` | Assets/_Project/Scripts/Weapons/BoomstickWeapon.cs:32-36 | a held semi-automatic trigger fires nothing until released |
| `Boomstick.BoomstickWeapon.constructor` | Assets/_Project/Scripts/Weapons/BoomstickWeapon.cs:24-27 | Start: the clip becomes `StartAmmo`, in range for a non-negative clip size and reserve |
| `Boomstick.BoomstickWeapon.Fire` | Assets/_Project/Scripts/Weapons/BoomstickWeapon.cs:29-49 | the state becomes `Fired` of the old state |
| `Boomstick.BoomstickWeapon.Reload` | Assets/_Project/Scripts/Weapons/BoomstickWeapon.cs:51-57 | the state becomes `Reloaded` of the old state |
| `Boomstick.BoomstickWeapon.ResumeReload` | Assets/_Project/Scripts/Weapons/BoomstickWeapon.cs:88-99 | the state becomes `Resumed` of the old state |
| `Boomstick.BoomstickWeapon.HasAmmo` | Assets/_Project/Scripts/Weapons/BoomstickWeapon.cs:59-62 | with non-negative counts, ammo is left exactly when clip plus reserve is positive |
| `Boomstick.BoomstickWeapon.StopFire` | Assets/_Project/Scripts/Weapons/BoomstickWeapon.cs:64-68 | only the held flag is cleared |
| `Boomstick.BoomstickWeapon.MarkHeldThisFrame` | Assets/_Project/Scripts/Weapons/BoomstickWeapon.cs:71-74 | only the held flag is set |
| `Chainsaw.FuelAfterFire` | Assets/_Project/Scripts/Weapons/ChainsawWeapon.cs:14-17 | no fuel burnt from an empty tank; otherwise exactly fuelDrain × dt, with no floor |
| `Chainsaw.StayDamage` | Assets/_Project/Scripts/Weapons/ChainsawWeapon.cs:41 | the damage is within one half of dps × dt, and not negative for non-negative dps × dt |
| `Chainsaw.FuelRunsOut` | Assets/_Project/Scripts/Weapons/ChainsawWeapon.cs:12-18 | over any run of Fire calls fuel never rises and overshoots below zero by less than one frame's drain |
| `Chainsaw.ChainsawWeapon.constructor` | Assets/_Project/Scripts/Weapons/ChainsawWeapon.cs:5-10 | the settings, the saw off |
| `Chainsaw.ChainsawWeapon.Fire` | Assets/_Project/Scripts/Weapons/ChainsawWeapon.cs:12-34 | with fuel left (HasAmmo) the saw and hitbox are switched on; fuel becomes `FuelAfterFire` |
| `Chainsaw.ChainsawWeapon.StopFire` | Assets/_Project/Scripts/Weapons/ChainsawWeapon.cs:20-24 | saw and hitbox off, fuel unchanged |
| `Chainsaw.ChainsawWeapon.OnTriggerStay2D` | Assets/_Project/Scripts/Weapons/ChainsawWeapon.cs:36-44 | only while on and only to an Enemy with an EnemyHealth: one TakeDamage(StayDamage(dps, dt)); otherwise nothing changes |

## Left out

- Unity lifecycle and scene plumbing: the singleton base, `TryBindSceneRefs`, `OnSceneChanged`, tag and name lookups, the inspector button, `Instantiate` and `Destroy` (spawns are a counter effect plus a log of prefab and spawn-point index; destruction is a flag).
- `UpdateWaveHud` and the gizmo drawing in `WaveManager` and `EnemyDiver`: presentation only.
- IEEE single-precision arithmetic: all arithmetic is over exact reals and unbounded integers, so rounding and overflow of `float`/`int` are not modelled.
- Square roots, `exp`, `atan2` and quaternions: supplied as the `norm` and `angleOf` parameters and the `alpha` input; the model proves nothing about their accuracy.
- `Random.Range`: every draw is an input (spawn-point indices within range, the diver's seed within [0.2, 0.9]); the distribution is not modelled.
- Physics: rigidbody integration, collisions, the contact knockback impulse, and `ShootPellets` (pellet count, spread, speed); each shotgun shot is counted as one volley.
- `Pellet.cs` and `WeaponBase.cs` are not part of this model (engine callbacks and an abstract interface with no behaviour).
- Input handling and aiming in `PlayerController` (`Update`, `Awake` bindings, pivot rotation).
- Real-time waits: a `WaitForSeconds` is a phase with the time left, and a Step passes an arbitrary `dt`; frames are not modelled, only the order and gating of phases. A `yield return null` wait is one Step.
- C# events (`OnDeath`, `OnHealthChanged`) are recorded as a log; their subscribers are not modelled.
- The stability of the diver's orbit (convergence to the cruise radius) is not proved; only the direction of the radial correction is.
- `Waves.WaveManager.constructor` requires `loopScaleFactor != 0` when `loopWaves` is set, because the code would then divide by zero when rescaling intervals (IEEE infinity is not modelled); without looping the factor is never used and any value is accepted.
- A wave is a value: `ScaleWaves` rewriting `List<WaveEntry>` objects shared with other holders (aliasing) is not modelled.
