# Night at the Louvre — enemy lifecycle and game rules, modelled in Dafny

This project models the enemy of the top-down game *Night at the Louvre* and a
few small stateful rules around it:

- the **health component** (`EnemyHealth`): integer hit points, the `IsDead`
  flag and the fire-once `OnDie` notification;
- the **behaviour controller** (`EnemyController`): a two-state machine
  (`Patrol`, `Dead`) with a start-up deferred by one frame;
- the **movement driver** (`EnemyMovement`): patrol-destination selection over
  a NavMesh agent, stop, the arrival query, path validity, and the
  stuck-recovery monitor coroutine;
- the **generic singleton** (`Singleton<T>`): one shared `instance` slot, a
  per-object `initialized` flag, self-destroying duplicates;
- the **fire-rate limiter** of `PlayerShoot`;
- the **sound-word placement** of `SoundWordSpawner`: the hearing-distance
  gate, the transparency value and the 20-step bisection that pulls an
  off-screen sound back on screen.

Each stateful component appears twice: a class with the
component's own fields, whose methods change those fields step by step, and a
value datatype (`HealthState`, `Mover`, `Enemy`, `Registry`, `Shooter`) whose
member functions carry the same names. Every method's postcondition says its
new state is that function applied to its old state. The lemmas about event
sequences are stated on the datatypes: damage sequences, controller event
runs, singleton life cycles and fire inputs.

Engine services are inputs. `NavMesh.SamplePosition` around
`transform.position + Random.insideUnitSphere * patrolRadius` is an
`Option<Vec3>` argument. `FindFirstObjectByType` is an optional object id.
`Camera.WorldToScreenPoint` is an arbitrary function carried by the camera.
`Vector3.Distance` is an argument `d` with `d >= 0` and `d * d` equal to the
squared distance. The NavMesh agent is a record of the fields the driver
reads and writes. The engine's updates to those fields between frames are an
explicit event (`Movement.Mover.Sense`). A coroutine is an explicit handle.
The stuck monitor is a coroutine id kept in `stuckCheckCoroutine`, and the
scheduler's set of running monitors is a field beside it. `StopCoroutine`
removes the id from that set. A monitor that leaves its loop removes itself.
Distances, speeds and times are exact reals. The C# `int` of the hit points
wraps around as C# does in an unchecked context (`Common.WrapI32`).

The `OnDie` delegate holds a single subscriber, the controller's
`OnEnemyDeath` (subscribed in `EnemyController.Awake`). Each class-level
`EnemyHealth.TakeDamage` reports whether it invoked `OnDie`, and the
controller's `TakeDamage` then runs `OnEnemyDeath`. That handler reads
nothing that the rest of `Die` changes, so running it just after the health
update ends gives the same state as running it inside the update.
`HealthState.notices` logs, for each invocation of `OnDie`, the `IsDead`
value that a subscriber would read at that moment. `Die` sets the flag before
it notifies, so every entry is `true`.

The controller has only the states `Patrol` and `Dead`. Where the code and
its comments differ, the model follows the code:
- `HasReachedDestination` answers `false` when the agent has no path, although
  the comment on that line says an agent without a path has "reached" its
  destination. As a result, if the first `NavMesh.SamplePosition` fails,
  the agent is stopped with no path. From then on, while the agent stays
  active and the engine reports no path, no tick requests a new patrol
  destination (`Controller.TickWithoutPath`).
- A stuck monitor that leaves its loop on its own leaves a stale handle
  behind. The invariant is that every running monitor is the one the handle
  names, so at most one runs. It is not that a handle exists exactly while a
  monitor runs.
- `OnEnemyDeath` cancels the monitor only through `StopMoving`, which does
  nothing when the agent is inactive. `Controller.DeathStopsEverything`
  assumes an active agent. If the enemy dies while its agent is inactive, the
  monitor keeps running; once the agent is active again and looks stuck, that
  monitor requests a patrol destination for the dead enemy and sets its agent
  moving (`Controller.DeadEnemyCanStillRetarget`).

## Model

| member | source | states |
|---|---|---|
| `Common.WrapI32` | NightAtTheLouvre/Assets/Scripts/Enemy/EnemyHealth.cs:29 | the stored `int` equals the exact result when that fits in 32 bits, and is congruent to it modulo 2^32 otherwise |
| `Health.Awakened` | NightAtTheLouvre/Assets/Scripts/Enemy/EnemyHealth.cs:13-21 | after `Awake` the current health is `maxHealth`, `IsDead` is false and no notification has fired |
| `Health.HealthState.Die` | NightAtTheLouvre/Assets/Scripts/Enemy/EnemyHealth.cs:38-41 | `IsDead` becomes true and the one notification it fires observes `IsDead == true` |
| `Health.HealthState.TakeDamage` | NightAtTheLouvre/Assets/Scripts/Enemy/EnemyHealth.cs:24-36 | on a dead enemy nothing changes; on a live one health drops by exactly `d` (when no overflow), the enemy is dead iff the new health is ≤ 0, and the notification fires iff it died |
| `Health.HealthState.OnCollisionEnter2D` | NightAtTheLouvre/Assets/Scripts/Enemy/EnemyHealth.cs:61-73 | a projectile hitting a live enemy costs exactly one (wrapped) hit point, kills iff health drops to ≤ 0 and then fires the one notification; a projectile hitting a dead enemy and any other collision change nothing |
| `Health.TakeDamageConsistent` | NightAtTheLouvre/Assets/Scripts/Enemy/EnemyHealth.cs:26-41 | one damage call keeps "notified once iff dead, and every notification saw `IsDead` set" |
| `Health.TakeDamageAllConsistent` | NightAtTheLouvre/Assets/Scripts/Enemy/EnemyHealth.cs:24-41 | over any sequence of damage calls `OnDie` fires at most once and `IsDead` never returns to false |
| `Health.DeadIsAbsorbing` | NightAtTheLouvre/Assets/Scripts/Enemy/EnemyHealth.cs:26 | any sequence of damage to a dead enemy changes nothing and notifies nobody |
| `Health.ThreeHitsKill` | NightAtTheLouvre/Assets/Scripts/Enemy/EnemyHealth.cs:6-35 | with `maxHealth` 3, hits of 1 leave the enemy alive after one and two calls and dead after the third, with one notification |
| `Health.EnemyHealth.constructor` | NightAtTheLouvre/Assets/Scripts/Enemy/EnemyHealth.cs:18-21 | the fields start as `Health.Awakened` says |
| `Health.EnemyHealth.TakeDamage` | NightAtTheLouvre/Assets/Scripts/Enemy/EnemyHealth.cs:24-36 | updates the fields as `HealthState.TakeDamage` and reports whether `OnDie` fired (iff this call killed) |
| `Health.EnemyHealth.Die` | NightAtTheLouvre/Assets/Scripts/Enemy/EnemyHealth.cs:38-41 | sets `IsDead`, then logs the notification |
| `Health.EnemyHealth.OnCollisionEnter2D` | NightAtTheLouvre/Assets/Scripts/Enemy/EnemyHealth.cs:61-73 | a projectile applies `TakeDamage(1)`, reporting the notification |
| `Movement.Awakened` | NightAtTheLouvre/Assets/Scripts/Enemy/EnemyMovement.cs:24-46 | `Awake` copies the component's stopping distance into the agent; no monitor runs |
| `Movement.Mover.StopStuckCheck` | NightAtTheLouvre/Assets/Scripts/Enemy/EnemyMovement.cs:107-114 | the handle is null afterwards, the monitor it named is no longer running, nothing else changes; under the invariant no monitor runs |
| `Movement.Mover.StartStuckCheck` | NightAtTheLouvre/Assets/Scripts/Enemy/EnemyMovement.cs:101-105 | the previous monitor is cancelled first, so under the invariant exactly the new one runs and the handle names it |
| `Movement.Mover.SetRandomPatrolDestination` | NightAtTheLouvre/Assets/Scripts/Enemy/EnemyMovement.cs:50-73 | inactive agent: no change; otherwise speed becomes `patrolSpeed`; on a sampled point the destination is that point, the agent moves and exactly one fresh monitor runs; on a failed sample the agent stops and no monitor runs |
| `Movement.Mover.StopMoving` | NightAtTheLouvre/Assets/Scripts/Enemy/EnemyMovement.cs:75-82 | active agent: `isStopped` set, handle null, no monitor runs; inactive agent: no change |
| `Movement.Mover.HasReachedDestination` | NightAtTheLouvre/Assets/Scripts/Enemy/EnemyMovement.cs:84-99 | inactive: true; no path or path pending: false with the monitor untouched; otherwise true iff remaining ≤ stopping distance, and arrival clears the monitor; a false answer changes nothing |
| `Movement.Mover.PollStuckCheck` | NightAtTheLouvre/Assets/Scripts/Enemy/EnemyMovement.cs:116-130 | the loop continues only while `hasPath && !pathPending`; stuck iff `velocitySq < minMoveSpeed²` and remaining > stopping distance; stuck issues exactly one `SetRandomPatrolDestination` and ends the monitor; a moving agent changes nothing |
| `Movement.NavAgent.IsPathStillValid` | NightAtTheLouvre/Assets/Scripts/Enemy/EnemyMovement.cs:132-136 | the validity test itself; what it means is stated by `Movement.PathValidity` |
| `Movement.Mover.IsStuck` | NightAtTheLouvre/Assets/Scripts/Enemy/EnemyMovement.cs:122 | the stuck test; its effect on the monitor is stated by `Movement.Mover.PollStuckCheck` |
| `Movement.PathValidity` | NightAtTheLouvre/Assets/Scripts/Enemy/EnemyMovement.cs:132-136 | a pending path is never valid; otherwise valid iff the status is not `PathInvalid` |
| `Movement.AtMostOneMonitor` | NightAtTheLouvre/Assets/Scripts/Enemy/EnemyMovement.cs:101-114 | under the monitor invariant at most one monitor runs, and it is the one the handle names |
| `Movement.MonitorInvAlways` | NightAtTheLouvre/Assets/Scripts/Enemy/EnemyMovement.cs:50-130 | every sequence of retargets, stops, arrival queries, polls and engine updates keeps at most one monitor running |
| `Movement.EnemyMovement.constructor` | NightAtTheLouvre/Assets/Scripts/Enemy/EnemyMovement.cs:24-46 | snaps the position to the sampled NavMesh point when one is found, and sets the agent's stopping distance |
| `Movement.EnemyMovement.StopStuckCheck` | NightAtTheLouvre/Assets/Scripts/Enemy/EnemyMovement.cs:107-114 | updates the fields as `Mover.StopStuckCheck` |
| `Movement.EnemyMovement.StartStuckCheck` | NightAtTheLouvre/Assets/Scripts/Enemy/EnemyMovement.cs:101-105 | updates the fields as `Mover.StartStuckCheck` |
| `Movement.EnemyMovement.SetRandomPatrolDestination` | NightAtTheLouvre/Assets/Scripts/Enemy/EnemyMovement.cs:50-73 | updates the fields as `Mover.SetRandomPatrolDestination`, keeping the monitor invariant |
| `Movement.EnemyMovement.StopMoving` | NightAtTheLouvre/Assets/Scripts/Enemy/EnemyMovement.cs:75-82 | updates the fields as `Mover.StopMoving` |
| `Movement.EnemyMovement.HasReachedDestination` | NightAtTheLouvre/Assets/Scripts/Enemy/EnemyMovement.cs:84-99 | answers and updates the fields as `Mover.HasReachedDestination` |
| `Movement.EnemyMovement.PollStuckCheck` | NightAtTheLouvre/Assets/Scripts/Enemy/EnemyMovement.cs:116-130 | one loop pass of a running monitor, as `Mover.PollStuckCheck` |
| `Movement.EnemyMovement.IsPathStillValid` | NightAtTheLouvre/Assets/Scripts/Enemy/EnemyMovement.cs:132-136 | answers as `NavAgent.IsPathStillValid`, whose meaning `Movement.PathValidity` states |
| `Controller.Spawned` | NightAtTheLouvre/Assets/Scripts/Enemy/EnemyController.cs:10 | a new enemy patrols, has full health, no pending start-up and no monitor, and satisfies the controller invariant |
| `Controller.Enemy.Start` | NightAtTheLouvre/Assets/Scripts/Enemy/EnemyController.cs:27-30 | launches the start-up coroutine without issuing any command yet |
| `Controller.Enemy.ResumeStartAILogic` | NightAtTheLouvre/Assets/Scripts/Enemy/EnemyController.cs:36-45 | after the one-frame wait a patrol destination is requested iff the state is still `Patrol`; a dead enemy's driver is untouched |
| `Controller.Enemy.Update` | NightAtTheLouvre/Assets/Scripts/Enemy/EnemyController.cs:47-63 | never changes the state; `Dead`: no command at all; `Patrol`: a new destination is requested iff `HasReachedDestination` answers true |
| `Controller.Enemy.OnEnemyDeath` | NightAtTheLouvre/Assets/Scripts/Enemy/EnemyController.cs:65-70 | the state becomes `Dead` and the driver is stopped |
| `Controller.Enemy.TakeDamage` | NightAtTheLouvre/Assets/Scripts/Enemy/EnemyController.cs:19-25 | health takes the damage; the death handler runs exactly when this damage killed |
| `Controller.Enemy.OnCollisionEnter2D` | NightAtTheLouvre/Assets/Scripts/Enemy/EnemyHealth.cs:61-68 | a projectile hit is one point of damage delivered with the subscription; anything else changes nothing |
| `Controller.StepInv` | NightAtTheLouvre/Assets/Scripts/Enemy/EnemyController.cs:47-70 | every event keeps `Dead` iff health is dead, the notification fired once iff dead, and at most one monitor |
| `Controller.StateChangesOnlyByDeath` | NightAtTheLouvre/Assets/Scripts/Enemy/EnemyController.cs:47-69 | the state changes exactly when damage kills a patrolling enemy, and then only to `Dead` |
| `Controller.DeadIsTerminal` | NightAtTheLouvre/Assets/Scripts/Enemy/EnemyController.cs:50 | no sequence of events leaves `Dead` |
| `Controller.DeathStopsEverything` | NightAtTheLouvre/Assets/Scripts/Enemy/EnemyController.cs:65-70 | a killing hit on a patrolling enemy with an active agent leaves it dead, stopped, and with no monitor running |
| `Controller.DeadIsQuiet` | NightAtTheLouvre/Assets/Scripts/Enemy/EnemyController.cs:50-69 | a dead enemy with no monitor never again requests a patrol destination and its agent's commands stay as they are |
| `Controller.TickWithoutPath` | NightAtTheLouvre/Assets/Scripts/Enemy/EnemyMovement.cs:86-89 | a patrolling enemy whose agent has no path requests nothing on a tick while the agent is active, and requests a destination when it is inactive |
| `Controller.DeadEnemyCanStillRetarget` | NightAtTheLouvre/Assets/Scripts/Enemy/EnemyController.cs:65-70 | an enemy killed while its agent is inactive keeps its stuck monitor; after the agent reactivates and looks stuck, that monitor requests one patrol destination and the dead enemy's agent moves again |
| `Controller.DeathDuringStartupSuppressesPatrol` | NightAtTheLouvre/Assets/Scripts/Enemy/EnemyController.cs:36-45 | a death during the start-up frame means the deferred start-up requests no patrol destination |
| `Controller.EnemyController.constructor` | NightAtTheLouvre/Assets/Scripts/Enemy/EnemyController.cs:19-25 | the controller starts in `Patrol` wired to its health and movement components |
| `Controller.EnemyController.Start` | NightAtTheLouvre/Assets/Scripts/Enemy/EnemyController.cs:27-34 | as `Enemy.Start` |
| `Controller.EnemyController.ResumeStartAILogic` | NightAtTheLouvre/Assets/Scripts/Enemy/EnemyController.cs:36-45 | as `Enemy.ResumeStartAILogic`, keeping the invariant |
| `Controller.EnemyController.Update` | NightAtTheLouvre/Assets/Scripts/Enemy/EnemyController.cs:47-63 | as `Enemy.Update`, changing only the movement component |
| `Controller.EnemyController.OnEnemyDeath` | NightAtTheLouvre/Assets/Scripts/Enemy/EnemyController.cs:65-70 | as `Enemy.OnEnemyDeath` |
| `Controller.EnemyController.TakeDamage` | NightAtTheLouvre/Assets/Scripts/Enemy/EnemyHealth.cs:24-41 | as `Enemy.TakeDamage`: the health update, then `OnDie` delivered to the controller |
| `Controller.EnemyController.OnCollisionEnter2D` | NightAtTheLouvre/Assets/Scripts/Enemy/EnemyHealth.cs:61-73 | as `Enemy.OnCollisionEnter2D` |
| `Singletons.Empty` | NightAtTheLouvre/Assets/Scripts/Core/Singleton.cs:9-10 | no instance, nothing initialised |
| `Singletons.Registry.Instance` | NightAtTheLouvre/Assets/Scripts/Core/Singleton.cs:15-25 | returns the cached instance when there is one; otherwise caches and returns the lookup result |
| `Singletons.Registry.Awake` | NightAtTheLouvre/Assets/Scripts/Core/Singleton.cs:40-60 | a duplicate requests its own destruction and changes nothing else; otherwise the slot becomes this object, persistence is requested iff `PersistAcrossScenes`, and `OnSingletonAwake` runs iff the object was not initialised |
| `Singletons.Registry.OnDestroy` | NightAtTheLouvre/Assets/Scripts/Core/Singleton.cs:65-72 | clears the slot and the object's `initialized` only when it is the registered instance; a duplicate leaves everything intact |
| `Singletons.AtMostOneInitialized` | NightAtTheLouvre/Assets/Scripts/Core/Singleton.cs:40-72 | at most one object is initialised, and it is the registered instance |
| `Singletons.AwakeIdempotent` | NightAtTheLouvre/Assets/Scripts/Core/Singleton.cs:40-60 | a second `Awake` of the same object changes nothing |
| `Singletons.HookRunsAtMostOnce` | NightAtTheLouvre/Assets/Scripts/Core/Singleton.cs:55-59 | across any lookups, wake-ups and other destructions, `OnSingletonAwake` runs at most once on an object, and not at all if it is already initialised |
| `Singletons.SingletonSlot.constructor` | NightAtTheLouvre/Assets/Scripts/Core/Singleton.cs:9-10 | the empty registry |
| `Singletons.SingletonSlot.Instance` | NightAtTheLouvre/Assets/Scripts/Core/Singleton.cs:15-25 | as `Registry.Instance` |
| `Singletons.SingletonSlot.Awake` | NightAtTheLouvre/Assets/Scripts/Core/Singleton.cs:40-60 | as `Registry.Awake` |
| `Singletons.SingletonSlot.OnDestroy` | NightAtTheLouvre/Assets/Scripts/Core/Singleton.cs:65-72 | as `Registry.OnDestroy` |
| `Shooting.Initial` | NightAtTheLouvre/Assets/Scripts/Player/PlayerShoot.cs:20 | `nextFireTime` starts at 0 and nothing has been spawned |
| `Shooting.Shooter.Shoot` | NightAtTheLouvre/Assets/Scripts/Player/PlayerShoot.cs:31-44 | spawns nothing when the prefab or the fire point is missing, one projectile otherwise |
| `Shooting.Shooter.OnFire` | NightAtTheLouvre/Assets/Scripts/Player/PlayerShoot.cs:22-29 | a shot is attempted iff the input is pressed and `time ≥ nextFireTime`; then `nextFireTime` becomes `time + fireRate` even if `Shoot` spawns nothing; otherwise nothing changes |
| `Shooting.ShotsAreSpaced` | NightAtTheLouvre/Assets/Scripts/Player/PlayerShoot.cs:22-37 | over any inputs, consecutive attempted shots are at least `fireRate` apart, the first is no earlier than the initial `nextFireTime`, and projectiles are spawned once per shot iff both references are assigned |
| `Shooting.PlayerShoot.constructor` | NightAtTheLouvre/Assets/Scripts/Player/PlayerShoot.cs:18-20 | as `Shooting.Initial` |
| `Shooting.PlayerShoot.OnFire` | NightAtTheLouvre/Assets/Scripts/Player/PlayerShoot.cs:22-29 | as `Shooter.OnFire` |
| `Shooting.PlayerShoot.Shoot` | NightAtTheLouvre/Assets/Scripts/Player/PlayerShoot.cs:31-37 | as `Shooter.Shoot` |
| `SoundWords.IsInsideScreen` | NightAtTheLouvre/Assets/Scripts/Sound/SoundWordSpawner.cs:78-83 | the screen test itself; its boundary behaviour is stated by `SoundWords.ScreenBoundsInclusive` |
| `SoundWords.ScreenBoundsInclusive` | NightAtTheLouvre/Assets/Scripts/Sound/SoundWordSpawner.cs:78-83 | the screen test includes the edges of the pixel rectangle and excludes depth ≤ 0 and points beyond the rectangle |
| `SoundWords.Clamp01` | NightAtTheLouvre/Assets/Scripts/Sound/SoundWordSpawner.cs:32 | the result lies in [0,1] and equals the input when that already does |
| `SoundWords.DistancePercent` | NightAtTheLouvre/Assets/Scripts/Sound/SoundWordSpawner.cs:32 | the transparency lies in [0,1] and equals `1 − distance/maxHearDistance` for an audible distance |
| `SoundWords.ClampPositionToScreen` | NightAtTheLouvre/Assets/Scripts/Sound/SoundWordSpawner.cs:42-76 | returns the target if it is on screen or the reference is not; otherwise a point on the segment that is on screen while the point 1/2^20 further along the segment is not |
| `SoundWords.SpawnSoundWord` | NightAtTheLouvre/Assets/Scripts/Sound/SoundWordSpawner.cs:25-40 | nothing is spawned iff distance > `maxHearDistance` (equal still spawns), whatever the sign of `maxHearDistance`; a spawned word has the given texture, lifetime and size (both default to 1), the transparency above, and a position that is on screen whenever the player is |

## Left out

- Engine effects with no decision logic: `Debug.Log`/`LogWarning`/`LogError`,
  disabling the sprite renderer and collider, making the rigidbody kinematic,
  `Destroy(gameObject, 3f)`, destroying the projectile on impact, the gizmo
  drawing, `agent.updateRotation`/`updatePosition`/`updateUpAxis`/`autoBraking`,
  and the rigidbody's `freezeRotation`.
- `Movement.Mover.SetRandomPatrolDestination`: the engine's fields `hasPath`,
  `pathPending` and `remainingDistance` keep their old values until the next
  engine refresh (`Movement.Mover.Sense`). In the engine, `SetDestination`
  starts a path request at once. Every lemma over event runs allows any
  refresh in between, so it covers the engine's own update.
- Randomness and NavMesh queries: `Random.insideUnitSphere` and
  `NavMesh.SamplePosition` are the `sample`/`snap` arguments, so
  `patrolRadius` and the 5-unit snap radius only name what the caller asked.
- Coroutine timing: the 2 s and 1 s `WaitForSeconds` of the stuck monitor and
  the frame boundary of `StartAILogic` are not timed. A poll event and a resume
  event stand for "the wait is over". Stopping a coroutine takes effect
  immediately, as `StopCoroutine` does.
- The agent is always present (`RequireComponent(typeof(NavMeshAgent))`).
  The `agent != null` test of `StopMoving` is therefore not a separate case.
- Unity's overloaded `==`, under which a destroyed object compares equal to
  null, is not modelled: a slot holds an object id until `OnDestroy` clears it.
- Float arithmetic: reals are exact, so the bisection's last step is exactly
  1/2^20 wide and `distance / maxHearDistance` has no rounding.
- `SoundWords.SpawnSoundWord`: excludes only a sound at distance 0 with a
  `maxHearDistance` of 0. That case reaches the division and computes 0/0,
  which is NaN in floats and has no real value.
- `SoundWords.SpawnSoundWord`: a missing `LevelManager.Instance`, player,
  visual effect or camera throws a `NullReferenceException` in the game; the
  model takes the player's position and the camera as arguments and has no
  such failure.
- `SoundWords.SpawnSoundWord`: the visual-effect calls (`SetTexture`,
  `SetVector3`, `SetFloat`, `SendEvent`) are the returned `SoundWord` record.
  The player's position from `LevelManager.Instance.Player` is an argument.
- `Shooting.Shooter.Shoot`: `Instantiate` and `Projectile.Launch` are counted
  as one spawned projectile. The launch direction and speed are not modelled.
- `PersistAcrossScenes` is a constant per singleton type. `LevelManager`
  overrides it to false. `OnSingletonAwake` is recorded as a run on the object.
  What `LevelManager` and `SoundWordSpawner` do in that hook is not modelled.
- PlayerLook.cs, EnemyLook.cs, PlayerMovement.cs, Projectile.cs,
  CameraFollow.cs, SoundWordSource.cs and SoundWordTester.cs are not part of
  this model. They hold orientation, physics and debugging code with no rule
  the enemy lifecycle depends on.
