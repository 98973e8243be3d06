# Meduza enemy controller and player respawn, in Dafny

This project models two components of a 3D action game.

- **The enemy controller** (`EnemyBehaviour`) runs once per frame. An enemy first goes through a spawn intro, during which it does nothing. A one-shot timer then makes it start "thinking". From then on, every frame it:
  - picks a movement target from its distance to the player, using two radii (`triggerDistance` and `attackDistance`) and a line-of-sight ray;
  - hands that target to the pathfinder;
  - advances an attack cooldown counter, and invokes `Attack` once `rechargeTime` has passed and the player is close enough.
- **The player's health component** (`PlayerHealth`) records the player's spawn point at start. When the player dies, it respawns them: full hit points, back at the spawn point.

The engine is abstracted away. Each frame is a value (`EnemyBehaviour.Frame`) holding:
- the enemy's and the player's positions;
- the distance between them, as a real;
- the frame time;
- the collision layers the ray towards the player hit, in the order the physics engine reports them.

What a frame produces is also a value (`EnemyBehaviour.TickResult`): the new controller state, the destination issued to the pathfinder (if any), and whether `Attack` fired.

Modules:
- `Geometry` (`geometry.dfy`): points and an option type.
- `Perception` (`perception.dfy`): the obstacle test on the ray's hits.
- `EnemyBehaviour` (`enemy.dfy`): one frame of the controller (`Update`, `Movement`, `Recharge`, `BeginThinking`) and the spawn state.
- `EnemyRun` (`enemy_run.dfy`): sequences of frames interleaved with the spawn timer firing, and the properties that span several frames.
- `Player` (`player.dfy`): `Start`, `Death` and `Respawn` on the player's health record.

Modelling choices:
- **One distance per frame.** The source computes the distance to the player twice in a frame: once in `Movement` and once before the attack check. Both reads see the same two positions, because nothing between them moves either transform. The model therefore uses a single `distanceToPlayer` per frame for both.
- **Reals stand in for floats.** The decision logic only compares and adds distances and times, so unbounded reals replace the engine's 32-bit floats. The slack constant `ERROR` is the real 0.1.
- **Delays are explicit events.** The 1.5-second delayed `BeginThinking` call becomes an explicit `TimerFired` event in `EnemyRun`.
- **Attack is a flag.** `Attack` is abstract in the source, so the model records only whether it fired.

## Model

| member | source | states |
|---|---|---|
| Perception.ObstacleOnTheWayToPlayer | Assets/Scripts/Enemies/EnemyBehaviour.cs:85-99 | No hit means a clear view; otherwise the view is blocked exactly when the first reported hit is on the Wall or Ground layer |
| Perception.OnlyFirstHitMatters | Assets/Scripts/Enemies/EnemyBehaviour.cs:89-98 | Hits after the first never change the verdict, which is "the first hit is opaque" |
| Perception.WallBehindFirstHitIsIgnored | Assets/Scripts/Enemies/EnemyBehaviour.cs:91-98 | A Wall hit behind a non-opaque first hit does not count as an obstacle, while the same hits in the other order do |
| EnemyBehaviour.Spawn | Assets/Scripts/Enemies/EnemyBehaviour.cs:11-17 | As written: a new enemy is not thinking, its counter is 0, and its never-assigned target is the zero vector |
| EnemyBehaviour.SpawnAt | Assets/Scripts/Enemies/EnemyBehaviour.cs:11-17 | Corrected spawn: not thinking, counter 0, target initialised to the spawn position |
| EnemyBehaviour.BeginThinking | Assets/Scripts/Enemies/EnemyBehaviour.cs:27-30 | The timer callback sets isThinking and leaves the target and counter alone |
| EnemyBehaviour.Movement | Assets/Scripts/Enemies/EnemyBehaviour.cs:61-78 | Beyond triggerDistance the target is the enemy's own position. Between the radii it is the player, whatever the hits. Inside attackDistance with a blocked view it is the player. In the remaining case (inside both radii, and a clear view or distance exactly attackDistance) the previous target is kept |
| EnemyBehaviour.MovementKeepsTargetExactlyWhenHolding | Assets/Scripts/Enemies/EnemyBehaviour.cs:65-77 | The previous target survives for every previous target if and only if the frame is in the holding case. Outside it, the new target does not depend on the previous one |
| EnemyBehaviour.PursuitIgnoresObstacles | Assets/Scripts/Enemies/EnemyBehaviour.cs:69-72 | Between the radii, changing the ray's hits does not change the target, which is the player |
| EnemyBehaviour.MovementChoosesAKnownPoint | Assets/Scripts/Enemies/EnemyBehaviour.cs:65-76 | The new target is always the previous target, the enemy's position or the player's position |
| EnemyBehaviour.Recharge | Assets/Scripts/Enemies/EnemyBehaviour.cs:50-58 | After adding the frame time, the gate fires if and only if the counter has reached rechargeTime and the distance minus attackDistance is below the slack. Firing resets the counter to exactly 0; otherwise it keeps the accumulated value |
| EnemyBehaviour.RechargeKeepsCooldownNonNegative | Assets/Scripts/Enemies/EnemyBehaviour.cs:50-58 | With a non-negative counter and frame time, the counter stays non-negative |
| EnemyBehaviour.RechargeRangeSlack | Assets/Scripts/Enemies/EnemyBehaviour.cs:54-58 | Once recharged, the gate fires just outside attackDistance, up to the slack, and never at or beyond attackDistance plus the slack |
| EnemyBehaviour.Update | Assets/Scripts/Enemies/EnemyBehaviour.cs:40-59 | A non-thinking frame changes nothing, issues no destination and does not attack. A thinking frame issues the new target as the destination every frame and runs the cooldown gate on the same distance. isThinking is never changed by a frame |
| EnemyBehaviour.ScenarioOccludedPlayerIsChasedAndAttacked | Assets/Scripts/Enemies/EnemyBehaviour.cs:48-58 | Example: with radii 10 and 3, recharge 2 and a counter at 2.5, a player at distance 1 behind a Wall is both chased and attacked in the same frame, and the counter resets to 0 |
| EnemyBehaviour.SpawnSendsEnemyToWorldOrigin | Assets/Scripts/Enemies/EnemyBehaviour.cs:65-78 | As written, a first thinking frame in the holding case sends the enemy to the world origin, which is neither its own position nor the player's |
| EnemyBehaviour.SpawnAtFirstFrameTargetsAKnownPoint | Assets/Scripts/Enemies/EnemyBehaviour.cs:65-78 | With the corrected spawn, the first thinking frame sends the enemy to its own position or to the player, for every configuration and frame |
| EnemyRun.Step | Assets/Scripts/Enemies/EnemyBehaviour.cs:23-59 | After an event the enemy thinks if and only if it thought before or the event was the timer. The timer never moves or attacks. An attack happens only on a thinking frame and leaves the counter at 0 |
| EnemyRun.Run | Assets/Scripts/Enemies/EnemyBehaviour.cs:40-59 | Across any run, a thinking enemy keeps thinking. Without the timer, a non-thinking enemy yields an unchanged, silent result every frame. With non-negative frame times the counter never goes negative |
| EnemyRun.ThinkingIsPermanent | Assets/Scripts/Enemies/EnemyBehaviour.cs:27-47 | Once thinking at some point of a run, the enemy is thinking at every later point |
| EnemyRun.SpawnPhaseIsInert | Assets/Scripts/Enemies/EnemyBehaviour.cs:43-47 | Until the timer fires, any non-thinking enemy, in particular one in the as-written `Spawn` state or the corrected `SpawnAt` state, issues no destination, never attacks and keeps its state |
| EnemyRun.QuietRunAccumulates | Assets/Scripts/Enemies/EnemyBehaviour.cs:50-51 | While no attack happens, a thinking enemy's counter equals its start value plus all the frame time so far |
| EnemyRun.AttackNeedsRechargeTime | Assets/Scripts/Enemies/EnemyBehaviour.cs:50-58 | The first attack of a thinking enemy's run comes only once the starting counter plus the frame time up to and including that frame reaches rechargeTime |
| EnemyRun.AttacksAreRechargeTimeApart | Assets/Scripts/Enemies/EnemyBehaviour.cs:50-58 | Between two consecutive attacks at least rechargeTime of frame time passes |
| Player.Start | Assets/Scripts/Player/PlayerHealth.cs:7-11 | The spawn point becomes the current position; position and maxHitPoints are kept, and the pool is left as the unmodelled `base.Start()` leaves it (taken as a no-op) |
| Player.Respawn | Assets/Scripts/Player/PlayerHealth.cs:18-22 | Hit points become maxHitPoints and the position becomes the spawn point; maxHitPoints and the spawn point are unchanged |
| Player.Death | Assets/Scripts/Player/PlayerHealth.cs:13-16 | Death refills the pool and teleports to the spawn point, touching neither maxHitPoints nor the spawn point |
| Player.DeathIsRespawn | Assets/Scripts/Player/PlayerHealth.cs:13-16 | Death has exactly the effect of Respawn |
| Player.RespawnIsIdempotent | Assets/Scripts/Player/PlayerHealth.cs:18-22 | Respawning twice equals respawning once |
| Player.RespawnForgetsPriorState | Assets/Scripts/Player/PlayerHealth.cs:18-22 | Two players respawn to the same record if and only if they share maxHitPoints and spawn point; prior hit points and position do not matter |
| Player.DeathReturnsToStartPosition | Assets/Scripts/Player/PlayerHealth.cs:5-22 | After Start, whatever position and hit points the player reaches, death brings them back to the position at Start with a full pool |
| Player.RespawnRestoresPoolBounds | Assets/Scripts/Player/PlayerHealth.cs:18-21 | With a positive pool size, the respawned hit points lie between 0 and maxHitPoints |

## Left out

- Spawn scale animation (`SpawnAnimation`) and the facing interpolation at the end of `Movement`: float vector and quaternion interpolation with no effect on any decision.
- `Physics.RaycastAll` and `LayerMask.NameToLayer`: engine calls. A frame carries the hit layers as abstract tags, and the model reads the first one in the order given. The engine's actual ordering of the hits is not modelled.
- `NavMeshAgent.SetDestination`: the pathfinder is a black box. The model records only the destination a frame issues.
- `Vector3.Distance`: float geometry. The distance is an input of the frame, not derived from the two positions.
- `Invoke("BeginThinking", 1.5f)`: engine timer scheduling. The 1.5-second delay is not modelled; the timer firing is an explicit event.
- `Debug.Log`, `OnDrawGizmos`, `GetComponent` and the static player-transform lookup: logging, editor visuals and engine wiring.
- `Attack` and the `damage` it applies: abstract in the source, and its variants are not part of this model. The model records only whether it fired.
- The `Health` base class, including `ApplyDamage` and its own `Start`, is not part of this model. The model covers only the player's death hook and respawn, and hit points are reals.
- Player.Start: the call to `base.Start()` is modelled as a no-op, because the body of `Health.Start` is not part of this model. The clause that `currentHitPoints` is unchanged holds only under that assumption; if the base class refills the pool, that clause does not describe the program.
- EnemyBehaviour.Movement: models only the base-class `Movement`. It is `protected virtual`, so a concrete enemy may override it, and `Update` then calls the override; no overrides are part of this model.
- EnemyBehaviour.Recharge: compares reals. Float rounding of the accumulated counter, and the fact that the float constant 0.1f is not exactly 0.1, are not modelled.
- EnemyBehaviour.Movement: compares reals. Float NaN distances, which make every comparison false and so keep the previous target, are not modelled.

## Findings

| source | as written | input that shows it | evidently intended | confidence | as-written member | corrected member |
|---|---|---|---|---|---|---|
| Assets/Scripts/Enemies/EnemyBehaviour.cs:11 | `target` is never assigned before `Movement` may keep it, so it starts as the zero vector | attackDistance 3, triggerDistance 10; first thinking frame with the player at distance 1 and no ray hit: the destination issued is (0, 0, 0) | in the holding case the enemy stays where it is, so `target` starts at the spawn position | medium, not executed | EnemyBehaviour.SpawnSendsEnemyToWorldOrigin | EnemyBehaviour.SpawnAtFirstFrameTargetsAKnownPoint |

The run properties in `EnemyRun` are stated for arbitrary starting states, under these preconditions:
- `EnemyRun.QuietRunAccumulates` and `EnemyRun.AttackNeedsRechargeTime` require a thinking start state. Before thinking, frames do not advance the counter.
- The non-negativity clause of `EnemyRun.Run` requires a non-negative starting counter and non-negative frame times.
- `EnemyRun.ThinkingIsPermanent`, `EnemyRun.AttacksAreRechargeTimeApart` and the remaining clauses of `EnemyRun.Run` need no assumption about the start state.

`EnemyRun.SpawnPhaseIsInert` covers every non-thinking state, both the as-written `Spawn` and the corrected `SpawnAt`: the inert intro is what the program does. The corrected `SpawnAt` matters only for the first thinking frame.
