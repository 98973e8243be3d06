/** One enemy controller: the spawn gate, the targeting cascade and the attack cooldown,
    evaluated once per frame. The engine is reduced to what a frame shows the enemy. */
module EnemyBehaviour {
  import opened Geometry
  import opened Perception

  /** Slack by which the player may be beyond attackDistance and still be attacked. */
  const ERROR: real := 0.1

  /** Designer-set scalars, fixed for the enemy's lifetime. `damage` only feeds the variant's Attack. */
  datatype Config = Config(triggerDistance: real, attackDistance: real, rechargeTime: real, damage: real)

  /** The controller's own mutable fields; `cooldown` is timeElapsedSinceLastAttack. */
  datatype EnemyState = EnemyState(isThinking: bool, target: Point, cooldown: real)

  /** What one frame shows the enemy: both positions, the distance between them, the frame time,
      and the layers the ray toward the player hit, in the engine's order. */
  datatype Frame = Frame(enemyPosition: Point, playerPosition: Point, distanceToPlayer: real,
                         deltaTime: real, hits: seq<Layer>)

  /** The outcome of a frame: the new state, the destination handed to the pathfinder (if any),
      and whether Attack was invoked. */
  datatype TickResult = TickResult(state: EnemyState, destination: Option<Point>, attacked: bool)

  /** The outcome of the cooldown gate. */
  datatype Gate = Gate(attacked: bool, cooldown: real)

  /** The state right after instantiation, as written: the target field is never initialised,
      so it holds the zero vector. */
  function Spawn(): (s: EnemyState)
    ensures !s.isThinking && s.cooldown == 0.0
    ensures s.target == Origin
  {
    EnemyState(false, Origin, 0.0)
  }

  /** The state right after instantiation at `position`, with the target initialised to the
      enemy's own position, so that holding a target means holding position. */
  function SpawnAt(position: Point): (s: EnemyState)
    ensures !s.isThinking && s.cooldown == 0.0
    ensures s.target == position
  {
    EnemyState(false, position, 0.0)
  }

  /** The delayed spawn callback: the enemy starts thinking; nothing else changes. */
  function BeginThinking(s: EnemyState): (r: EnemyState)
    ensures r.isThinking
    ensures r.target == s.target && r.cooldown == s.cooldown
  {
    s.(isThinking := true)
  }

  /** The targeting cascade does not update the target: the player is within both radii and
      either the view is clear or the distance equals attackDistance exactly. */
  predicate Holds(cfg: Config, f: Frame) {
    && f.distanceToPlayer <= cfg.triggerDistance
    && f.distanceToPlayer <= cfg.attackDistance
    && (f.distanceToPlayer == cfg.attackDistance || !ObstacleOnTheWayToPlayer(f.hits))
  }

  /** The target chosen by the movement step, given the previous target. */
  function Movement(cfg: Config, target: Point, f: Frame): (t: Point)
    ensures f.distanceToPlayer > cfg.triggerDistance ==> t == f.enemyPosition
    ensures cfg.attackDistance < f.distanceToPlayer <= cfg.triggerDistance ==> t == f.playerPosition
    ensures (f.distanceToPlayer <= cfg.triggerDistance && f.distanceToPlayer < cfg.attackDistance
             && ObstacleOnTheWayToPlayer(f.hits)) ==> t == f.playerPosition
    ensures Holds(cfg, f) ==> t == target
  {
    if f.distanceToPlayer > cfg.triggerDistance then f.enemyPosition
    else if f.distanceToPlayer > cfg.attackDistance then f.playerPosition
    else if f.distanceToPlayer < cfg.attackDistance && ObstacleOnTheWayToPlayer(f.hits) then f.playerPosition
    else target
  }

  /** The previous target survives a frame for every previous target exactly when the cascade
      holds; otherwise the new target does not depend on the previous one at all. */
  lemma MovementKeepsTargetExactlyWhenHolding(cfg: Config, f: Frame)
    ensures Holds(cfg, f) <==> forall p :: Movement(cfg, p, f) == p
    ensures !Holds(cfg, f) ==> forall p, q :: Movement(cfg, p, f) == Movement(cfg, q, f)
  {
    if !Holds(cfg, f) {
      var t := Movement(cfg, Origin, f);
      assert t == f.enemyPosition || t == f.playerPosition;
      var p := if t == Origin then Point(1.0, 0.0, 0.0) else Origin;
      assert Movement(cfg, p, f) == t != p;
    }
  }

  /** Pursuit ignores the line of sight: between the radii the hits make no difference. */
  lemma PursuitIgnoresObstacles(cfg: Config, target: Point, f: Frame, hits: seq<Layer>)
    requires cfg.attackDistance < f.distanceToPlayer <= cfg.triggerDistance
    ensures Movement(cfg, target, f) == Movement(cfg, target, f.(hits := hits)) == f.playerPosition
  {
  }

  /** The new target is always the previous one, the enemy's position or the player's position. */
  lemma MovementChoosesAKnownPoint(cfg: Config, target: Point, f: Frame)
    ensures Movement(cfg, target, f) in {target, f.enemyPosition, f.playerPosition}
  {
  }

  /** The cooldown gate: accumulate the frame time, and fire once the recharge time has passed
      and the player is no further than attackDistance plus the slack. */
  function Recharge(cfg: Config, cooldown: real, deltaTime: real, distanceToPlayer: real): (g: Gate)
    ensures g.attacked <==> cooldown + deltaTime >= cfg.rechargeTime
                            && distanceToPlayer - cfg.attackDistance < ERROR
    ensures g.attacked ==> g.cooldown == 0.0
    ensures !g.attacked ==> g.cooldown == cooldown + deltaTime
  {
    var elapsed := cooldown + deltaTime;
    if elapsed < cfg.rechargeTime then Gate(false, elapsed)
    else if distanceToPlayer - cfg.attackDistance < ERROR then Gate(true, 0.0)
    else Gate(false, elapsed)
  }

  /** With non-negative frame times the counter never goes negative. */
  lemma RechargeKeepsCooldownNonNegative(cfg: Config, cooldown: real, deltaTime: real, distanceToPlayer: real)
    requires cooldown >= 0.0 && deltaTime >= 0.0
    ensures Recharge(cfg, cooldown, deltaTime, distanceToPlayer).cooldown >= 0.0
  {
  }

  /** The slack lets an attack fire just outside attackDistance, but never at or beyond
      attackDistance plus the slack. */
  lemma RechargeRangeSlack(cfg: Config, cooldown: real, deltaTime: real, distanceToPlayer: real)
    requires cooldown + deltaTime >= cfg.rechargeTime
    ensures cfg.attackDistance <= distanceToPlayer < cfg.attackDistance + ERROR
            ==> Recharge(cfg, cooldown, deltaTime, distanceToPlayer).attacked
    ensures distanceToPlayer >= cfg.attackDistance + ERROR
            ==> !Recharge(cfg, cooldown, deltaTime, distanceToPlayer).attacked
  {
  }

  /** One frame of the controller. Before thinking starts nothing but the intro animation runs;
      afterwards the target is recomputed and issued, then the cooldown gate runs on the same
      distance to the player. */
  function Update(cfg: Config, s: EnemyState, f: Frame): (r: TickResult)
    ensures r.state.isThinking == s.isThinking
    ensures !s.isThinking ==> r.state == s && r.destination == None && !r.attacked
    ensures s.isThinking ==> r.destination == Some(r.state.target)
                             && r.state.target == Movement(cfg, s.target, f)
    ensures s.isThinking ==> (r.attacked <==> s.cooldown + f.deltaTime >= cfg.rechargeTime
                                              && f.distanceToPlayer - cfg.attackDistance < ERROR)
    ensures s.isThinking && r.attacked ==> r.state.cooldown == 0.0
    ensures s.isThinking && !r.attacked ==> r.state.cooldown == s.cooldown + f.deltaTime
  {
    if !s.isThinking then TickResult(s, None, false)
    else
      var target := Movement(cfg, s.target, f);
      var gate := Recharge(cfg, s.cooldown, f.deltaTime, f.distanceToPlayer);
      TickResult(EnemyState(true, target, gate.cooldown), Some(target), gate.attacked)
  }

  /** Targeting and the attack gate are independent: an occluded player inside attackDistance is
      chased for a clear shot and attacked in the same frame once the recharge time has passed. */
  lemma ScenarioOccludedPlayerIsChasedAndAttacked()
    ensures var cfg := Config(10.0, 3.0, 2.0, 5.0);
            var s := EnemyState(true, Point(0.0, 0.0, 0.0), 2.5);
            var f := Frame(Point(4.0, 0.0, 0.0), Point(5.0, 0.0, 0.0), 1.0, 0.02, [Wall]);
            var r := Update(cfg, s, f);
            r.attacked && r.state.cooldown == 0.0 && r.destination == Some(f.playerPosition)
  {
  }

  /** As written, an enemy whose first thinking frame falls in the holding region is sent to the
      world origin, a point that is neither its own position nor the player's. */
  lemma SpawnSendsEnemyToWorldOrigin()
    ensures var cfg := Config(10.0, 3.0, 2.0, 5.0);
            var f := Frame(Point(5.0, 0.0, 5.0), Point(6.0, 0.0, 5.0), 1.0, 0.02, []);
            var r := Update(cfg, BeginThinking(Spawn()), f);
            r.destination == Some(Origin) && Origin != f.enemyPosition && Origin != f.playerPosition
  {
  }

  /** With the target initialised at spawn, the first thinking frame sends the enemy to its own
      position or to the player, for every configuration and every frame. */
  lemma SpawnAtFirstFrameTargetsAKnownPoint(cfg: Config, position: Point, f: Frame)
    requires f.enemyPosition == position
    ensures Update(cfg, BeginThinking(SpawnAt(position)), f).destination
            in {Some(f.enemyPosition), Some(f.playerPosition)}
  {
  }
}
