/** The player's health component: the spawn point captured at start, and the death reaction,
    which is an instant respawn. Damage itself belongs to the Health base class. */
module Player {
  import opened Geometry

  /** The fields the respawn reads or writes: the pool inherited from Health, the player's
      position, and the recorded spawn point. */
  datatype PlayerHealth = PlayerHealth(currentHitPoints: real, maxHitPoints: real,
                                       position: Point, startPos: Point)

  /** Start hook: remember where the player stands as the spawn point; nothing else changes. */
  function Start(p: PlayerHealth): (r: PlayerHealth)
    ensures r.startPos == p.position
    ensures r.(startPos := p.startPos) == p
  {
    p.(startPos := p.position)
  }

  /** Refill the pool and teleport back to the spawn point. */
  function Respawn(p: PlayerHealth): (r: PlayerHealth)
    ensures r.currentHitPoints == r.maxHitPoints == p.maxHitPoints
    ensures r.position == r.startPos == p.startPos
  {
    p.(currentHitPoints := p.maxHitPoints, position := p.startPos)
  }

  /** The death hook of the player variant. */
  function Death(p: PlayerHealth): (r: PlayerHealth)
    ensures r.currentHitPoints == p.maxHitPoints && r.position == p.startPos
    ensures r.maxHitPoints == p.maxHitPoints && r.startPos == p.startPos
  {
    Respawn(p)
  }

  /** Dying has exactly the effect of respawning. */
  lemma DeathIsRespawn(p: PlayerHealth)
    ensures Death(p) == Respawn(p)
  {
  }

  /** Respawning twice is respawning once. */
  lemma RespawnIsIdempotent(p: PlayerHealth)
    ensures Respawn(Respawn(p)) == Respawn(p)
  {
  }

  /** The respawned player depends only on the pool size and the spawn point, never on the hit
      points or position before death; and conversely those two are all it reveals. */
  lemma RespawnForgetsPriorState(p: PlayerHealth, q: PlayerHealth)
    ensures Respawn(p) == Respawn(q) <==> p.maxHitPoints == q.maxHitPoints && p.startPos == q.startPos
  {
  }

  /** After Start, however the player has moved or been hurt, a death returns them to the
      position they started at with a full pool. */
  lemma DeathReturnsToStartPosition(p: PlayerHealth, hitPoints: real, position: Point)
    ensures var r := Death(Start(p).(currentHitPoints := hitPoints, position := position));
            r.position == p.position && r.currentHitPoints == p.maxHitPoints
  {
  }

  /** A respawn leaves the pool within its bounds whenever the pool size is positive. */
  lemma RespawnRestoresPoolBounds(p: PlayerHealth)
    requires p.maxHitPoints > 0.0
    ensures 0.0 <= Respawn(p).currentHitPoints <= Respawn(p).maxHitPoints
  {
  }
}
