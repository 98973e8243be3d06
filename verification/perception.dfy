/** Line-of-sight test of the enemy controller: is an opaque surface the first thing the ray hits? */
module Perception {

  /** The collision layer of a ray hit: the layer named "Wall", the layer named "Ground", or any
      other layer. Only the two layers the controller names are told apart. */
  datatype Layer = Wall | Ground | Other

  /** Surfaces that block the enemy's view of the player. */
  predicate IsOpaque(layer: Layer) {
    layer == Wall || layer == Ground
  }

  /** The obstacle test on the hits of one ray, listed in the order the physics engine reports them.
      Only the first hit is looked at; no hit at all means a clear view. */
  function ObstacleOnTheWayToPlayer(hits: seq<Layer>): (blocked: bool)
    ensures hits == [] ==> !blocked
    ensures blocked <==> |hits| > 0 && (hits[0] == Wall || hits[0] == Ground)
  {
    if |hits| == 0 then false
    else if hits[0] == Wall || hits[0] == Ground then true
    else false
  }

  /** Whatever lies behind the first hit never changes the verdict. */
  lemma OnlyFirstHitMatters(first: Layer, rest: seq<Layer>, rest': seq<Layer>)
    ensures ObstacleOnTheWayToPlayer([first] + rest) == ObstacleOnTheWayToPlayer([first] + rest')
    ensures ObstacleOnTheWayToPlayer([first] + rest) <==> IsOpaque(first)
  {
  }

  /** The test is not "is there a wall anywhere on the ray": a wall behind another hit is ignored,
      and a clear first hit gives a clear view. */
  lemma WallBehindFirstHitIsIgnored()
    ensures !ObstacleOnTheWayToPlayer([Other, Wall])
    ensures ObstacleOnTheWayToPlayer([Wall, Other])
  {
  }
}
