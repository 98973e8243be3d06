/** Points of the game world and an optional value, shared by the enemy and player models. */
module Geometry {

  /** A world-space position. The engine's float vector is modelled with unbounded reals. */
  datatype Point = Point(x: real, y: real, z: real)

  /** The value a Vector3 field holds before anything assigns it. */
  const Origin: Point := Point(0.0, 0.0, 0.0)

  /** Some value, or nothing: used for the destination a frame may or may not issue. */
  datatype Option<+T> = None | Some(value: T)
}
