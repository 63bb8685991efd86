/** Values shared by the three experiments: engine results that the model
    takes as inputs, and the small component values the systems write. */
module Common {

  datatype Option<+T> = None | Some(value: T)

  /** What running a system or a frame comes to: it returns (with a value,
      or with `()` when it only changes state) or it panics (`todo!()`,
      `expect`, a missing resource). */
  datatype Outcome<+T> = Returns(value: T) | Panics

  /** An ECS entity id. */
  type Entity = nat

  /** A 2-D position: a viewport position or an overlay (2-D world) position. */
  datatype Point = Point(x: real, y: real)

  datatype Vec3 = Vec3(x: real, y: real, z: real)

  const ZERO3: Vec3 := Vec3(0.0, 0.0, 0.0)

  datatype Quat = Quat(x: real, y: real, z: real, w: real)

  /** `Quat::from_rotation_x(0.0)`, the identity rotation. */
  const IDENTITY: Quat := Quat(0.0, 0.0, 0.0, 1.0)

  /** The engine's `Visibility` component. */
  datatype Visibility = Hidden | Visible

  /** What the engine's projections report about one object, taken as given:
      `world_to_viewport` fails (the object is behind the camera) or yields a
      viewport position; then `logical_viewport_rect().contains` of that
      position and `viewport_to_world_2d` of it (which may fail). */
  datatype Projection =
    | BehindCamera
    | InFront(viewport: Point, inRect: bool, overlay: Option<Point>)
}
