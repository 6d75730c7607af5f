/** Types shared by the player systems: optional values, the fixed-width
    integers the player record uses, 2D/3D vectors and the window size. */
module Common {

  datatype Option<+T> = None | Some(value: T)

  /** Rust `u16`: the player's fire rate in milliseconds. */
  newtype u16 = x: int | 0 <= x < 0x1_0000

  /** Rust `u128`: milliseconds since startup, as `Duration::as_millis` returns them. */
  newtype u128 = x: int | 0 <= x < 0x1_0000_0000_0000_0000_0000_0000_0000_0000

  /** Bevy `Vec2`. Coordinates are exact reals here; f32 rounding is not modelled. */
  datatype Vec2 = Vec2(x: real, y: real)

  /** The translation part of a Bevy `Transform`. */
  datatype Vec3 = Vec3(x: real, y: real, z: real)

  /** `Transform::default()` puts an entity at the origin. */
  const ORIGIN: Vec3 := Vec3(0.0, 0.0, 0.0)

  /** Window size in pixels (`WIDTH`, `HEIGHT` in main.rs). */
  const WIDTH: nat := 800
  const HEIGHT: nat := 600
}
