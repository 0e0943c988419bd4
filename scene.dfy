/** The parts of the engine's scene that the game code reads and writes: an
    entity's transform and the window the cursor lives in. */
module Scene {
  import opened Geometry

  datatype Option<T> = None | Some(value: T)

  /** An entity's local transform. Rotation is not part of this model: the
      only rotation the game writes comes from `atan2`, which is left out. */
  class Transform {
    var translation: Vec3
    var scale: Vec3

    constructor (translation: Vec3, scale: Vec3)
      ensures this.translation == translation && this.scale == scale
    {
      this.translation := translation;
      this.scale := scale;
    }
  }

  /** A window: its logical size and, while the cursor is inside it, the
      cursor position in window coordinates (origin at the top-left corner,
      y growing downwards). */
  datatype Window = Window(width: real, height: real, cursor: Option<Vec2>)
}
