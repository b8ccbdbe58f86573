/** The game's camera (GameCamera), abstracted to what the player controller
    relies on: a position, the six camera-relative direction vectors, and the
    rotation applied to it so far. Its view matrices and its own per-frame
    update are not part of this model. */
module Cameras {
  import opened Xna

  /** The camera-relative directions `Forward`, `Back`, `Left`, `Right`, `Up`, `Down`. */
  datatype Basis = Basis(forward: Vector3, back: Vector3, left: Vector3,
                         right: Vector3, up: Vector3, down: Vector3)

  class GameCamera {
    var position: Vector3
    var basis: Basis
    /** Total degrees applied through `RotateViewVertical` since construction. */
    var verticalRotation: real
    /** Total degrees applied through `RotateViewHorizontal` since construction. */
    var horizontalRotation: real

    /** Places the camera at `position` looking at `target`. The basis the
        camera derives from the target and the aspect ratio is left
        unspecified. */
    constructor Initialize(position: Vector3, target: Vector3, aspectRatio: real)
      ensures this.position == position
      ensures verticalRotation == 0.0 && horizontalRotation == 0.0
    {
      this.position := position;
      basis := *;
      verticalRotation := 0.0;
      horizontalRotation := 0.0;
    }

    /** Pitches the view by `degrees`. The new basis is computed by the camera
        itself and is left unspecified here. */
    method RotateViewVertical(degrees: real)
      modifies this`verticalRotation, this`basis
      ensures verticalRotation == old(verticalRotation) + degrees
    {
      verticalRotation := verticalRotation + degrees;
      basis := *;
    }

    /** Yaws the view by `degrees`; the new basis is left unspecified. */
    method RotateViewHorizontal(degrees: real)
      modifies this`horizontalRotation, this`basis
      ensures horizontalRotation == old(horizontalRotation) + degrees
    {
      horizontalRotation := horizontalRotation + degrees;
      basis := *;
    }

    /** Translates the camera; its orientation does not change. */
    method Move(offset: Vector3)
      modifies this`position
      ensures position == old(position).Plus(offset)
    {
      position := position.Plus(offset);
    }
  }
}
