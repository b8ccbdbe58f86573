/** The first-person look/move controller (Player): look angles clamped to a
    symmetric range, the camera turned by the residual of each clamped step,
    and a hit sphere kept on the camera. */
module Players {
  import opened Xna
  import opened Cameras

  const MaxVerticalAngle: real := 45.0
  const MaxHorizontalAngle: real := 30.0

  /** `MathHelper.Clamp`: first capped at `max`, then raised to `min`. */
  function Clamp(value: real, min: real, max: real): (r: real)
    ensures min <= max ==> min <= r <= max
    ensures min <= value <= max ==> r == value
    ensures min <= max && value > max ==> r == max
    ensures value < min ==> r == min
  {
    var capped := if value > max then max else value;
    if capped < min then min else capped
  }

  /** The look angle after one look step of `degrees` within `[-limit, limit]`. */
  function Look(angle: real, degrees: real, limit: real): (r: real)
    requires 0.0 <= limit
    ensures -limit <= r <= limit
    ensures angle == limit && degrees >= 0.0 ==> r == limit
    ensures angle == -limit && degrees <= 0.0 ==> r == -limit
    ensures -limit <= angle + degrees <= limit ==> r == angle + degrees
  {
    Clamp(angle + degrees, -limit, limit)
  }

  /** The look angle after a sequence of look steps, in order. */
  function AngleAfter(angle: real, deltas: seq<real>, limit: real): real
    requires 0.0 <= limit
    decreases |deltas|
  {
    if deltas == [] then angle
    else AngleAfter(Look(angle, deltas[0], limit), deltas[1..], limit)
  }

  /** The rotation each look step of the sequence applies to the camera. */
  function Rotations(angle: real, deltas: seq<real>, limit: real): seq<real>
    requires 0.0 <= limit
    decreases |deltas|
  {
    if deltas == [] then []
    else
      var next := Look(angle, deltas[0], limit);
      [next - angle] + Rotations(next, deltas[1..], limit)
  }

  function Sum(s: seq<real>): real
  {
    if s == [] then 0.0 else s[0] + Sum(s[1..])
  }

  /** Over any sequence of look steps the camera is turned by exactly the
      difference between the final and the initial look angle. */
  lemma {:induction false} TotalRotationTelescopes(angle: real, deltas: seq<real>, limit: real)
    requires 0.0 <= limit
    ensures |Rotations(angle, deltas, limit)| == |deltas|
    ensures Sum(Rotations(angle, deltas, limit)) == AngleAfter(angle, deltas, limit) - angle
    decreases |deltas|
  {
    if deltas != [] {
      TotalRotationTelescopes(Look(angle, deltas[0], limit), deltas[1..], limit);
    }
  }

  /** Once the angle stands within the range, every sequence of steps keeps it there. */
  lemma {:induction false} AngleStaysInRange(angle: real, deltas: seq<real>, limit: real)
    requires 0.0 <= limit && -limit <= angle <= limit
    ensures -limit <= AngleAfter(angle, deltas, limit) <= limit
    decreases |deltas|
  {
    if deltas != [] {
      AngleStaysInRange(Look(angle, deltas[0], limit), deltas[1..], limit);
    }
  }

  /** At the upper (lower) limit, further non-negative (non-positive) steps
      neither move the angle nor turn the camera. */
  lemma {:induction false} SaturatedStaysPut(angle: real, deltas: seq<real>, limit: real)
    requires 0.0 <= limit
    requires (angle == limit && forall i :: 0 <= i < |deltas| ==> deltas[i] >= 0.0)
          || (angle == -limit && forall i :: 0 <= i < |deltas| ==> deltas[i] <= 0.0)
    ensures AngleAfter(angle, deltas, limit) == angle
    ensures forall i :: 0 <= i < |Rotations(angle, deltas, limit)| ==> Rotations(angle, deltas, limit)[i] == 0.0
  {
    if deltas != [] {
      SaturatedStaysPut(angle, deltas[1..], limit);
    }
  }

  /** Repeating a step of at least twice the limit (looking up by 100 degrees
      over and over, say) drives the angle to the limit and no further: the
      camera turns by `limit - angle` in total. */
  lemma RepeatedLookSaturates(angle: real, deltas: seq<real>, limit: real)
    requires 0.0 <= limit && -limit <= angle <= limit
    requires |deltas| >= 1
    requires forall i :: 0 <= i < |deltas| ==> deltas[i] >= 2.0 * limit
    ensures AngleAfter(angle, deltas, limit) == limit
    ensures Sum(Rotations(angle, deltas, limit)) == limit - angle
  {
    assert Look(angle, deltas[0], limit) == limit;
    SaturatedStaysPut(limit, deltas[1..], limit);
    TotalRotationTelescopes(angle, deltas, limit);
  }

  class Player {
    var verticalLookAngle: real
    var horizontalLookAngle: real
    var camera: GameCamera?
    var hitbox: BoundingSphere

    /** The look angles lie within their limits. */
    ghost predicate Bounded()
      reads this
    {
      -MaxVerticalAngle <= verticalLookAngle <= MaxVerticalAngle &&
      -MaxHorizontalAngle <= horizontalLookAngle <= MaxHorizontalAngle
    }

    ghost predicate Valid()
      reads this
    {
      camera != null && Bounded()
    }

    /** A new player: both angles at zero, no camera yet, the default sphere. */
    constructor ()
      ensures verticalLookAngle == 0.0 && horizontalLookAngle == 0.0
      ensures camera == null && hitbox == BoundingSphere(Origin, 0.0)
      ensures Bounded()
    {
      verticalLookAngle := 0.0;
      horizontalLookAngle := 0.0;
      camera := null;
      hitbox := BoundingSphere(Origin, 0.0);
    }

    /** Attaches the camera and puts a unit hit sphere at its position. */
    method Initialize(playerCamera: GameCamera)
      modifies this`camera, this`hitbox
      ensures camera == playerCamera
      ensures hitbox == BoundingSphere(playerCamera.position, 1.0)
    {
      camera := playerCamera;
      hitbox := BoundingSphere(playerCamera.position, 1.0);
    }

    /** The overload taking a bounding box attaches the camera and ignores the box. */
    method InitializeWithBox(playerCamera: GameCamera, playerHitbox: BoundingBox)
      modifies this`camera
      ensures camera == playerCamera
    {
      camera := playerCamera;
    }

    /** Pitches the camera without clamping and without touching the look angles. */
    method RotateUpDown(degrees: real)
      requires camera != null
      modifies camera`verticalRotation, camera`basis
      ensures camera.verticalRotation == old(camera.verticalRotation) + degrees
    {
      camera.RotateViewVertical(degrees);
    }

    /** Yaws the camera without clamping and without touching the look angles. */
    method RotateLeftRight(degrees: real)
      requires camera != null
      modifies camera`horizontalRotation, camera`basis
      ensures camera.horizontalRotation == old(camera.horizontalRotation) + degrees
    {
      camera.RotateViewHorizontal(degrees);
    }

    /** Clamped vertical look: the angle moves to the clamped target and the
        camera is pitched by the residual, so the difference between the
        camera's pitch and the look angle is kept. */
    method LookUpDown(degrees: real)
      requires Valid()
      modifies this`verticalLookAngle, camera`verticalRotation, camera`basis
      ensures Valid()
      ensures verticalLookAngle == Look(old(verticalLookAngle), degrees, MaxVerticalAngle)
      ensures camera.verticalRotation - verticalLookAngle
           == old(camera.verticalRotation) - old(verticalLookAngle)
    {
      var targetAngle := Clamp(verticalLookAngle + degrees, -MaxVerticalAngle, MaxVerticalAngle);
      camera.RotateViewVertical(targetAngle - verticalLookAngle);
      verticalLookAngle := targetAngle;
    }

    /** Clamped horizontal look, the same way around the horizontal limit. */
    method LookLeftRight(degrees: real)
      requires Valid()
      modifies this`horizontalLookAngle, camera`horizontalRotation, camera`basis
      ensures Valid()
      ensures horizontalLookAngle == Look(old(horizontalLookAngle), degrees, MaxHorizontalAngle)
      ensures camera.horizontalRotation - horizontalLookAngle
           == old(camera.horizontalRotation) - old(horizontalLookAngle)
    {
      var targetAngle := Clamp(horizontalLookAngle + degrees, -MaxHorizontalAngle, MaxHorizontalAngle);
      camera.RotateViewHorizontal(targetAngle - horizontalLookAngle);
      horizontalLookAngle := targetAngle;
    }

    /** Moves the camera by `speed` times `direction`; the look angles stay. */
    method Move(speed: real, direction: Vector3)
      requires camera != null
      modifies camera`position
      ensures camera.position == old(camera.position).Plus(direction.Scale(speed))
    {
      camera.Move(direction.Scale(speed));
    }

    /** Re-centres the hit sphere on the camera. */
    method Update()
      requires camera != null
      modifies this`hitbox
      ensures hitbox == BoundingSphere(camera.position, old(hitbox).radius)
    {
      hitbox := hitbox.(center := camera.position);
    }
  }
}
