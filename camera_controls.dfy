/** Experiment 001's input systems: the field-of-view zoom and the key-pair
    axes of `camera_controls`, the R-key reset of the command pods that
    have a `Velocity` in `state_controls`, and `app_controls`. Camera rotation and translation
    (vector and quaternion math) are not part of this model. */
module CameraControls {
  import opened Common

  /** `std::f32::consts::PI`, the exact value of the 32-bit float. */
  const PI: real := 3.1415927410125732421875

  const CAMERA_STRAFE_SPEED: real := 0.1
  const CAMERA_MOVEMENT_SPEED: real := 0.1
  const CAMERA_ROLL_SPEED: real := 0.1
  const CAMERA_ZOOM_SPEED: real := 1.1

  /** Named "minimum" zoom, this is the LARGEST field of view. */
  const CAMERA_ZOOM_MINIMUM: real := PI / 2.0

  /** Named "maximum" zoom, this is the SMALLEST field of view. */
  const CAMERA_ZOOM_MAXIMUM: real := PI / 1000.0

  /** The field of view the middle mouse button restores. */
  const DEFAULT_FOV: real := PI / 4.0

  /** The two clamping statements, upper bound first. */
  function ClampFov(f: real): (r: real)
    ensures CAMERA_ZOOM_MAXIMUM <= r <= CAMERA_ZOOM_MINIMUM
    ensures CAMERA_ZOOM_MAXIMUM <= f <= CAMERA_ZOOM_MINIMUM ==> r == f
    ensures f > CAMERA_ZOOM_MINIMUM ==> r == CAMERA_ZOOM_MINIMUM
    ensures f < CAMERA_ZOOM_MAXIMUM ==> r == CAMERA_ZOOM_MAXIMUM
  {
    var capped := if f > CAMERA_ZOOM_MINIMUM then CAMERA_ZOOM_MINIMUM else f;
    if capped < CAMERA_ZOOM_MAXIMUM then CAMERA_ZOOM_MAXIMUM else capped
  }

  /** One mouse-wheel event with vertical scroll `y`. */
  function Zoom(fov: real, y: real): (r: real)
    ensures CAMERA_ZOOM_MAXIMUM <= r <= CAMERA_ZOOM_MINIMUM
    ensures y > 0.0 ==> r == ClampFov(fov / CAMERA_ZOOM_SPEED)
    ensures y < 0.0 ==> r == ClampFov(fov * CAMERA_ZOOM_SPEED)
    ensures y == 0.0 ==> r == ClampFov(fov)
  {
    var desired := fov;
    var desired' := if y > 0.0 then desired / CAMERA_ZOOM_SPEED else desired;
    var desired'' := if y < 0.0 then desired' * CAMERA_ZOOM_SPEED else desired';
    ClampFov(desired'')
  }

  /** From a field of view in range, scrolling up never widens it, scrolling
      down never narrows it, and a zero scroll leaves it as it is. */
  lemma ZoomDirection(fov: real, y: real)
    requires CAMERA_ZOOM_MAXIMUM <= fov <= CAMERA_ZOOM_MINIMUM
    ensures y > 0.0 ==> Zoom(fov, y) <= fov
    ensures y < 0.0 ==> Zoom(fov, y) >= fov
    ensures y == 0.0 ==> Zoom(fov, y) == fov
  {
  }

  /** Away from the clamps, one scroll up and one scroll down undo each
      other, in either order. */
  lemma ZoomRoundTrip(fov: real, up: real, down: real)
    requires up > 0.0 && down < 0.0
    ensures CAMERA_ZOOM_MAXIMUM * CAMERA_ZOOM_SPEED <= fov <= CAMERA_ZOOM_MINIMUM ==>
              Zoom(Zoom(fov, up), down) == fov
    ensures CAMERA_ZOOM_MAXIMUM <= fov <= CAMERA_ZOOM_MINIMUM / CAMERA_ZOOM_SPEED ==>
              Zoom(Zoom(fov, down), up) == fov
  {
  }

  /** The field of view after a frame's wheel events, in order. */
  function ZoomAll(fov: real, ys: seq<real>): real
  {
    if ys == [] then fov else Zoom(ZoomAll(fov, ys[..|ys| - 1]), ys[|ys| - 1])
  }

  /** A field of view already in range stays in range, whatever the events. */
  lemma {:induction false} ZoomAllStaysInRange(fov: real, ys: seq<real>)
    requires CAMERA_ZOOM_MAXIMUM <= fov <= CAMERA_ZOOM_MINIMUM
    ensures CAMERA_ZOOM_MAXIMUM <= ZoomAll(fov, ys) <= CAMERA_ZOOM_MINIMUM
  {
    if ys != [] {
      ZoomAllStaysInRange(fov, ys[..|ys| - 1]);
    }
  }

  /** The keyboard keys the systems read. */
  datatype Key = KeyA | KeyD | KeyW | KeyS | ControlLeft | ShiftLeft | KeyQ | KeyE | KeyR | Escape

  /** One axis driven by a key pair: the first key wins, then the second,
      else the axis is 0. */
  function AxisInput(pressed: set<Key>, negative: Key, positive: Key, speed: real, dt: real): real
  {
    if negative in pressed then -speed * dt
    else if positive in pressed then speed * dt
    else 0.0
  }

  /** The per-frame movement amounts. */
  datatype Motion = Motion(strafe: real, thrust: real, rise: real, roll: real)

  const NO_MOTION: Motion := Motion(0.0, 0.0, 0.0, 0.0)

  /** D beats A, S beats W, ControlLeft beats ShiftLeft and Q beats E. */
  function MotionFor(pressed: set<Key>, dt: real): Motion
  {
    Motion(AxisInput(pressed, KeyD, KeyA, CAMERA_STRAFE_SPEED, dt),
           AxisInput(pressed, KeyS, KeyW, CAMERA_MOVEMENT_SPEED, dt),
           AxisInput(pressed, ControlLeft, ShiftLeft, CAMERA_MOVEMENT_SPEED, dt),
           AxisInput(pressed, KeyQ, KeyE, CAMERA_ROLL_SPEED, dt))
  }

  /** The first key of a pair decides the axis whether or not the second is
      also held; the second alone gives the opposite direction; with neither
      held that axis stays 0, whatever the other pairs do. */
  lemma KeyPrecedence(pressed: set<Key>, dt: real)
    ensures KeyD in pressed ==> MotionFor(pressed, dt).strafe == MotionFor(pressed - {KeyA}, dt).strafe
                                                              == -CAMERA_STRAFE_SPEED * dt
    ensures KeyD !in pressed && KeyA in pressed ==> MotionFor(pressed, dt).strafe == CAMERA_STRAFE_SPEED * dt
    ensures KeyS in pressed ==> MotionFor(pressed, dt).thrust == -CAMERA_MOVEMENT_SPEED * dt
    ensures KeyS !in pressed && KeyW in pressed ==> MotionFor(pressed, dt).thrust == CAMERA_MOVEMENT_SPEED * dt
    ensures ControlLeft in pressed ==> MotionFor(pressed, dt).rise == -CAMERA_MOVEMENT_SPEED * dt
    ensures ControlLeft !in pressed && ShiftLeft in pressed ==> MotionFor(pressed, dt).rise == CAMERA_MOVEMENT_SPEED * dt
    ensures KeyQ in pressed ==> MotionFor(pressed, dt).roll == -CAMERA_ROLL_SPEED * dt
    ensures KeyQ !in pressed && KeyE in pressed ==> MotionFor(pressed, dt).roll == CAMERA_ROLL_SPEED * dt
    ensures KeyD !in pressed && KeyA !in pressed ==> MotionFor(pressed, dt).strafe == 0.0
    ensures KeyS !in pressed && KeyW !in pressed ==> MotionFor(pressed, dt).thrust == 0.0
    ensures ControlLeft !in pressed && ShiftLeft !in pressed ==> MotionFor(pressed, dt).rise == 0.0
    ensures KeyQ !in pressed && KeyE !in pressed ==> MotionFor(pressed, dt).roll == 0.0
  {
  }

  /** `camera_controls`, for the field of view and the four axes. It returns
      at once when the camera's transform or perspective projection is not
      found; otherwise the middle button resets the field of view before the
      wheel events of the same frame are applied. */
  method CameraControlsSystem(cameraFound: bool, perspective: bool, fov: real, middlePressed: bool,
                              wheel: seq<real>, pressed: set<Key>, dt: real)
    returns (newFov: real, motion: Motion)
    ensures !(cameraFound && perspective) ==> newFov == fov && motion == NO_MOTION
    ensures cameraFound && perspective ==>
              && newFov == ZoomAll(if middlePressed then DEFAULT_FOV else fov, wheel)
              && motion == MotionFor(pressed, dt)
    ensures cameraFound && perspective && wheel != [] ==>
              CAMERA_ZOOM_MAXIMUM <= newFov <= CAMERA_ZOOM_MINIMUM
  {
    newFov, motion := fov, NO_MOTION;
    if !cameraFound || !perspective {
      return;
    }
    if middlePressed {
      newFov := DEFAULT_FOV;
    }
    ghost var start := newFov;
    for i := 0 to |wheel|
      invariant newFov == ZoomAll(start, wheel[..i])
      invariant i > 0 ==> CAMERA_ZOOM_MAXIMUM <= newFov <= CAMERA_ZOOM_MINIMUM
    {
      var desiredFov := newFov;
      if wheel[i] > 0.0 {
        desiredFov := desiredFov / CAMERA_ZOOM_SPEED;
      }
      if wheel[i] < 0.0 {
        desiredFov := desiredFov * CAMERA_ZOOM_SPEED;
      }
      if desiredFov > CAMERA_ZOOM_MINIMUM {
        desiredFov := CAMERA_ZOOM_MINIMUM;
      }
      if desiredFov < CAMERA_ZOOM_MAXIMUM {
        desiredFov := CAMERA_ZOOM_MAXIMUM;
      }
      assert wheel[..i + 1][..i] == wheel[..i];
      newFov := desiredFov;
    }
    assert wheel[..|wheel|] == wheel;
    var strafe, thrust, rise, roll := 0.0, 0.0, 0.0, 0.0;
    if KeyD in pressed {
      strafe := -CAMERA_STRAFE_SPEED * dt;
    } else if KeyA in pressed {
      strafe := CAMERA_STRAFE_SPEED * dt;
    }
    if KeyS in pressed {
      thrust := -CAMERA_MOVEMENT_SPEED * dt;
    } else if KeyW in pressed {
      thrust := CAMERA_MOVEMENT_SPEED * dt;
    }
    if ControlLeft in pressed {
      rise := -CAMERA_MOVEMENT_SPEED * dt;
    } else if ShiftLeft in pressed {
      rise := CAMERA_MOVEMENT_SPEED * dt;
    }
    if KeyQ in pressed {
      roll := -CAMERA_ROLL_SPEED * dt;
    } else if KeyE in pressed {
      roll := CAMERA_ROLL_SPEED * dt;
    }
    motion := Motion(strafe, thrust, rise, roll);
  }

  /** A command pod's `Transform` (translation, rotation, scale) and
      `Velocity` (linear, angular). */
  datatype PodBody = PodBody(translation: Vec3, rotation: Quat, scale: Vec3, linvel: Vec3, angvel: Vec3)

  /** Where R puts every command pod. */
  const RESET_TRANSLATION: Vec3 := Vec3(0.0, 40.0, 0.0)

  /** The R-key part of `state_controls`. `pods` are the entities its query
      returns: command pods that also have a `Velocity`, which are the pods
      the I key spawns. The pod `initiate_spawning` creates has no
      `Velocity`, so it is not among them. While R is held each of `pods`
      goes to RESET_TRANSLATION with the identity rotation and no velocity;
      its scale is kept. */
  method StateControls(pods: array<PodBody>, rPressed: bool)
    modifies pods
    ensures rPressed ==> forall i :: 0 <= i < pods.Length ==>
              && pods[i].translation == RESET_TRANSLATION && pods[i].rotation == IDENTITY
              && pods[i].linvel == ZERO3 && pods[i].angvel == ZERO3
              && pods[i].scale == old(pods[i].scale)
    ensures !rPressed ==> pods[..] == old(pods[..])
  {
    if !rPressed {
      return;
    }
    for i := 0 to pods.Length
      invariant forall j :: 0 <= j < i ==>
                  && pods[j].translation == RESET_TRANSLATION && pods[j].rotation == IDENTITY
                  && pods[j].linvel == ZERO3 && pods[j].angvel == ZERO3
                  && pods[j].scale == old(pods[j].scale)
      invariant forall j :: i <= j < pods.Length ==> pods[j] == old(pods[j])
    {
      pods[i] := pods[i].(translation := RESET_TRANSLATION, rotation := IDENTITY);
      pods[i] := pods[i].(linvel := ZERO3, angvel := ZERO3);
    }
  }

  /** `app_controls`, which runs in every state: Escape pressed this frame
      asks the app to exit. */
  function AppControls(justPressed: set<Key>): bool
  {
    Escape in justPressed
  }
}
