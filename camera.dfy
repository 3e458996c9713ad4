/**
 * The fly camera of `Camera.h`: position, Euler angles, speed, sensitivity
 * and zoom, updated in place by keyboard, mouse and scroll input.
 *
 * The basis vectors that `updateCameraVectors` derives with trigonometry and
 * normalisation are the value of the injected function `cameraVectors` of
 * (yaw, pitch, world-up); the model claims nothing about that function.
 */
module Cameras {
  import opened Geometry

  /** `Camera_Movement`. */
  datatype CameraMovement = Forward | Backward | Left | Right | Up | Down | YawRight

  // Default camera values.
  const DefaultYaw: real := -90.0
  const DefaultPitch: real := 0.0
  const DefaultSpeed: real := 5.0
  const DefaultSensitivity: real := 0.1
  const DefaultZoom: real := 45.0

  // The pitch bound of `ProcessMouseMovement` and the zoom range of `ProcessMouseScroll`.
  const PitchLimit: real := 89.0
  const MinZoom: real := 1.0
  const MaxZoom: real := 45.0

  /** Front, right and up, as `updateCameraVectors` computes them. */
  datatype Basis = Basis(front: Vec3, right: Vec3, up: Vec3)

  /** `v` brought into `[lo, hi]`. */
  function Clamp(v: real, lo: real, hi: real): (r: real)
    requires lo <= hi
    ensures lo <= r <= hi
    ensures lo <= v <= hi ==> r == v
    ensures v < lo ==> r == lo
    ensures v > hi ==> r == hi
  {
    if v < lo then lo else if v > hi then hi else v
  }

  /** The pitch after a mouse movement, before or without the constraint. */
  function NextPitch(pitch: real, delta: real, constrainPitch: bool): (r: real)
    ensures constrainPitch ==> -PitchLimit <= r <= PitchLimit
    ensures constrainPitch && -PitchLimit <= pitch + delta <= PitchLimit ==> r == pitch + delta
    ensures !constrainPitch ==> r == pitch + delta
  {
    if constrainPitch then Clamp(pitch + delta, -PitchLimit, PitchLimit) else pitch + delta
  }

  /** The zoom after a scroll by `yOffset`. */
  function NextZoom(zoom: real, yOffset: real): (r: real)
    ensures MinZoom <= r <= MaxZoom
    ensures MinZoom <= zoom - yOffset <= MaxZoom ==> r == zoom - yOffset
    ensures zoom - yOffset < MinZoom ==> r == MinZoom
    ensures zoom - yOffset > MaxZoom ==> r == MaxZoom
  {
    Clamp(zoom - yOffset, MinZoom, MaxZoom)
  }

  /** Scrolling back within range undoes a scroll that stayed in range. */
  lemma ScrollInverse(zoom: real, yOffset: real)
    requires MinZoom <= zoom <= MaxZoom && MinZoom <= zoom - yOffset <= MaxZoom
    ensures NextZoom(NextZoom(zoom, yOffset), -yOffset) == zoom
  {
  }

  class Camera {
    // Camera attributes.
    var position: Vec3
    var front: Vec3
    var up: Vec3
    var right: Vec3
    var worldUp: Vec3
    // Euler angles.
    var yaw: real
    var pitch: real
    // Camera options.
    var movementSpeed: real
    var mouseSensitivity: real
    var zoom: real
    /** The trigonometry of `updateCameraVectors`. */
    const cameraVectors: (real, real, Vec3) -> Basis

    /** The basis vectors are those derived from the current angles and world-up. */
    ghost predicate Valid()
      reads this
    {
      Basis(front, right, up) == cameraVectors(yaw, pitch, worldUp)
    }

    /** The constructor with vectors; its defaults are the position (0,0,0), world-up (0,1,0) and the default angles. */
    constructor (position: Vec3, up: Vec3, yaw: real, pitch: real, cameraVectors: (real, real, Vec3) -> Basis)
      ensures Valid()
      ensures this.position == position && worldUp == up && this.yaw == yaw && this.pitch == pitch
      ensures movementSpeed == DefaultSpeed && mouseSensitivity == DefaultSensitivity && zoom == DefaultZoom
      ensures this.cameraVectors == cameraVectors
    {
      front := Vec3(0.0, 0.0, -1.0);
      movementSpeed := DefaultSpeed;
      mouseSensitivity := DefaultSensitivity;
      zoom := DefaultZoom;
      this.cameraVectors := cameraVectors;
      this.position := position;
      worldUp := up;
      this.yaw := yaw;
      this.pitch := pitch;
      new;
      UpdateCameraVectors();
    }

    /** The constructor with scalar values. */
    constructor FromScalars(posX: real, posY: real, posZ: real, upX: real, upY: real, upZ: real,
                            yaw: real, pitch: real, cameraVectors: (real, real, Vec3) -> Basis)
      ensures Valid()
      ensures position == Vec3(posX, posY, posZ) && worldUp == Vec3(upX, upY, upZ)
      ensures this.yaw == yaw && this.pitch == pitch
      ensures movementSpeed == DefaultSpeed && mouseSensitivity == DefaultSensitivity && zoom == DefaultZoom
      ensures this.cameraVectors == cameraVectors
    {
      front := Vec3(0.0, 0.0, -1.0);
      movementSpeed := DefaultSpeed;
      mouseSensitivity := DefaultSensitivity;
      zoom := DefaultZoom;
      this.cameraVectors := cameraVectors;
      position := Vec3(posX, posY, posZ);
      worldUp := Vec3(upX, upY, upZ);
      this.yaw := yaw;
      this.pitch := pitch;
      new;
      UpdateCameraVectors();
    }

    /** `ProcessKeyboard`: only the position moves, by `movementSpeed * deltaTime` along the chosen axis. */
    method ProcessKeyboard(direction: CameraMovement, deltaTime: real)
      modifies this`position
      ensures direction == Forward ==> position == Add(old(position), Scale(old(front), old(movementSpeed) * deltaTime))
      ensures direction == Backward ==> position == Sub(old(position), Scale(old(front), old(movementSpeed) * deltaTime))
      ensures direction == Left ==> position == Sub(old(position), Scale(old(right), old(movementSpeed) * deltaTime))
      ensures direction == Right ==> position == Add(old(position), Scale(old(right), old(movementSpeed) * deltaTime))
      ensures direction == Up ==> position == Add(old(position), Scale(old(up), old(movementSpeed) * deltaTime))
      ensures direction == Down ==> position == Sub(old(position), Scale(old(up), old(movementSpeed) * deltaTime))
      ensures direction == YawRight ==> position == old(position)
    {
      var velocity := movementSpeed * deltaTime;
      // The branches of the source are separate `if`s; at most one matches.
      match direction
      case Forward => position := Add(position, Scale(front, velocity));
      case Backward => position := Sub(position, Scale(front, velocity));
      case Left => position := Sub(position, Scale(right, velocity));
      case Right => position := Add(position, Scale(right, velocity));
      case Up => position := Add(position, Scale(up, velocity));
      case Down => position := Sub(position, Scale(up, velocity));
      case YawRight =>
    }

    /**
     * `ProcessMouseMovement`: yaw accumulates the scaled x offset unclamped;
     * pitch accumulates the scaled y offset, clamped to [-89, 89] only when
     * `constrainPitch`; the basis is then re-derived.
     */
    method ProcessMouseMovement(xOffset: real, yOffset: real, constrainPitch: bool)
      modifies this`yaw, this`pitch, this`front, this`right, this`up
      ensures Valid()
      ensures yaw == old(yaw) + old(mouseSensitivity) * xOffset
      ensures pitch == NextPitch(old(pitch), old(mouseSensitivity) * yOffset, constrainPitch)
    {
      var x := xOffset * mouseSensitivity;
      var y := yOffset * mouseSensitivity;
      yaw := yaw + x;
      pitch := pitch + y;
      if constrainPitch {
        if pitch > PitchLimit {
          pitch := PitchLimit;
        }
        if pitch < -PitchLimit {
          pitch := -PitchLimit;
        }
      }
      UpdateCameraVectors();
    }

    /** `ProcessMouseScroll`: zoom moves against the offset and stays in [1, 45]. */
    method ProcessMouseScroll(yOffset: real)
      modifies this`zoom
      ensures zoom == NextZoom(old(zoom), yOffset)
    {
      zoom := zoom - yOffset;
      if zoom < MinZoom {
        zoom := MinZoom;
      }
      if zoom > MaxZoom {
        zoom := MaxZoom;
      }
    }

    /** `updateCameraVectors`: front, right and up from the current angles and world-up. */
    method UpdateCameraVectors()
      modifies this`front, this`right, this`up
      ensures Valid()
    {
      var b := cameraVectors(yaw, pitch, worldUp);
      front := b.front;
      right := b.right;
      up := b.up;
    }
  }

  /**
   * A camera at (0,0,3) with the default angles, whose basis puts front at
   * (0,0,-1), ends at (0,0,-2) after one second of forward movement.
   */
  method ForwardScenario(cameraVectors: (real, real, Vec3) -> Basis) returns (c: Camera)
    requires cameraVectors(DefaultYaw, DefaultPitch, Vec3(0.0, 1.0, 0.0)).front == Vec3(0.0, 0.0, -1.0)
    ensures c.position == Vec3(0.0, 0.0, -2.0)
  {
    c := new Camera(Vec3(0.0, 0.0, 3.0), Vec3(0.0, 1.0, 0.0), DefaultYaw, DefaultPitch, cameraVectors);
    c.ProcessKeyboard(Forward, 1.0);
  }
}
