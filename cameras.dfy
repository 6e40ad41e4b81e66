/**
 * The perspective camera and the first-person "MC" camera
 * (CLC/CORE/Cameras/Camera.cpp, Camera.hpp, CameraMC.cpp and
 * CORE/Cameras/CameraMC.hpp). The camera keeps its projection matrix equal
 * to the perspective of its current fov, aspect ratio and clip planes, and
 * rebuilds its view from position and Euler rotation.
 */
module Cameras {
  import opened Glm
  import opened InputState

  const DefaultFov: real := 45.0
  const DefaultAspectRatio: real := 16.0 / 9.0
  const DefaultNearPlane: real := 0.1
  const DefaultFarPlane: real := 1000.0
  const DefaultMaxLightDistance: real := 1000000.0
  const PitchLimit: real := 89.0

  /** Yaw about +Y, then pitch about +X, then roll about +Z, angles in degrees. */
  function RotationMatrix(rotation: Vec3): Mat4
  {
    Rotate(Rotate(Rotate(Identity, RadiansOf(rotation.y), UnitY), RadiansOf(rotation.x), UnitX), RadiansOf(rotation.z), UnitZ)
  }

  function ForwardOf(rotation: Vec3): Vec3 { Normalize(Project(RotationMatrix(rotation), Vec4(0.0, 0.0, -1.0, 0.0))) }
  function RightOf(rotation: Vec3): Vec3 { Normalize(Project(RotationMatrix(rotation), Vec4(1.0, 0.0, 0.0, 0.0))) }
  function UpOf(rotation: Vec3): Vec3 { Normalize(Project(RotationMatrix(rotation), Vec4(0.0, 1.0, 0.0, 0.0))) }

  /** The view updateView builds: look from the position along the forward vector. */
  function ViewOf(position: Vec3, rotation: Vec3): Mat4
  {
    LookAt(position, Add(position, ForwardOf(rotation)), UpOf(rotation))
  }

  function ProjectionOf(fov: real, aspectRatio: real, nearPlane: real, farPlane: real): Mat4
  {
    Perspective(RadiansOf(fov), aspectRatio, nearPlane, farPlane)
  }

  /** Pitch limited to [-89, 89]. */
  function ClampPitch(pitch: real): (r: real)
    ensures -PitchLimit <= r <= PitchLimit
    ensures -PitchLimit <= pitch <= PitchLimit ==> r == pitch
    ensures pitch > PitchLimit ==> r == PitchLimit
    ensures pitch < -PitchLimit ==> r == -PitchLimit
  {
    if pitch > PitchLimit then PitchLimit
    else if pitch < -PitchLimit then -PitchLimit
    else pitch
  }

  /**
   * The mouse-look rotation: yaw grows by dx * sensitivity unclamped, pitch
   * by dy * sensitivity and is then clamped to [-89, 89], roll is kept.
   */
  function Looked(rotation: Vec3, delta: Vec2, sensitivity: real): (r: Vec3)
    ensures -PitchLimit <= r.x <= PitchLimit && r.z == rotation.z
    ensures r.y - rotation.y == delta.x * sensitivity
    ensures -PitchLimit <= rotation.x + delta.y * sensitivity <= PitchLimit ==> r.x == rotation.x + delta.y * sensitivity
  {
    Vec3(ClampPitch(rotation.x + delta.y * sensitivity), rotation.y + delta.x * sensitivity, rotation.z)
  }

  /** The movement keys held this frame. */
  datatype MoveKeys = MoveKeys(w: bool, s: bool, a: bool, d: bool, space: bool, ctrl: bool)

  function MoveKeysOf(input: Input): MoveKeys
    requires input.Valid()
    reads input, input.keysPressed
  {
    MoveKeys(input.IsKeyPressed(KeyW), input.IsKeyPressed(KeyS), input.IsKeyPressed(KeyA),
             input.IsKeyPressed(KeyD), input.IsKeyPressed(KeySpace), input.IsKeyPressed(KeyLeftControl))
  }

  /**
   * The position after one frame of movement, the keys applied in the order
   * W, S, A, D, Space, Left-Ctrl; the horizontal direction is the forward
   * vector flattened onto the XZ plane.
   */
  function Moved(p: Vec3, forward: Vec3, right: Vec3, speed: real, dt: real, keys: MoveKeys): (r: Vec3)
    ensures !keys.w && !keys.s && !keys.a && !keys.d ==>
      r == Vec3(p.x, p.y + (if keys.space then speed * dt else 0.0) - (if keys.ctrl then speed * dt else 0.0), p.z)
  {
    var direction := Normalize(Vec3(forward.x, 0.0, forward.z));
    var r := Normalize(right);
    var p := if keys.w then Add(p, Mul(Mul(direction, speed), dt)) else p;
    var p := if keys.s then Sub(p, Mul(Mul(direction, speed), dt)) else p;
    var p := if keys.a then Sub(p, Mul(Mul(r, speed), dt)) else p;
    var p := if keys.d then Add(p, Mul(Mul(r, speed), dt)) else p;
    var p := if keys.space then p.(y := p.y + speed * dt) else p;
    if keys.ctrl then p.(y := p.y - speed * dt) else p
  }

  /** Space and Left-Ctrl together cancel out; neither moves the camera horizontally. */
  lemma {:induction false} VerticalKeysCancel(p: Vec3, forward: Vec3, right: Vec3, speed: real, dt: real)
    ensures Moved(p, forward, right, speed, dt, MoveKeys(false, false, false, false, true, true)) == p
  {
  }

  class Camera {
    var position: Vec3
    /** Euler angles in degrees: pitch, yaw, roll. */
    var rotation: Vec3
    var forward: Vec3
    var right: Vec3
    var upDir: Vec3
    var view: Mat4
    var projection: Mat4
    /** The world up vector used by lookAt. */
    const worldUp: Vec3
    var fov: real
    var aspectRatio: real
    var nearPlane: real
    var farPlane: real
    var maxLightDistance: real

    ghost predicate ProjectionSynced()
      reads this
    {
      projection == ProjectionOf(fov, aspectRatio, nearPlane, farPlane)
    }

    ghost predicate ViewSynced()
      reads this
    {
      forward == ForwardOf(rotation) && right == RightOf(rotation) && upDir == UpOf(rotation)
      && view == ViewOf(position, rotation)
    }

    constructor (fov: real, aspectRatio: real, nearPlane: real, farPlane: real)
      ensures this.fov == fov && this.aspectRatio == aspectRatio
      ensures this.nearPlane == nearPlane && this.farPlane == farPlane
      ensures maxLightDistance == DefaultMaxLightDistance
      ensures position == Zero3 && rotation == Zero3 && view == Identity && worldUp == UnitY
      ensures forward == Vec3(0.0, 0.0, -1.0) && right == UnitX && upDir == UnitY
      ensures ProjectionSynced()
    {
      this.fov := fov;
      this.aspectRatio := aspectRatio;
      this.nearPlane := nearPlane;
      this.farPlane := farPlane;
      maxLightDistance := DefaultMaxLightDistance;
      position := Zero3;
      rotation := Zero3;
      forward := Vec3(0.0, 0.0, -1.0);
      right := UnitX;
      upDir := UnitY;
      view := Identity;
      worldUp := UnitY;
      projection := ProjectionOf(fov, aspectRatio, nearPlane, farPlane);
    }

    /**
     * Camera::update: when the viewport changed the aspect ratio becomes
     * framebuffer width / height (through the change-detecting setter); the
     * view is always recomputed.
     */
    method Update(viewportChanged: bool, frameBufferWidth: real, frameBufferHeight: real)
      modifies this
      ensures aspectRatio == (if viewportChanged then FDiv(frameBufferWidth, frameBufferHeight) else old(aspectRatio))
      ensures !viewportChanged ==> projection == old(projection)
      ensures old(ProjectionSynced()) ==> ProjectionSynced()
      ensures ViewSynced()
      ensures position == old(position) && rotation == old(rotation)
      ensures fov == old(fov) && nearPlane == old(nearPlane) && farPlane == old(farPlane)
      ensures maxLightDistance == old(maxLightDistance)
    {
      if viewportChanged {
        SetAspectRatio(FDiv(frameBufferWidth, frameBufferHeight));
      }
      UpdateView();
    }

    method SetPosition(p: Vec3)
      modifies this
      ensures position == p && rotation == old(rotation) && ViewSynced()
      ensures projection == old(projection) && fov == old(fov) && aspectRatio == old(aspectRatio)
      ensures nearPlane == old(nearPlane) && farPlane == old(farPlane) && maxLightDistance == old(maxLightDistance)
    {
      position := p;
      UpdateView();
    }

    method SetRotation(r: Vec3)
      modifies this
      ensures rotation == r && position == old(position) && ViewSynced()
      ensures projection == old(projection) && fov == old(fov) && aspectRatio == old(aspectRatio)
      ensures nearPlane == old(nearPlane) && farPlane == old(farPlane) && maxLightDistance == old(maxLightDistance)
    {
      rotation := r;
      UpdateView();
    }

    /** setRotation(pitch, yaw, roll). */
    method SetRotationAngles(pitch: real, yaw: real, roll: real)
      modifies this
      ensures rotation == Vec3(pitch, yaw, roll) && position == old(position) && ViewSynced()
      ensures projection == old(projection) && fov == old(fov) && aspectRatio == old(aspectRatio)
      ensures nearPlane == old(nearPlane) && farPlane == old(farPlane) && maxLightDistance == old(maxLightDistance)
    {
      rotation := Vec3(pitch, yaw, roll);
      UpdateView();
    }

    /** Aims at the target: view and basis from the target, the stored rotation untouched. */
    method LookAtTarget(target: Vec3)
      modifies this
      ensures view == LookAt(position, target, worldUp)
      ensures forward == Normalize(Sub(target, position))
      ensures right == Normalize(Cross(forward, worldUp))
      ensures upDir == Normalize(Cross(right, forward))
      ensures position == old(position) && rotation == old(rotation) && projection == old(projection)
      ensures fov == old(fov) && aspectRatio == old(aspectRatio)
      ensures nearPlane == old(nearPlane) && farPlane == old(farPlane) && maxLightDistance == old(maxLightDistance)
    {
      view := LookAt(position, target, worldUp);
      forward := Normalize(Sub(target, position));
      right := Normalize(Cross(forward, worldUp));
      upDir := Normalize(Cross(right, forward));
      view := LookAt(position, target, worldUp);
    }

    method UpdateView()
      modifies this
      ensures ViewSynced()
      ensures position == old(position) && rotation == old(rotation) && projection == old(projection)
      ensures fov == old(fov) && aspectRatio == old(aspectRatio)
      ensures nearPlane == old(nearPlane) && farPlane == old(farPlane) && maxLightDistance == old(maxLightDistance)
    {
      var m := RotationMatrix(rotation);
      forward := Normalize(Project(m, Vec4(0.0, 0.0, -1.0, 0.0)));
      right := Normalize(Project(m, Vec4(1.0, 0.0, 0.0, 0.0)));
      upDir := Normalize(Project(m, Vec4(0.0, 1.0, 0.0, 0.0)));
      view := LookAt(position, Add(position, forward), upDir);
    }

    /** Change-detecting: an equal value leaves everything, projection included, as it was. */
    method SetAspectRatio(ratio: real)
      modifies this
      ensures aspectRatio == ratio
      ensures old(aspectRatio) == ratio ==> projection == old(projection)
      ensures old(aspectRatio) != ratio ==> ProjectionSynced()
      ensures old(ProjectionSynced()) ==> ProjectionSynced()
      ensures fov == old(fov) && nearPlane == old(nearPlane) && farPlane == old(farPlane)
      ensures position == old(position) && rotation == old(rotation) && view == old(view)
      ensures forward == old(forward) && right == old(right) && upDir == old(upDir)
      ensures maxLightDistance == old(maxLightDistance)
    {
      if aspectRatio != ratio {
        aspectRatio := ratio;
        UpdateProjection();
      }
    }

    method SetFov(f: real)
      modifies this
      ensures fov == f
      ensures old(fov) == f ==> projection == old(projection)
      ensures old(fov) != f ==> ProjectionSynced()
      ensures old(ProjectionSynced()) ==> ProjectionSynced()
      ensures aspectRatio == old(aspectRatio) && nearPlane == old(nearPlane) && farPlane == old(farPlane)
      ensures position == old(position) && rotation == old(rotation) && view == old(view)
      ensures maxLightDistance == old(maxLightDistance)
    {
      if fov != f {
        fov := f;
        UpdateProjection();
      }
    }

    method SetNearPlane(near: real)
      modifies this
      ensures nearPlane == near
      ensures old(nearPlane) == near ==> projection == old(projection)
      ensures old(nearPlane) != near ==> ProjectionSynced()
      ensures old(ProjectionSynced()) ==> ProjectionSynced()
      ensures fov == old(fov) && aspectRatio == old(aspectRatio) && farPlane == old(farPlane)
      ensures position == old(position) && rotation == old(rotation) && view == old(view)
      ensures maxLightDistance == old(maxLightDistance)
    {
      if nearPlane != near {
        nearPlane := near;
        UpdateProjection();
      }
    }

    method SetFarPlane(far: real)
      modifies this
      ensures farPlane == far
      ensures old(farPlane) == far ==> projection == old(projection)
      ensures old(farPlane) != far ==> ProjectionSynced()
      ensures old(ProjectionSynced()) ==> ProjectionSynced()
      ensures fov == old(fov) && aspectRatio == old(aspectRatio) && nearPlane == old(nearPlane)
      ensures position == old(position) && rotation == old(rotation) && view == old(view)
      ensures maxLightDistance == old(maxLightDistance)
    {
      if farPlane != far {
        farPlane := far;
        UpdateProjection();
      }
    }

    method SetMaxLightDistance(distance: real)
      modifies this
      ensures maxLightDistance == distance
      ensures position == old(position) && rotation == old(rotation) && view == old(view) && projection == old(projection)
      ensures fov == old(fov) && aspectRatio == old(aspectRatio) && nearPlane == old(nearPlane) && farPlane == old(farPlane)
    {
      maxLightDistance := distance;
    }

    method UpdateProjection()
      modifies this
      ensures ProjectionSynced()
      ensures fov == old(fov) && aspectRatio == old(aspectRatio) && nearPlane == old(nearPlane) && farPlane == old(farPlane)
      ensures position == old(position) && rotation == old(rotation) && view == old(view)
      ensures forward == old(forward) && right == old(right) && upDir == old(upDir)
      ensures maxLightDistance == old(maxLightDistance)
    {
      projection := ProjectionOf(fov, aspectRatio, nearPlane, farPlane);
    }
  }

  /**
   * CameraMC: a Camera driven by mouse-look and WASD movement. The base
   * camera is held as a component object.
   */
  class CameraMC {
    const camera: Camera
    var speed: real
    const sensitivity: real

    constructor (fov: real, aspectRatio: real, nearPlane: real, farPlane: real)
      ensures fresh(camera) && camera.fov == fov && camera.aspectRatio == aspectRatio
      ensures camera.nearPlane == nearPlane && camera.farPlane == farPlane && camera.ProjectionSynced()
      ensures speed == 5.0 && sensitivity == 0.1
    {
      camera := new Camera(fov, aspectRatio, nearPlane, farPlane);
      speed := 5.0;
      sensitivity := 0.1;
    }

    /**
     * CameraMC::update: with the mouse locked, yaw grows by dx * sensitivity
     * unclamped, pitch by dy * sensitivity clamped to [-89, 89], the position
     * moves with the speed from before this frame, and the speed becomes 32
     * with Left-Shift held, else 10. It always ends with Camera::update.
     */
    method Update(dt: real, input: Input, viewportChanged: bool, frameBufferWidth: real, frameBufferHeight: real)
      requires input.Valid()
      modifies this, camera
      ensures !input.mouseLocked ==> camera.rotation == old(camera.rotation) && camera.position == old(camera.position) && speed == old(speed)
      ensures input.mouseLocked ==>
        camera.rotation == Looked(old(camera.rotation), input.mouseDelta, sensitivity)
        && camera.position == Moved(old(camera.position), old(camera.forward), old(camera.right), old(speed), dt, MoveKeysOf(input))
        && speed == (if input.IsKeyPressed(KeyLeftShift) then 32.0 else 10.0)
      ensures camera.aspectRatio == (if viewportChanged then FDiv(frameBufferWidth, frameBufferHeight) else old(camera.aspectRatio))
      ensures old(camera.ProjectionSynced()) ==> camera.ProjectionSynced()
      ensures camera.ViewSynced()
      ensures camera.fov == old(camera.fov) && camera.nearPlane == old(camera.nearPlane) && camera.farPlane == old(camera.farPlane)
    {
      if input.mouseLocked {
        Look(input.mouseDelta);
        Move(dt, input);
      }
      camera.Update(viewportChanged, frameBufferWidth, frameBufferHeight);
    }

    /** The mouse-look step: yaw unclamped, pitch clamped to [-89, 89]. */
    method Look(delta: Vec2)
      modifies camera`rotation
      ensures camera.rotation == Looked(old(camera.rotation), delta, sensitivity)
    {
      var xOffset := delta.x * sensitivity;
      var yOffset := delta.y * sensitivity;
      var r := camera.rotation;
      r := r.(y := r.y + xOffset);
      r := r.(x := r.x + yOffset);
      if r.x > PitchLimit { r := r.(x := PitchLimit); }
      if r.x < -PitchLimit { r := r.(x := -PitchLimit); }
      camera.rotation := r;
    }

    /** The movement step: move with the current speed, then pick the next speed from Left-Shift. */
    method Move(dt: real, input: Input)
      requires input.Valid()
      modifies camera`position, this`speed
      ensures camera.position == Moved(old(camera.position), camera.forward, camera.right, old(speed), dt, MoveKeysOf(input))
      ensures speed == (if input.IsKeyPressed(KeyLeftShift) then 32.0 else 10.0)
    {
      camera.position := Moved(camera.position, camera.forward, camera.right, speed, dt, MoveKeysOf(input));
      if input.IsKeyPressed(KeyLeftShift) {
        speed := 32.0;
      } else {
        speed := 10.0;
      }
    }
  }
}
