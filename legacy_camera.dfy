/**
 * The older inline camera of CLC/CORE/Camera.hpp: its projection is built
 * once in the constructor and never recomputed, update only rebuilds the
 * view, and its first-person subclass moves at 5 (10 with Left-Shift).
 */
module LegacyCameras {
  import opened Glm
  import opened InputState
  import opened Cameras

  class LegacyCamera {
    var position: Vec3
    var rotation: Vec3
    var forward: Vec3
    var right: Vec3
    var upDir: Vec3
    var view: Mat4
    /** Set by the constructor; no member assigns it afterwards. */
    const projection: Mat4
    const worldUp: Vec3
    const fov: real
    const aspectRatio: real
    const nearPlane: real
    const farPlane: real

    ghost predicate ViewSynced()
      reads this
    {
      forward == ForwardOf(rotation) && right == RightOf(rotation) && upDir == UpOf(rotation)
      && view == ViewOf(position, rotation)
    }

    constructor (fov: real, aspectRatio: real, nearPlane: real, farPlane: real)
      ensures this.fov == fov && this.aspectRatio == aspectRatio
      ensures this.nearPlane == nearPlane && this.farPlane == farPlane
      ensures projection == ProjectionOf(fov, aspectRatio, nearPlane, farPlane)
      ensures position == Zero3 && rotation == Zero3 && view == Identity && worldUp == UnitY
      ensures forward == Vec3(0.0, 0.0, -1.0) && right == UnitX && upDir == UnitY
    {
      this.fov := fov;
      this.aspectRatio := aspectRatio;
      this.nearPlane := nearPlane;
      this.farPlane := farPlane;
      position := Zero3;
      rotation := Zero3;
      forward := Vec3(0.0, 0.0, -1.0);
      right := UnitX;
      upDir := UnitY;
      view := Identity;
      worldUp := UnitY;
      projection := ProjectionOf(fov, aspectRatio, nearPlane, farPlane);
    }

    /** update(dt) only rebuilds the view. */
    method Update(dt: real)
      modifies this
      ensures ViewSynced() && position == old(position) && rotation == old(rotation)
    {
      UpdateView();
    }

    method SetPosition(p: Vec3)
      modifies this
      ensures position == p && rotation == old(rotation) && ViewSynced()
    {
      position := p;
      UpdateView();
    }

    method SetRotation(r: Vec3)
      modifies this
      ensures rotation == r && position == old(position) && ViewSynced()
    {
      rotation := r;
      UpdateView();
    }

    method SetRotationAngles(pitch: real, yaw: real, roll: real)
      modifies this
      ensures rotation == Vec3(pitch, yaw, roll) && position == old(position) && ViewSynced()
    {
      rotation := Vec3(pitch, yaw, roll);
      UpdateView();
    }

    method LookAtTarget(target: Vec3)
      modifies this
      ensures view == LookAt(position, target, worldUp)
      ensures forward == Normalize(Sub(target, position))
      ensures right == Normalize(Cross(forward, worldUp))
      ensures upDir == Normalize(Cross(right, forward))
      ensures position == old(position) && rotation == old(rotation)
    {
      view := LookAt(position, target, worldUp);
      forward := Normalize(Sub(target, position));
      right := Normalize(Cross(forward, worldUp));
      upDir := Normalize(Cross(right, forward));
      view := LookAt(position, target, worldUp);
    }

    method UpdateView()
      modifies this
      ensures ViewSynced() && position == old(position) && rotation == old(rotation)
    {
      var m := RotationMatrix(rotation);
      forward := Normalize(Project(m, Vec4(0.0, 0.0, -1.0, 0.0)));
      right := Normalize(Project(m, Vec4(1.0, 0.0, 0.0, 0.0)));
      upDir := Normalize(Project(m, Vec4(0.0, 1.0, 0.0, 0.0)));
      view := LookAt(position, Add(position, forward), upDir);
    }
  }

  class LegacyCameraMC {
    const camera: LegacyCamera
    var speed: real
    const sensitivity: real

    constructor (fov: real, aspectRatio: real, nearPlane: real, farPlane: real)
      ensures fresh(camera) && camera.projection == ProjectionOf(fov, aspectRatio, nearPlane, farPlane)
      ensures speed == 5.0 && sensitivity == 0.1
    {
      camera := new LegacyCamera(fov, aspectRatio, nearPlane, farPlane);
      speed := 5.0;
      sensitivity := 0.1;
    }

    /**
     * As CameraMC::update, but the speed becomes 10 with Left-Shift, else 5,
     * and it ends by rebuilding the view only.
     */
    method Update(dt: real, input: Input)
      requires input.Valid()
      modifies this, camera
      ensures !input.mouseLocked ==> camera.rotation == old(camera.rotation) && camera.position == old(camera.position) && speed == old(speed)
      ensures input.mouseLocked ==>
        camera.rotation == Looked(old(camera.rotation), input.mouseDelta, sensitivity)
        && camera.position == Moved(old(camera.position), old(camera.forward), old(camera.right), old(speed), dt, MoveKeysOf(input))
        && speed == (if input.IsKeyPressed(KeyLeftShift) then 10.0 else 5.0)
      ensures camera.ViewSynced()
    {
      if input.mouseLocked {
        var delta := input.mouseDelta;
        var r := camera.rotation;
        r := r.(y := r.y + delta.x * sensitivity);
        r := r.(x := r.x + delta.y * sensitivity);
        if r.x > PitchLimit { r := r.(x := PitchLimit); }
        if r.x < -PitchLimit { r := r.(x := -PitchLimit); }
        assert r == Looked(old(camera.rotation), delta, sensitivity);
        camera.rotation := r;
      }
      if input.mouseLocked {
        camera.position := Moved(camera.position, camera.forward, camera.right, speed, dt, MoveKeysOf(input));
        if input.IsKeyPressed(KeyLeftShift) {
          speed := 10.0;
        } else {
          speed := 5.0;
        }
      }
      camera.UpdateView();
    }
  }
}
