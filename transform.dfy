/**
 * Transform: position, Euler rotation in degrees with a cached quaternion,
 * and scale (CLC/CORE/Transform.hpp).
 */
module Transforms {
  import opened Glm

  /** The quaternion the Euler angles (in degrees) stand for. */
  function QuatOfEuler(rotation: Vec3): Quat
  {
    QuatFromEuler(Radians(rotation))
  }

  class Transform {
    var position: Vec3
    /** Euler angles in degrees. */
    var rotation: Vec3
    var rotationQuat: Quat
    var scale: Vec3

    /** The quaternion is the one the Euler angles stand for. */
    ghost predicate EulerSynced()
      reads this
    {
      rotationQuat == QuatOfEuler(rotation)
    }

    /** Transform(position, rotation, scale); the defaults are given by Default. */
    constructor (position: Vec3, rotation: Vec3, scale: Vec3)
      ensures this.position == position && this.rotation == rotation && this.scale == scale
      ensures EulerSynced()
    {
      this.position := position;
      this.rotation := rotation;
      this.scale := scale;
      rotationQuat := QuatOfEuler(rotation);
    }

    /** Transform() with every default argument. */
    constructor Default()
      ensures position == Zero3 && rotation == Zero3 && scale == One3
      ensures rotationQuat == QuatOfEuler(Zero3)
    {
      position := Zero3;
      rotation := Zero3;
      scale := One3;
      rotationQuat := QuatOfEuler(Zero3);
    }

    method SetPosition(p: Vec3)
      modifies this
      ensures position == p
      ensures rotation == old(rotation) && rotationQuat == old(rotationQuat) && scale == old(scale)
    {
      position := p;
    }

    method SetRotation(r: Vec3)
      modifies this
      ensures rotation == r && EulerSynced()
      ensures position == old(position) && scale == old(scale)
    {
      rotation := r;
      UpdateQuaternionFromEuler();
    }

    /** Stores q verbatim; the Euler angles become q's angles in degrees. */
    method SetRotationQuaternion(q: Quat)
      modifies this
      ensures rotationQuat == q && rotation == Degrees(EulerAngles(q))
      ensures position == old(position) && scale == old(scale)
    {
      rotationQuat := q;
      rotation := Degrees(EulerAngles(rotationQuat));
    }

    method SetScale(s: Vec3)
      modifies this
      ensures scale == s
      ensures position == old(position) && rotation == old(rotation) && rotationQuat == old(rotationQuat)
    {
      scale := s;
    }

    /** Adds the offset to the position. */
    method Move(offset: Vec3)
      modifies this
      ensures position == Add(old(position), offset)
      ensures rotation == old(rotation) && rotationQuat == old(rotationQuat) && scale == old(scale)
    {
      position := Add(position, offset);
    }

    /** Adds the offset to the Euler angles and resynchronises the quaternion. */
    method Rotate(offset: Vec3)
      modifies this
      ensures rotation == Add(old(rotation), offset) && EulerSynced()
      ensures position == old(position) && scale == old(scale)
    {
      rotation := Add(rotation, offset);
      UpdateQuaternionFromEuler();
    }

    /** Transform::scale: adds the offset component-wise; it does not multiply. */
    method ScaleBy(offset: Vec3)
      modifies this
      ensures scale == Add(old(scale), offset)
      ensures position == old(position) && rotation == old(rotation) && rotationQuat == old(rotationQuat)
    {
      scale := Add(scale, offset);
    }

    /** translate(I, position) * toMat4(quaternion) * scale: the Euler angles take no part. */
    function GetModelMatrix(): (m: Mat4)
      reads this
      ensures m == ScaleMat(MatMul(Translate(Identity, position), ToMat4(rotationQuat)), scale)
    {
      var model := Translate(Identity, position);
      var model := MatMul(model, ToMat4(rotationQuat));
      ScaleMat(model, scale)
    }

    method UpdateQuaternionFromEuler()
      modifies this
      ensures EulerSynced()
      ensures position == old(position) && rotation == old(rotation) && scale == old(scale)
    {
      rotationQuat := QuatOfEuler(rotation);
    }
  }

  /** Two moves add up: move(a) then move(b) leaves the transform where move(a + b) does. */
  method MoveAdditive(t: Transform, a: Vec3, b: Vec3)
    modifies t
    ensures t.position == Add(old(t.position), Add(a, b))
    ensures t.rotation == old(t.rotation) && t.rotationQuat == old(t.rotationQuat) && t.scale == old(t.scale)
  {
    t.Move(a);
    t.Move(b);
  }
}
