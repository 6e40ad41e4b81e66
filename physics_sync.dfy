/**
 * Copying the simulated pose of a physics component's body back into its
 * owning game object, in the newer form (CLC/CORE/PhysicsComponents/
 * PhysicsComponent.cpp) and the older one (CLC/CORE/PhysicsComponent.cpp,
 * CLC/CORE/PhysicsComponent.hpp).
 */
module PhysicsSync {
  import opened Glm
  import opened Transforms
  import opened PhysX
  import opened PhysicsComponents
  import opened Entities

  /**
   * updateTransform: the body's position and normalized orientation are
   * written into the owner through setPosition(p, false) and
   * setRotationQuaternion(q, false), so the body itself is not touched.
   * Without a body nothing happens.
   */
  method UpdateTransform(c: Component)
    requires c.physics != null && c.owner != null && c.owner.Valid()
    modifies c.owner.xf
    ensures c.physics.body == null ==>
      c.owner.xf.position == old(c.owner.xf.position) && c.owner.xf.rotation == old(c.owner.xf.rotation)
      && c.owner.xf.rotationQuat == old(c.owner.xf.rotationQuat)
    ensures c.physics.body != null ==>
      var pose := c.physics.body.state.pose;
      && c.owner.xf.position == pose.p
      && c.owner.xf.rotationQuat == NormalizeQuat(pose.q)
      && c.owner.xf.rotation == Degrees(EulerAngles(NormalizeQuat(pose.q)))
    ensures c.owner.xf.scale == old(c.owner.xf.scale)
    ensures c.physics.body != null ==> c.physics.body.state == old(c.physics.body.state)
  {
    var b := c.physics.body;
    if b != null {
      var pose := b.state.pose;
      var q := NormalizeQuat(pose.q);
      var owner := c.owner;
      owner.SetPosition(pose.p, false);
      owner.SetRotationQuaternion(q, false);
    }
  }

  /**
   * updatePhysX followed by updateTransform: the body keeps the pose it was
   * given, the object's position comes back unchanged, its quaternion comes
   * back normalized with the Euler angles re-derived from it, and nothing
   * else of the body or the object changes.
   */
  method PushThenPull(c: Component)
    requires c.physics != null && c.owner != null && c.physics.body != null && c.owner.Valid()
    modifies c.owner.xf, c.physics.body
    ensures c.physics.body.state == old(c.physics.body.state).(pose := Pose(old(c.owner.xf.position), old(c.owner.xf.rotationQuat)))
    ensures c.owner.xf.position == old(c.owner.xf.position)
    ensures c.owner.xf.rotationQuat == NormalizeQuat(old(c.owner.xf.rotationQuat))
    ensures c.owner.xf.rotation == Degrees(EulerAngles(NormalizeQuat(old(c.owner.xf.rotationQuat))))
    ensures c.owner.xf.scale == old(c.owner.xf.scale)
    ensures c.owner.components == old(c.owner.components)
  {
    c.physics.UpdatePhysX(c.owner.xf);
    UpdateTransform(c);
  }

  /**
   * The older updateTransform: the position goes through the object's
   * one-argument setPosition, which pushes it back into the first physics
   * component's body as a translation-only pose; the rotation is written as
   * the Euler degrees of the body quaternion with its x negated, with
   * update_physx=false. The quaternion is read before the push.
   */
  method UpdateTransformLegacy(c: Component)
    requires c.physics != null && c.owner != null && c.owner.Valid()
    modifies c.owner.xf, c.owner.FirstBody()
    ensures c.owner.components == old(c.owner.components)
    ensures c.owner.xf.scale == old(c.owner.xf.scale)
    ensures c.physics.body == null ==>
      c.owner.xf.position == old(c.owner.xf.position) && c.owner.xf.rotation == old(c.owner.xf.rotation)
      && c.owner.xf.rotationQuat == old(c.owner.xf.rotationQuat)
    ensures c.physics.body != null ==>
      var pose := old(c.physics.body.state.pose);
      && c.owner.xf.position == pose.p
      && c.owner.xf.rotation == Degrees(EulerAngles(Quat(pose.q.w, -pose.q.x, pose.q.y, pose.q.z)))
      && c.owner.xf.EulerSynced()
    ensures c.physics.body != null && c.owner.FirstPhysics() != null && c.owner.FirstPhysics().body != null ==>
      c.owner.FirstPhysics().body.state ==
        old(c.owner.FirstPhysics().body.state).(pose := Pose(old(c.physics.body.state.pose.p), IdentityQuat))
    /* The orientation of the object's own body is lost on every update. */
    ensures c.physics.body != null && c.owner.FirstPhysics() == c.physics ==>
      c.physics.body.state.pose == Pose(old(c.physics.body.state.pose.p), IdentityQuat)
  {
    var b := c.physics.body;
    if b != null {
      var pose := b.state.pose;
      var owner := c.owner;
      owner.SetPosition(pose.p, true);
      var q := Quat(pose.q.w, -pose.q.x, pose.q.y, pose.q.z);
      owner.SetRotation(Degrees(EulerAngles(q)), false);
    }
  }

  /** The older update(dt) is exactly updateTransform. */
  method UpdateLegacy(c: Component, dt: real)
    requires c.physics != null && c.owner != null && c.owner.Valid()
    modifies c.owner.xf, c.owner.FirstBody()
    ensures c.owner.components == old(c.owner.components)
    ensures c.physics.body != null ==>
      c.owner.xf.position == old(c.physics.body.state.pose.p) && c.owner.xf.EulerSynced()
    ensures c.physics.body != null && c.owner.FirstPhysics() == c.physics ==>
      c.physics.body.state.pose == Pose(old(c.physics.body.state.pose.p), IdentityQuat)
  {
    UpdateTransformLegacy(c);
  }
}
