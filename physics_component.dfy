/**
 * The physics capability of a component: the PhysX body it owns, its
 * material, its stored mass, whether it is dynamic, and the list of shapes
 * it tracks (CLC/CORE/PhysicsComponents/PhysicsComponent.cpp, the older
 * CLC/CORE/PhysicsComponent.cpp/.hpp, and the cube and sphere subclasses).
 *
 * The owning object's transform is passed in where the source reads it via
 * getGameObject(); writing the transform back is modelled with GameObject,
 * in module PhysicsSync.
 */
module PhysicsComponents {
  import opened Glm
  import opened PhysX
  import opened Transforms

  datatype BodyType = Static | Dynamic

  /** The box PhysX builds for a cube of the given scale: half extents 0.5 * scale. */
  function CubeGeometry(s: Vec3): Geometry
  {
    Box(Mul(s, 0.5))
  }

  /** The sphere built for a scale: radius is the largest scale component. */
  function SphereGeometryFor(s: Vec3): (g: Geometry)
    ensures g.Sphere? && g.radius >= s.x && g.radius >= s.y && g.radius >= s.z
    ensures g.radius == s.x || g.radius == s.y || g.radius == s.z
  {
    Sphere(Max(Max(s.x, s.y), s.z))
  }

  /** The pose init gives a body: the object's position with the X * Y * Z Euler quaternion. */
  function InitPose(owner: Transform): Pose
    reads owner
  {
    Pose(owner.position, EulerXYZ(owner.rotation))
  }

  class PhysicsComponent {
    var body: Actor?
    var hasMaterial: bool
    var mass: real
    var isDynamic: bool
    /** Shapes this component created and tracks for cleanup. */
    var shapes: seq<Shape>

    /** A body is a dynamic actor exactly when the component is dynamic. */
    ghost predicate Valid()
      reads this
    {
      body != null ==> (body.kind == RigidDynamic <==> isDynamic)
    }

    /**
     * PhysicsComponent(type): creates the material and a static or dynamic
     * body at the identity pose; either creation may fail and leave null.
     */
    constructor (t: BodyType, materialCreated: bool, bodyCreated: bool)
      ensures isDynamic <==> t == Dynamic
      ensures hasMaterial == materialCreated && mass == 1.0 && shapes == []
      ensures bodyCreated ==> body != null && fresh(body) && body.state == NewActorState(IdentityPose)
      ensures bodyCreated ==> (body.kind == RigidDynamic <==> t == Dynamic)
      ensures !bodyCreated ==> body == null
      ensures Valid()
    {
      hasMaterial := materialCreated;
      mass := 1.0;
      shapes := [];
      if bodyCreated {
        body := new Actor(if t == Dynamic then RigidDynamic else RigidStatic, NewActorState(IdentityPose));
      } else {
        body := null;
      }
      isDynamic := t == Dynamic;
    }

    /** Adds the force only to a dynamic component that has a body. */
    method ApplyForce(f: Vec3)
      requires Valid()
      modifies body
      ensures body != null && isDynamic ==> body.state == old(body.state).(forces := old(body.state.forces) + [f])
      ensures body != null && !isDynamic ==> body.state == old(body.state)
    {
      if isDynamic && body != null {
        body.state := body.state.(forces := body.state.forces + [f]);
      }
    }

    /** Adds the torque only to a dynamic component that has a body. */
    method ApplyTorque(t: Vec3)
      requires Valid()
      modifies body
      ensures body != null && isDynamic ==> body.state == old(body.state).(torques := old(body.state.torques) + [t])
      ensures body != null && !isDynamic ==> body.state == old(body.state)
    {
      if isDynamic && body != null {
        body.state := body.state.(torques := body.state.torques + [t]);
      }
    }

    /**
     * Always records the mass; only a dynamic body has its mass and inertia
     * recomputed. A dynamic component dereferences its body unchecked.
     */
    method SetMass(m: real)
      requires Valid()
      requires isDynamic ==> body != null
      modifies this, body
      ensures mass == m
      ensures body == old(body) && isDynamic == old(isDynamic) && hasMaterial == old(hasMaterial) && shapes == old(shapes)
      ensures isDynamic ==> body.state == old(body.state).(massUpdates := old(body.state.massUpdates) + [m])
      ensures !isDynamic && body != null ==> body.state == old(body.state)
    {
      mass := m;
      if isDynamic {
        body.state := body.state.(massUpdates := body.state.massUpdates + [m]);
      }
    }

    function GetMass(): (m: real)
      reads this
      ensures m == mass
    {
      mass
    }

    /** Sets the angular velocity of a dynamic body; a static body ignores it. */
    method SetAngularVelocity(v: Vec3)
      requires body != null
      modifies body
      ensures body.kind == RigidDynamic ==> body.state == old(body.state).(angularVelocity := v)
      ensures body.kind == RigidStatic ==> body.state == old(body.state)
    {
      if body.kind == RigidDynamic {
        body.state := body.state.(angularVelocity := v);
      }
    }

    /** Sets the linear velocity of a dynamic body; a static body ignores it. */
    method SetLinearVelocity(v: Vec3)
      requires body != null
      modifies body
      ensures body.kind == RigidDynamic ==> body.state == old(body.state).(linearVelocity := v)
      ensures body.kind == RigidStatic ==> body.state == old(body.state)
    {
      if body.kind == RigidDynamic {
        body.state := body.state.(linearVelocity := v);
      }
    }

    /** Pushes the owner's position and quaternion into the body's global pose. */
    method UpdatePhysX(owner: Transform)
      modifies body
      ensures body != null ==> body.state == old(body.state).(pose := Pose(owner.position, owner.rotationQuat))
    {
      if body != null {
        var q := owner.rotationQuat;
        body.state := body.state.(pose := Pose(owner.position, Quat(q.w, q.x, q.y, q.z)));
      }
    }

    /** Detaches every shape from the body and forgets the tracked shapes. */
    method ReleaseAllShapes()
      modifies this, body
      ensures body == old(body) && mass == old(mass) && isDynamic == old(isDynamic) && hasMaterial == old(hasMaterial)
      ensures body == null ==> shapes == old(shapes)
      ensures body != null ==> shapes == [] && body.state == old(body.state).(shapes := [])
    {
      if body == null {
        return;
      }
      var b := body;
      var attached := b.state.shapes;
      var i := 0;
      while i < |attached|
        invariant 0 <= i <= |attached|
        invariant b.state == old(b.state).(shapes := attached[i..])
        modifies b
      {
        b.state := b.state.(shapes := b.state.shapes[1..]);
        i := i + 1;
      }
      shapes := [];
    }

    /** Replaces the body's pose with a translation-only pose: the rotation is reset. */
    method SetPosition(p: Vec3)
      modifies body
      ensures body != null ==> body.state == old(body.state).(pose := Pose(p, IdentityQuat))
    {
      if body != null {
        body.state := body.state.(pose := Pose(p, IdentityQuat));
      }
    }

    /**
     * The older absolute setRotation: the orientation becomes the X * Y * Z
     * Euler quaternion of the angles, the position is kept.
     */
    method SetRotation(rotation: Vec3)
      modifies body
      ensures body != null ==> body.state == old(body.state).(pose := Pose(old(body.state.pose.p), EulerXYZ(rotation)))
    {
      if body != null {
        body.state := body.state.(pose := Pose(body.state.pose.p, EulerXYZ(rotation)));
      }
    }

    /** The half extents of the body's first shape when it is a box, otherwise (1,1,1). */
    function GetScale(): (s: Vec3)
      reads this, body
      ensures body == null || body.state.shapes == [] ==> s == One3
      ensures body != null && body.state.shapes != [] && body.state.shapes[0].geometry.Box?
        ==> s == body.state.shapes[0].geometry.halfExtents
      ensures body != null && body.state.shapes != [] && !body.state.shapes[0].geometry.Box?
        ==> s == One3
    {
      if body == null || |body.state.shapes| == 0 then One3
      else match body.state.shapes[0].geometry
        case Box(h) => h
        case _ => One3
    }

    /** Stores the owning object in the body's user data; the body must exist. */
    method SetUserData(data: object)
      requires body != null
      modifies body
      ensures body.state == old(body.state).(userData := data)
    {
      body.state := body.state.(userData := data);
    }

    /**
     * CubePhysics::init: without a material nothing happens; with a body it
     * attaches (without tracking) a box of half extents 0.5 * scale, moves the
     * body to the owner's pose and, when dynamic, recomputes mass and inertia.
     */
    method CubeInit(owner: Transform)
      requires Valid()
      modifies body
      ensures !hasMaterial && body != null ==> body.state == old(body.state)
      ensures hasMaterial && body != null ==> body.state == old(body.state).(
        shapes := old(body.state.shapes) + [Shape(CubeGeometry(owner.scale), IdentityPose)],
        pose := InitPose(owner),
        massUpdates := old(body.state.massUpdates) + (if isDynamic then [mass] else []))
    {
      if !hasMaterial {
        return;
      }
      var pose := InitPose(owner);
      if body != null {
        body.state := body.state.(shapes := body.state.shapes + [Shape(CubeGeometry(owner.scale), IdentityPose)]);
        body.state := body.state.(pose := pose);
        if isDynamic {
          body.state := body.state.(massUpdates := body.state.massUpdates + [mass]);
        }
      }
    }

    /**
     * CubePhysics::applyScale: the body ends with exactly one box, built from
     * the new scale alone, and tracks exactly that shape.
     */
    method CubeApplyScale(s: Vec3)
      requires Valid()
      requires body != null ==> hasMaterial
      modifies this, body
      ensures body == old(body) && mass == old(mass) && isDynamic == old(isDynamic) && hasMaterial == old(hasMaterial)
      ensures body == null ==> shapes == old(shapes)
      ensures body != null ==> shapes == [Shape(CubeGeometry(s), IdentityPose)]
      ensures body != null ==> body.state == old(body.state).(
        shapes := [Shape(CubeGeometry(s), IdentityPose)],
        massUpdates := old(body.state.massUpdates) + (if isDynamic then [mass] else []),
        wakeUps := old(body.state.wakeUps) + (if isDynamic then 1 else 0))
    {
      if body == null {
        return;
      }
      ReleaseAllShapes();
      var shape := Shape(CubeGeometry(s), IdentityPose);
      body.state := body.state.(shapes := body.state.shapes + [shape]);
      shapes := shapes + [shape];
      if isDynamic {
        body.state := body.state.(massUpdates := body.state.massUpdates + [mass]);
        body.state := body.state.(wakeUps := body.state.wakeUps + 1);
      }
    }

    /**
     * SpherePhysics::createDynamic: a new dynamic actor with the sphere
     * attached, the component becomes dynamic. The factory may return null.
     */
    method CreateDynamic(pose: Pose, radius: real, density: real, created: bool)
      modifies this
      ensures isDynamic && Valid()
      ensures created ==> body != null && fresh(body) && body.kind == RigidDynamic
      ensures created ==> body.state == NewActorState(pose).(shapes := [Shape(Sphere(radius), IdentityPose)], massUpdates := [density])
      ensures !created ==> body == null
      ensures mass == old(mass) && hasMaterial == old(hasMaterial) && shapes == old(shapes)
    {
      if created {
        body := new Actor(RigidDynamic, NewActorState(pose).(shapes := [Shape(Sphere(radius), IdentityPose)], massUpdates := [density]));
      } else {
        body := null;
      }
      isDynamic := true;
    }

    /**
     * SpherePhysics::init: without a material nothing happens; with a body it
     * releases every shape, attaches and tracks exactly one sphere whose radius
     * is the largest scale component, sets the owner's pose and, when dynamic,
     * recomputes mass and inertia.
     */
    method SphereInit(owner: Transform)
      requires Valid()
      modifies this, body
      ensures body == old(body) && mass == old(mass) && isDynamic == old(isDynamic) && hasMaterial == old(hasMaterial)
      ensures !hasMaterial || body == null ==> shapes == old(shapes)
      ensures !hasMaterial && body != null ==> body.state == old(body.state)
      ensures hasMaterial && body != null ==> shapes == [Shape(SphereGeometryFor(owner.scale), IdentityPose)]
      ensures hasMaterial && body != null ==> body.state == old(body.state).(
        shapes := [Shape(SphereGeometryFor(owner.scale), IdentityPose)],
        pose := InitPose(owner),
        massUpdates := old(body.state.massUpdates) + (if isDynamic then [mass] else []))
    {
      if !hasMaterial {
        return;
      }
      var s := owner.scale;
      var pose := InitPose(owner);
      var geometry := SphereGeometryFor(s);
      if body != null {
        ReleaseAllShapes();
        var shape := Shape(geometry, IdentityPose);
        body.state := body.state.(shapes := body.state.shapes + [shape]);
        shapes := shapes + [shape];
        body.state := body.state.(pose := pose);
        if isDynamic {
          body.state := body.state.(massUpdates := body.state.massUpdates + [mass]);
        }
      }
    }

    /**
     * SpherePhysics::applyScale: without a body or tracked shapes nothing
     * happens; otherwise exactly one sphere of radius max(s) remains.
     */
    method SphereApplyScale(s: Vec3)
      requires Valid()
      requires body != null && shapes != [] ==> hasMaterial
      modifies this, body
      ensures body == old(body) && mass == old(mass) && isDynamic == old(isDynamic) && hasMaterial == old(hasMaterial)
      ensures body == null || old(shapes) == [] ==> shapes == old(shapes)
      ensures body != null && old(shapes) == [] ==> body.state == old(body.state)
      ensures body != null && old(shapes) != [] ==> shapes == [Shape(SphereGeometryFor(s), IdentityPose)]
      ensures body != null && old(shapes) != [] ==> body.state == old(body.state).(
        shapes := [Shape(SphereGeometryFor(s), IdentityPose)],
        massUpdates := old(body.state.massUpdates) + (if isDynamic then [mass] else []),
        wakeUps := old(body.state.wakeUps) + (if isDynamic then 1 else 0))
    {
      if body == null || shapes == [] {
        return;
      }
      var geometry := SphereGeometryFor(s);
      ReleaseAllShapes();
      var shape := Shape(geometry, IdentityPose);
      body.state := body.state.(shapes := body.state.shapes + [shape]);
      shapes := shapes + [shape];
      if isDynamic {
        body.state := body.state.(massUpdates := body.state.massUpdates + [mass]);
        body.state := body.state.(wakeUps := body.state.wakeUps + 1);
      }
    }

    /**
     * The older SpherePhysics::init: attaches an untracked sphere of radius 1
     * whatever the object's scale, then sets the pose and the mass as CubeInit.
     */
    method SphereInitLegacy(owner: Transform)
      requires Valid()
      modifies body
      ensures !hasMaterial && body != null ==> body.state == old(body.state)
      ensures hasMaterial && body != null ==> body.state == old(body.state).(
        shapes := old(body.state.shapes) + [Shape(Sphere(1.0), IdentityPose)],
        pose := InitPose(owner),
        massUpdates := old(body.state.massUpdates) + (if isDynamic then [mass] else []))
    {
      if !hasMaterial {
        return;
      }
      var pose := InitPose(owner);
      if body != null {
        body.state := body.state.(shapes := body.state.shapes + [Shape(Sphere(1.0), IdentityPose)]);
        body.state := body.state.(pose := pose);
        if isDynamic {
          body.state := body.state.(massUpdates := body.state.massUpdates + [mass]);
        }
      }
    }
  }
}
