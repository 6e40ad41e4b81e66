/**
 * The slice of the PhysX SDK the engine touches, as an abstract record:
 * an actor has a kind, a global pose, an ordered list of attached shapes,
 * user data, and the history of the calls that would change its simulated
 * motion (forces, torques, mass/inertia updates, wake-ups). A physics scene
 * is the sequence of actors added to it.
 */
module PhysX {
  import opened Glm

  datatype ActorKind = RigidStatic | RigidDynamic

  /** PxTransform: a translation and a rotation. */
  datatype Pose = Pose(p: Vec3, q: Quat)

  const IdentityPose: Pose := Pose(Zero3, IdentityQuat)

  datatype Geometry = Box(halfExtents: Vec3) | Sphere(radius: real)

  datatype Shape = Shape(geometry: Geometry, localPose: Pose)

  /** Everything about an actor that the engine can change. */
  datatype ActorState = ActorState(
    pose: Pose,
    shapes: seq<Shape>,
    userData: object?,
    /** The values passed to PxRigidBodyExt::updateMassAndInertia, oldest first. */
    massUpdates: seq<real>,
    forces: seq<Vec3>,
    torques: seq<Vec3>,
    linearVelocity: Vec3,
    angularVelocity: Vec3,
    wakeUps: nat)

  /** The state of an actor just created at the given pose. */
  function NewActorState(pose: Pose): ActorState
  {
    ActorState(pose, [], null, [], [], [], Zero3, Zero3, 0)
  }

  class Actor {
    const kind: ActorKind
    var state: ActorState

    constructor (kind: ActorKind, state: ActorState)
      ensures this.kind == kind && this.state == state
    {
      this.kind := kind;
      this.state := state;
    }
  }

  /** PxScene as the ordered record of addActor calls and simulation steps. */
  class PhysicsScene {
    var actors: seq<Actor>
    var steps: seq<real>

    constructor ()
      ensures actors == [] && steps == []
    {
      actors := [];
      steps := [];
    }

    method AddActor(a: Actor)
      modifies this
      ensures actors == old(actors) + [a] && steps == old(steps)
    {
      actors := actors + [a];
    }

    /** update(dt): one simulate/fetchResults step. */
    method Step(dt: real)
      modifies this
      ensures steps == old(steps) + [dt] && actors == old(actors)
    {
      steps := steps + [dt];
    }
  }
}
