/**
 * Prefabs: named recipes with a default transform and a setup callback
 * (CORE/Prefabs/PrefabDefinition.hpp), the registry that stores them by
 * name and instantiates them into a scene (CLC/CORE/Prefabs/
 * PrefabManager.cpp), and the parent/child lists of a composite prefab
 * object (CLC/CORE/Prefabs/Prefab.hpp).
 *
 * A setup callback is arbitrary code; one run of it is modelled as the
 * sequence of engine calls it makes on the new object (addComponent with
 * or without arguments, setScale, setMass, setColor, addLight), supplied by
 * the caller of Instantiate.
 */
module Prefabs {
  import opened Glm
  import opened PhysX
  import opened Entities
  import opened Scenes
  import opened Sequences
  import Lights
  import RenderComponents

  /** Identifies a setup callback (a std::function value). */
  type SetupId = nat

  /** A definition as it is copied into the registry. */
  datatype PrefabRecord = PrefabRecord(
    name: string,
    defaultPosition: Vec3,
    defaultRotation: Vec3,
    defaultScale: Vec3,
    setup: SetupId)

  class PrefabDefinition {
    var name: string
    var defaultPosition: Vec3
    var defaultRotation: Vec3
    var defaultScale: Vec3
    var setup: SetupId

    /** The two-argument constructor: name and setup as given, default transform. */
    constructor (name: string, setup: SetupId)
      ensures this.name == name && this.setup == setup
      ensures defaultPosition == Zero3 && defaultRotation == Zero3 && defaultScale == One3
    {
      this.name := name;
      this.setup := setup;
      defaultPosition := Zero3;
      defaultRotation := Zero3;
      defaultScale := One3;
    }

    /** The value stored by registerPrefab. */
    function Record(): (r: PrefabRecord)
      reads this
      ensures r.name == name && r.setup == setup
      ensures r.defaultPosition == defaultPosition && r.defaultRotation == defaultRotation && r.defaultScale == defaultScale
    {
      PrefabRecord(name, defaultPosition, defaultRotation, defaultScale, setup)
    }

    /** setDefaultPosition: only that field changes; the same definition is returned for chaining. */
    method SetDefaultPosition(p: Vec3) returns (self: PrefabDefinition)
      modifies this
      ensures self == this
      ensures Record() == old(Record()).(defaultPosition := p)
    {
      defaultPosition := p;
      self := this;
    }

    method SetDefaultRotation(r: Vec3) returns (self: PrefabDefinition)
      modifies this
      ensures self == this
      ensures Record() == old(Record()).(defaultRotation := r)
    {
      defaultRotation := r;
      self := this;
    }

    method SetDefaultScale(s: Vec3) returns (self: PrefabDefinition)
      modifies this
      ensures self == this
      ensures Record() == old(Record()).(defaultScale := s)
    {
      defaultScale := s;
      self := this;
    }
  }

  /** The position instantiate uses: the requested one unless it is exactly the origin. */
  function SpawnPosition(requested: Vec3, default: Vec3): (p: Vec3)
    ensures requested != Zero3 ==> p == requested
    ensures requested == Zero3 ==> p == default
  {
    if requested.x != 0.0 || requested.y != 0.0 || requested.z != 0.0 then requested else default
  }

  /**
   * One statement of a setup callback, in the forms the engine's own
   * prefabs use (CLC/CORE/Prefabs/SomePrefabs.hpp): addComponent with and
   * without constructor arguments, setScale on the object, setMass on an
   * attached physics component, setColor on a render component, and
   * LightManager::addLight.
   */
  datatype SetupStep =
    | Attach(c: Component)
    | AttachWithArgs(c: Component)
    | ScaleTo(s: Vec3)
    | SetMassTo(c: Component, m: real)
    | SetColorTo(r: RenderComponents.RenderComponent, color: Vec4)
    | RegisterLight(l: Lights.Light)

  predicate Attaches(st: SetupStep)
  {
    st.Attach? || st.AttachWithArgs?
  }

  /** The components a setup attaches, in order. */
  function Attached(steps: seq<SetupStep>): (cs: seq<Component>)
  {
    if steps == [] then []
    else
      var last := steps[|steps| - 1];
      Attached(steps[..|steps| - 1]) + (if Attaches(last) then [last.c] else [])
  }

  /** A component is attached by a setup exactly when one of its steps attaches it. */
  lemma {:induction false} AttachedMembers(steps: seq<SetupStep>)
    ensures |Attached(steps)| <= |steps|
    ensures forall j :: 0 <= j < |steps| && Attaches(steps[j]) ==> steps[j].c in Attached(steps)
    ensures forall c | c in Attached(steps) :: exists j :: 0 <= j < |steps| && Attaches(steps[j]) && steps[j].c == c
  {
    if steps != [] {
      AttachedMembers(steps[..|steps| - 1]);
    }
  }

  /** The object's scale after a setup that starts from s0: the last setScale, if any. */
  function ScaleAfter(steps: seq<SetupStep>, s0: Vec3): (s: Vec3)
  {
    if steps == [] then s0
    else
      var last := steps[|steps| - 1];
      if last.ScaleTo? then last.s else ScaleAfter(steps[..|steps| - 1], s0)
  }

  /** The scale after a setup is the starting one or one a setScale step sets; without such a step it is kept. */
  lemma {:induction false} ScaleAfterSource(steps: seq<SetupStep>, s0: Vec3)
    ensures ScaleAfter(steps, s0) == s0 || ScaleTo(ScaleAfter(steps, s0)) in steps
    ensures (forall st | st in steps :: !st.ScaleTo?) ==> ScaleAfter(steps, s0) == s0
  {
    if steps != [] {
      ScaleAfterSource(steps[..|steps| - 1], s0);
    }
  }

  /** The mass recorded on c after a setup that starts from m0: the last setMass on c, if any. */
  function MassAfter(steps: seq<SetupStep>, c: Component, m0: real): (m: real)
  {
    if steps == [] then m0
    else
      var last := steps[|steps| - 1];
      if last.SetMassTo? && last.c == c then last.m else MassAfter(steps[..|steps| - 1], c, m0)
  }

  /** The mass after a setup is the starting one or one a setMass step on c sets; without such a step it is kept. */
  lemma {:induction false} MassAfterSource(steps: seq<SetupStep>, c: Component, m0: real)
    ensures MassAfter(steps, c, m0) == m0 || SetMassTo(c, MassAfter(steps, c, m0)) in steps
    ensures (forall st | st in steps :: !(st.SetMassTo? && st.c == c)) ==> MassAfter(steps, c, m0) == m0
  {
    if steps != [] {
      MassAfterSource(steps[..|steps| - 1], c, m0);
    }
  }

  /** The color of r after a setup that starts from c0: the last setColor on r, if any. */
  function ColorAfter(steps: seq<SetupStep>, r: RenderComponents.RenderComponent, c0: Vec4): (color: Vec4)
  {
    if steps == [] then c0
    else
      var last := steps[|steps| - 1];
      if last.SetColorTo? && last.r == r then last.color else ColorAfter(steps[..|steps| - 1], r, c0)
  }

  /** The color after a setup is the starting one or one a setColor step on r sets; without such a step it is kept. */
  lemma {:induction false} ColorAfterSource(steps: seq<SetupStep>, r: RenderComponents.RenderComponent, c0: Vec4)
    ensures ColorAfter(steps, r, c0) == c0 || SetColorTo(r, ColorAfter(steps, r, c0)) in steps
    ensures (forall st | st in steps :: !(st.SetColorTo? && st.r == r)) ==> ColorAfter(steps, r, c0) == c0
  {
    if steps != [] {
      ColorAfterSource(steps[..|steps| - 1], r, c0);
    }
  }

  /** The lights a setup registers with the light manager, in order. */
  function LightsAdded(steps: seq<SetupStep>): (ls: seq<Lights.Light>)
  {
    if steps == [] then []
    else
      var last := steps[|steps| - 1];
      LightsAdded(steps[..|steps| - 1]) + (if last.RegisterLight? then [last.l] else [])
  }

  /** The lights a setup registers are exactly those of its addLight steps. */
  lemma {:induction false} LightsAddedMembers(steps: seq<SetupStep>)
    ensures |LightsAdded(steps)| <= |steps|
    ensures forall l | l in LightsAdded(steps) :: RegisterLight(l) in steps
    ensures forall j :: 0 <= j < |steps| && steps[j].RegisterLight? ==> steps[j].l in LightsAdded(steps)
  {
    if steps != [] {
      LightsAddedMembers(steps[..|steps| - 1]);
    }
  }

  /** What one more step adds to the components, the scale and the lights a setup leaves. */
  lemma PrefixStep(steps: seq<SetupStep>, i: nat, s0: Vec3)
    requires i < |steps|
    ensures Attached(steps[..i + 1]) == Attached(steps[..i]) + (if Attaches(steps[i]) then [steps[i].c] else [])
    ensures ScaleAfter(steps[..i + 1], s0) == if steps[i].ScaleTo? then steps[i].s else ScaleAfter(steps[..i], s0)
    ensures LightsAdded(steps[..i + 1]) == LightsAdded(steps[..i]) + (if steps[i].RegisterLight? then [steps[i].l] else [])
  {
    assert steps[..i + 1][..i] == steps[..i];
  }

  /**
   * How the steps of a setup relate to each other, as the engine's prefabs
   * use them: each step attaches its own component; no two attached
   * components share their physics state; setMass is called on a physics
   * component the setup attaches.
   */
  predicate SetupShape(steps: seq<SetupStep>)
  {
    (forall i, j :: 0 <= i < j < |steps| && Attaches(steps[i]) && Attaches(steps[j]) ==> steps[i].c != steps[j].c)
    && (forall i, j | 0 <= i < |steps| && 0 <= j < |steps| && i != j && Attaches(steps[i]) && Attaches(steps[j])
          && steps[i].c.physics != null :: steps[i].c.physics != steps[j].c.physics)
    && (forall j :: 0 <= j < |steps| && steps[j].SetMassTo? ==>
          && steps[j].c.physics != null
          && exists i :: 0 <= i < |steps| && Attaches(steps[i]) && steps[i].c == steps[j].c)
  }

  /**
   * What a setup may rely on before it runs: its shape, and every component
   * it attaches is fresh (unowned) and well formed, no two sharing a body.
   * A body may be missing, its creation having failed, except where the
   * setup dereferences it: setUserData after an attach with arguments, and
   * setMass on a dynamic component.
   */
  ghost predicate SetupWellFormed(steps: seq<SetupStep>)
    reads set j | 0 <= j < |steps| && Attaches(steps[j]) :: steps[j].c
    reads set j | 0 <= j < |steps| && (Attaches(steps[j]) || steps[j].SetMassTo?) && steps[j].c.physics != null
      :: steps[j].c.physics
  {
    SetupShape(steps) && AllWellFormed(steps) && Unowned(steps, 0)
    && (forall j :: 0 <= j < |steps| && Attaches(steps[j]) && steps[j].c.physics != null ==> steps[j].c.physics.Valid())
    && (forall j :: 0 <= j < |steps| && steps[j].AttachWithArgs? && steps[j].c.physics != null ==>
          steps[j].c.physics.body != null)
    && (forall j :: 0 <= j < |steps| && steps[j].SetMassTo? && steps[j].c.physics != null && steps[j].c.physics.isDynamic ==>
          steps[j].c.physics.body != null)
    && (forall i, j | 0 <= i < |steps| && 0 <= j < |steps| && i != j && Attaches(steps[i]) && Attaches(steps[j])
          && steps[i].c.physics != null && steps[j].c.physics != null && steps[i].c.physics.body != null ::
          steps[i].c.physics.body != steps[j].c.physics.body)
  }

  /** No two attached physics components started with the same body. */
  predicate BodiesDistinct(steps: seq<SetupStep>, start: seq<StepStart>)
    requires |start| == |steps|
  {
    forall i, j | 0 <= i < |steps| && 0 <= j < |steps| && i != j && Attaches(steps[i]) && Attaches(steps[j])
      && steps[i].c.physics != null && steps[j].c.physics != null && start[i].body != null :: start[i].body != start[j].body
  }

  /**
   * The bodies a setup dereferences were there before it ran: that of each
   * physics component attached with arguments, and that of each dynamic
   * physics component whose mass it sets.
   */
  predicate BodiesPresent(steps: seq<SetupStep>, start: seq<StepStart>)
    requires |start| == |steps|
  {
    forall k | 0 <= k < |steps| && Attaches(steps[k]) && steps[k].c.physics != null
      && (steps[k].AttachWithArgs? || (start[k].isDynamic && MassIsSet(steps, steps[k].c))) :: start[k].body != null
  }

  /** Some step of the setup calls setMass on c. */
  predicate MassIsSet(steps: seq<SetupStep>, c: Component)
  {
    exists j :: 0 <= j < |steps| && steps[j].SetMassTo? && steps[j].c == c
  }

  predicate AllWellFormed(steps: seq<SetupStep>)
  {
    forall j :: 0 <= j < |steps| && Attaches(steps[j]) ==> WellFormed(steps[j].c)
  }

  /** The components attached from step i on are still unowned. */
  ghost predicate Unowned(steps: seq<SetupStep>, i: nat)
    reads set j | i <= j < |steps| && Attaches(steps[j]) :: steps[j].c
  {
    forall j :: i <= j < |steps| && Attaches(steps[j]) ==> steps[j].c.owner == null
  }

  /**
   * The first physics component a setup attaches, the one whose body the
   * scene registers when the object is added, has a body.
   */
  ghost predicate FirstPhysicsHasBody(steps: seq<SetupStep>)
    reads set c | c in Attached(steps) && c.physics != null :: c.physics
  {
    match FirstMatch(Attached(steps), PhysicsComponent)
    case None => true
    case Some(k) => Attached(steps)[k].physics != null && Attached(steps)[k].physics.body != null
  }

  /** What a step's targets hold before the setup runs. */
  datatype StepStart = StepStart(body: Actor?, isDynamic: bool, hasMaterial: bool, mass: real, state: ActorState, color: Vec4)

  function StartReads(st: SetupStep): set<object>
    reads if Attaches(st) && st.c.physics != null then {st.c.physics} else {}
  {
    if Attaches(st) && st.c.physics != null then
      {st.c.physics} + (if st.c.physics.body != null then {st.c.physics.body} else {})
    else if st.SetColorTo? then {st.r}
    else {}
  }

  function StartOf(st: SetupStep): StepStart
    reads StartReads(st)
  {
    if Attaches(st) && st.c.physics != null then
      var p := st.c.physics;
      StepStart(p.body, p.isDynamic, p.hasMaterial, p.mass,
        if p.body != null then p.body.state else NewActorState(IdentityPose), Vec4(0.0, 0.0, 0.0, 0.0))
    else if st.SetColorTo? then StepStart(null, false, false, 0.0, NewActorState(IdentityPose), st.r.color)
    else StepStart(null, false, false, 0.0, NewActorState(IdentityPose), Vec4(0.0, 0.0, 0.0, 0.0))
  }

  /**
   * What step i does to the body of the physics component attached at step
   * j, whose targets started as s and whose body is in state st, while the
   * object sits at pose and started with scale s0: the attach step runs
   * init, which sees the mass and the scale set so far, and, with
   * arguments, then stores o as user data; a setMass on that component
   * records the mass in a dynamic body; any other step leaves it.
   */
  function BodyStep(o: object, steps: seq<SetupStep>, i: nat, j: nat, s: StepStart, pose: Pose, s0: Vec3, st: ActorState): ActorState
    requires i < |steps| && j < |steps| && Attaches(steps[j])
  {
    var c := steps[j].c;
    if i == j then
      var r := InitEffect(c.kind, s.hasMaterial, s.isDynamic, MassAfter(steps[..i], c, s.mass), pose, ScaleAfter(steps[..i], s0), st);
      if steps[j].AttachWithArgs? then r.(userData := o) else r
    else if steps[i].SetMassTo? && steps[i].c == c && s.isDynamic then st.(massUpdates := st.massUpdates + [steps[i].m])
    else st
  }

  /** The state of that body after the first i steps. */
  function BodyAfter(o: object, steps: seq<SetupStep>, i: nat, j: nat, s: StepStart, pose: Pose, s0: Vec3): ActorState
    requires i <= |steps| && j < |steps| && Attaches(steps[j])
  {
    if i == 0 then s.state else BodyStep(o, steps, i - 1, j, s, pose, s0, BodyAfter(o, steps, i - 1, j, s, pose, s0))
  }

  /**
   * What a setup leaves in the body of the physics component attached at
   * step j, after its first i steps. Until the attach, shapes, pose and user
   * data are as they were. Init with a material gives a cube one more box,
   * of half extents 0.5 * the scale set before step j, and a sphere exactly
   * one sphere, of radius the largest component of that scale, both at the
   * object's pose; later steps keep these. The user data is o exactly when
   * the attach had arguments. Forces, torques and velocities never change.
   */
  lemma {:induction false} BodyAfterShape(o: object, steps: seq<SetupStep>, i: nat, j: nat, s: StepStart, pose: Pose, s0: Vec3)
    requires i <= |steps| && j < |steps| && Attaches(steps[j])
    ensures var r := BodyAfter(o, steps, i, j, s, pose, s0);
      && r.forces == s.state.forces && r.torques == s.state.torques
      && r.linearVelocity == s.state.linearVelocity && r.angularVelocity == s.state.angularVelocity
      && r.wakeUps == s.state.wakeUps
      && r.userData == (if j < i && steps[j].AttachWithArgs? then o else s.state.userData)
      && (i <= j || !s.hasMaterial || !(steps[j].c.kind == CubePhysics || steps[j].c.kind == SpherePhysics) ==>
            r.shapes == s.state.shapes && r.pose == s.state.pose)
      && (j < i && s.hasMaterial && steps[j].c.kind == CubePhysics ==>
            && r.shapes == s.state.shapes + [Shape(PhysicsComponents.CubeGeometry(ScaleAfter(steps[..j], s0)), IdentityPose)]
            && r.pose == pose)
      && (j < i && s.hasMaterial && steps[j].c.kind == SpherePhysics ==>
            && r.shapes == [Shape(PhysicsComponents.SphereGeometryFor(ScaleAfter(steps[..j], s0)), IdentityPose)]
            && r.pose == pose)
  {
    if i > 0 {
      BodyAfterShape(o, steps, i - 1, j, s, pose, s0);
    }
  }

  /** The masses the steps lo .. hi - 1 set on c, in order. */
  function MassesSet(steps: seq<SetupStep>, c: Component, lo: nat, hi: nat): seq<real>
    requires lo <= hi <= |steps|
    decreases hi - lo
  {
    if hi == lo then []
    else MassesSet(steps, c, lo, hi - 1) + (if steps[hi - 1].SetMassTo? && steps[hi - 1].c == c then [steps[hi - 1].m] else [])
  }

  /**
   * The mass updates a setup leaves in that body: none for a static
   * component; for a dynamic one, each setMass on it in order, with init's
   * update, at the mass set so far, between those before and after the
   * attach when init has a cube or sphere with a material.
   */
  lemma {:induction false} BodyAfterMasses(o: object, steps: seq<SetupStep>, i: nat, j: nat, s: StepStart, pose: Pose, s0: Vec3)
    requires i <= |steps| && j < |steps| && Attaches(steps[j])
    ensures var r := BodyAfter(o, steps, i, j, s, pose, s0);
      var c := steps[j].c;
      var initUpdate := if s.hasMaterial && (c.kind == CubePhysics || c.kind == SpherePhysics) then [MassAfter(steps[..j], c, s.mass)] else [];
      && (!s.isDynamic ==> r.massUpdates == s.state.massUpdates)
      && (s.isDynamic && i <= j ==> r.massUpdates == s.state.massUpdates + MassesSet(steps, c, 0, i))
      && (s.isDynamic && j < i ==>
            r.massUpdates == s.state.massUpdates + MassesSet(steps, c, 0, j) + initUpdate + MassesSet(steps, c, j + 1, i))
  {
    if i > 0 {
      BodyAfterMasses(o, steps, i - 1, j, s, pose, s0);
    }
  }

  /**
   * After the first i steps, from the values in start: every attached
   * physics component keeps its body, type and material and records the last
   * mass set on it, and its body, if it has one, is in the state bodies holds
   * for it.
   */
  ghost predicate PhysicsProgress(steps: seq<SetupStep>, i: nat, start: seq<StepStart>, bodies: seq<ActorState>)
    requires |start| == |steps| && |bodies| == |steps| && i <= |steps|
    reads set j | 0 <= j < |steps| && Attaches(steps[j]) && steps[j].c.physics != null :: steps[j].c.physics
    reads set j | 0 <= j < |steps| && Attaches(steps[j]) && steps[j].c.physics != null && start[j].body != null :: start[j].body
  {
    forall j :: 0 <= j < |steps| && Attaches(steps[j]) && steps[j].c.physics != null ==>
      var p := steps[j].c.physics;
      && p.body == start[j].body && p.Valid() && p.isDynamic == start[j].isDynamic && p.hasMaterial == start[j].hasMaterial
      && p.mass == MassAfter(steps[..i], steps[j].c, start[j].mass)
      && (p.body != null ==> p.body.state == bodies[j])
  }

  /** The body states BodyAfter gives after the first i steps, for every step that attaches a component. */
  function BodiesAfter(o: object, steps: seq<SetupStep>, i: nat, start: seq<StepStart>, pose: Pose, s0: Vec3): (r: seq<ActorState>)
    requires i <= |steps| && |start| == |steps|
    ensures |r| == |steps|
  {
    seq(|steps|, j requires 0 <= j < |steps| =>
      if Attaches(steps[j]) then BodyAfter(o, steps, i, j, start[j], pose, s0) else start[j].state)
  }

  /** The body states after step i, from those before it. */
  function NextBodies(o: object, steps: seq<SetupStep>, i: nat, start: seq<StepStart>, pose: Pose, s0: Vec3,
                      bodies: seq<ActorState>): (r: seq<ActorState>)
    requires i < |steps| && |start| == |steps| && |bodies| == |steps|
    ensures |r| == |steps|
  {
    seq(|steps|, j requires 0 <= j < |steps| =>
      if Attaches(steps[j]) then BodyStep(o, steps, i, j, start[j], pose, s0, bodies[j]) else bodies[j])
  }

  lemma BodiesAfterNext(o: object, steps: seq<SetupStep>, i: nat, start: seq<StepStart>, pose: Pose, s0: Vec3)
    requires i < |steps| && |start| == |steps|
    ensures NextBodies(o, steps, i, start, pose, s0, BodiesAfter(o, steps, i, start, pose, s0))
      == BodiesAfter(o, steps, i + 1, start, pose, s0)
  {
  }

  /** After the first i steps, each colored render component has the last color set on it. */
  ghost predicate ColorProgress(steps: seq<SetupStep>, i: nat, start: seq<StepStart>)
    requires |start| == |steps| && i <= |steps|
    reads set j | 0 <= j < |steps| && steps[j].SetColorTo? :: steps[j].r
  {
    forall j :: 0 <= j < |steps| && steps[j].SetColorTo? ==>
      steps[j].r.color == ColorAfter(steps[..i], steps[j].r, start[j].color)
  }

  /** What one step may change besides the object, its transform and the light manager. */
  function StepFrame(st: SetupStep): set<object?>
    reads if (Attaches(st) || st.SetMassTo?) && st.c.physics != null then {st.c.physics} else {}
  {
    match st
    case Attach(c) => {c} + InitFrame(c)
    case AttachWithArgs(c) => {c} + InitFrame(c)
    case SetMassTo(c, _) => if c.physics != null then {c.physics, c.physics.body} else {}
    case SetColorTo(r, _) => {r}
    case _ => {}
  }

  /** The values every step's targets hold before the setup runs. */
  function Starts(steps: seq<SetupStep>): (r: seq<StepStart>)
    reads set j | 0 <= j < |steps| && Attaches(steps[j]) && steps[j].c.physics != null :: steps[j].c.physics
    reads set j, x | 0 <= j < |steps| && x in StartReads(steps[j]) :: x
    ensures |r| == |steps|
    ensures forall j :: 0 <= j < |steps| ==> r[j] == StartOf(steps[j])
  {
    if steps == [] then []
    else Starts(steps[..|steps| - 1]) + [StartOf(steps[|steps| - 1])]
  }

  /** What a setup run relies on throughout: the shape of its steps and the bodies its targets start with. */
  predicate Plan(steps: seq<SetupStep>, start: seq<StepStart>)
  {
    |start| == |steps| && SetupShape(steps) && AllWellFormed(steps) && BodiesDistinct(steps, start) && BodiesPresent(steps, start)
  }

  /**
   * The state of a setup run after its first i steps, given the targets'
   * values start from before the run, the body states bodies, the object's
   * scale s0 and the light list lights0 before the run.
   */
  ghost predicate SetupInvariant(o: GameObject, steps: seq<SetupStep>, i: nat, lm: Lights.LightManager,
                                 start: seq<StepStart>, bodies: seq<ActorState>, s0: Vec3, lights0: seq<Lights.Light>)
    reads o, o.xf, lm, set c | c in o.components
    reads set j | 0 <= j < |steps| && Attaches(steps[j]) :: steps[j].c
    reads set j | 0 <= j < |steps| && Attaches(steps[j]) && steps[j].c.physics != null :: steps[j].c.physics
    reads set j | 0 <= j < |steps| && j < |start| && Attaches(steps[j]) && steps[j].c.physics != null && start[j].body != null
      :: start[j].body
    reads set j | 0 <= j < |steps| && steps[j].SetColorTo? :: steps[j].r
  {
    && i <= |steps| && |start| == |steps| && |bodies| == |steps|
    && o.components == Attached(steps[..i]) && o.Valid()
    && o.xf.scale == ScaleAfter(steps[..i], s0)
    && lm.lights == lights0 + LightsAdded(steps[..i])
    && Unowned(steps, i) && PhysicsProgress(steps, i, start, bodies) && ColorProgress(steps, i, start)
  }

  /** A step that is neither an attach nor a setMass leaves every physics component as it was. */
  lemma {:induction false} PhysicsProgressSkip(o: object, steps: seq<SetupStep>, i: nat, start: seq<StepStart>, pose: Pose, s0: Vec3,
                                               bodies: seq<ActorState>)
    requires |start| == |steps| && |bodies| == |steps| && i < |steps| && !Attaches(steps[i]) && !steps[i].SetMassTo?
    requires PhysicsProgress(steps, i, start, bodies)
    ensures PhysicsProgress(steps, i + 1, start, NextBodies(o, steps, i, start, pose, s0, bodies))
  {
    assert steps[..i + 1][..i] == steps[..i];
  }

  /** A step that is not a setColor leaves every render component's color as it was. */
  lemma {:induction false} ColorProgressSkip(steps: seq<SetupStep>, i: nat, start: seq<StepStart>)
    requires |start| == |steps| && i < |steps| && !steps[i].SetColorTo?
    requires ColorProgress(steps, i, start)
    ensures ColorProgress(steps, i + 1, start)
  {
    assert steps[..i + 1][..i] == steps[..i];
  }

  /** What one more step does to the color ColorAfter gives each colored render component. */
  lemma ColorAfterStep(steps: seq<SetupStep>, i: nat, start: seq<StepStart>)
    requires |start| == |steps| && i < |steps|
    ensures forall j | 0 <= j < |steps| && steps[j].SetColorTo? ::
      ColorAfter(steps[..i + 1], steps[j].r, start[j].color) ==
        if steps[i].SetColorTo? && steps[i].r == steps[j].r then steps[i].color
        else ColorAfter(steps[..i], steps[j].r, start[j].color)
  {
    assert steps[..i + 1][..i] == steps[..i];
  }

  /** p has the given body, type, material and mass, is valid, and its body, if any, is in state st. */
  ghost predicate PhysicsIs(p: PhysicsComponents.PhysicsComponent, body: Actor?, isDynamic: bool, hasMaterial: bool, mass: real,
                            st: ActorState)
    reads p, p.body
  {
    p.body == body && p.isDynamic == isDynamic && p.hasMaterial == hasMaterial && p.mass == mass && p.Valid()
    && (body != null ==> body.state == st)
  }

  /** PhysicsProgress after i steps, read off a snapshot now of the physics components. */
  predicate SnapProgress(steps: seq<SetupStep>, i: nat, start: seq<StepStart>, now: seq<StepStart>, bodies: seq<ActorState>)
    requires |start| == |steps| && |now| == |steps| && |bodies| == |steps| && i <= |steps|
  {
    forall j | 0 <= j < |steps| && Attaches(steps[j]) && steps[j].c.physics != null ::
      && now[j].body == start[j].body && now[j].isDynamic == start[j].isDynamic && now[j].hasMaterial == start[j].hasMaterial
      && now[j].mass == MassAfter(steps[..i], steps[j].c, start[j].mass)
      && (now[j].body != null ==> now[j].state == bodies[j])
  }

  lemma {:induction false} SnapshotProgress(steps: seq<SetupStep>, i: nat, start: seq<StepStart>, bodies: seq<ActorState>)
    requires |start| == |steps| && |bodies| == |steps| && i <= |steps| && PhysicsProgress(steps, i, start, bodies)
    ensures SnapProgress(steps, i, start, Starts(steps), bodies)
  {
  }

  /**
   * An attach step of a component without physics state: if every attached
   * physics component is as the snapshot now had it, the progress holds after
   * i + 1 steps.
   */
  lemma {:induction false} PhysicsProgressKeep(o: object, steps: seq<SetupStep>, i: nat, start: seq<StepStart>, now: seq<StepStart>,
                                               pose: Pose, s0: Vec3, bodies: seq<ActorState>)
    requires |start| == |steps| && |now| == |steps| && |bodies| == |steps| && i < |steps|
    requires Attaches(steps[i]) && steps[i].c.physics == null
    requires SnapProgress(steps, i, start, now, bodies)
    requires forall j | 0 <= j < |steps| && Attaches(steps[j]) && steps[j].c.physics != null ::
      PhysicsIs(steps[j].c.physics, now[j].body, now[j].isDynamic, now[j].hasMaterial, now[j].mass, now[j].state)
    ensures PhysicsProgress(steps, i + 1, start, NextBodies(o, steps, i, start, pose, s0, bodies))
  {
    assert steps[..i + 1][..i] == steps[..i];
  }

  /**
   * One step that acts on the single physics component attached at step t
   * (its attach, or a setMass on it): if that component is as BodyStep and
   * the mass set say, and every other is as the snapshot now had it, the
   * progress holds after i + 1 steps.
   */
  lemma {:induction false} PhysicsProgressAt(o: object, steps: seq<SetupStep>, i: nat, start: seq<StepStart>, now: seq<StepStart>,
                                             pose: Pose, s0: Vec3, bodies: seq<ActorState>, t: nat)
    requires |start| == |steps| && |now| == |steps| && |bodies| == |steps| && i < |steps| && t < |steps| && SetupShape(steps)
    requires SnapProgress(steps, i, start, now, bodies)
    requires Attaches(steps[t]) && steps[t].c.physics != null
    requires (Attaches(steps[i]) && t == i) || (steps[i].SetMassTo? && steps[t].c == steps[i].c)
    requires forall j | 0 <= j < |steps| && j != t && Attaches(steps[j]) && steps[j].c.physics != null ::
      PhysicsIs(steps[j].c.physics, now[j].body, now[j].isDynamic, now[j].hasMaterial, now[j].mass, now[j].state)
    requires PhysicsIs(steps[t].c.physics, now[t].body, now[t].isDynamic, now[t].hasMaterial,
      if steps[i].SetMassTo? then steps[i].m else now[t].mass, BodyStep(o, steps, i, t, start[t], pose, s0, now[t].state))
    ensures PhysicsProgress(steps, i + 1, start, NextBodies(o, steps, i, start, pose, s0, bodies))
  {
    assert steps[..i + 1][..i] == steps[..i];
  }

  /** A setMass step records its mass in the body of a dynamic component it targets, and does nothing else to it. */
  lemma MassBodyStep(o: object, steps: seq<SetupStep>, i: nat, k: nat, s: StepStart, pose: Pose, s0: Vec3, st: ActorState)
    requires i < |steps| && k < |steps| && steps[i].SetMassTo? && Attaches(steps[k]) && steps[k].c == steps[i].c
    ensures BodyStep(o, steps, i, k, s, pose, s0, st) ==
      if s.isDynamic then st.(massUpdates := st.massUpdates + [steps[i].m]) else st
  {
  }

  /**
   * The attach step's effect on its own body is what addComponent's init
   * leaves, given the component's material, type and mass and the object's
   * pose and scale at that point.
   */
  lemma AttachBody(o: object, steps: seq<SetupStep>, i: nat, start: seq<StepStart>, pose: Pose, s0: Vec3,
                   p: PhysicsComponents.PhysicsComponent, xf: Transforms.Transform, st: ActorState)
    requires i < |steps| && |start| == |steps| && Attaches(steps[i])
    requires p.hasMaterial == start[i].hasMaterial && p.isDynamic == start[i].isDynamic
    requires p.mass == MassAfter(steps[..i], steps[i].c, start[i].mass)
    requires PhysicsComponents.InitPose(xf) == pose && xf.scale == ScaleAfter(steps[..i], s0)
    ensures steps[i].Attach? ==> BodyStep(o, steps, i, i, start[i], pose, s0, st) == AfterInit(steps[i].c.kind, p, st, xf)
    ensures steps[i].AttachWithArgs? ==>
      BodyStep(o, steps, i, i, start[i], pose, s0, st) == AfterInit(steps[i].c.kind, p, st, xf).(userData := o)
  {
  }

  /** What the invariant gives an attach step: its component may be attached, and the physics snapshot. */
  lemma {:induction false} AttachReady(o: GameObject, steps: seq<SetupStep>, i: nat, lm: Lights.LightManager,
                                       start: seq<StepStart>, bodies: seq<ActorState>, s0: Vec3, lights0: seq<Lights.Light>)
    requires Plan(steps, start) && SetupInvariant(o, steps, i, lm, start, bodies, s0, lights0) && i < |steps| && Attaches(steps[i])
    ensures steps[i].c.owner == null && WellFormed(steps[i].c)
    ensures steps[i].c.physics != null ==> steps[i].c.physics.Valid() && steps[i].c.physics.body == start[i].body
    ensures SnapProgress(steps, i, start, Starts(steps), bodies)
  {
    SnapshotProgress(steps, i, start, bodies);
  }

  /** addComponent<T>() of a component without physics state. */
  method AttachStep(o: GameObject, steps: seq<SetupStep>, i: nat, lm: Lights.LightManager,
                    ghost start: seq<StepStart>, ghost pose: Pose, ghost s0: Vec3, ghost lights0: seq<Lights.Light>,
                    ghost bodies: seq<ActorState>)
    requires Plan(steps, start) && SetupInvariant(o, steps, i, lm, start, bodies, s0, lights0) && i < |steps|
    requires steps[i].Attach? && steps[i].c.physics == null
    modifies o, steps[i].c
    ensures SetupInvariant(o, steps, i + 1, lm, start, NextBodies(o, steps, i, start, pose, s0, bodies), s0, lights0)
  {
    PrefixStep(steps, i, s0);
    ghost var now := Starts(steps);
    AttachReady(o, steps, i, lm, start, bodies, s0, lights0);
    ColorProgressSkip(steps, i, start);
    var _ := o.AddComponent(steps[i].c);
    PhysicsProgressKeep(o, steps, i, start, now, pose, s0, bodies);
  }

  /** addComponent<T>() of a physics component: init runs on its body, if it has one. */
  method AttachPhysicsStep(o: GameObject, steps: seq<SetupStep>, i: nat, lm: Lights.LightManager,
                           ghost start: seq<StepStart>, ghost pose: Pose, ghost s0: Vec3, ghost lights0: seq<Lights.Light>,
                           ghost bodies: seq<ActorState>)
    requires Plan(steps, start) && SetupInvariant(o, steps, i, lm, start, bodies, s0, lights0) && i < |steps|
    requires PhysicsComponents.InitPose(o.xf) == pose
    requires steps[i].Attach? && steps[i].c.physics != null
    modifies o, steps[i].c, steps[i].c.physics, steps[i].c.physics.body
    ensures SetupInvariant(o, steps, i + 1, lm, start, NextBodies(o, steps, i, start, pose, s0, bodies), s0, lights0)
  {
    PrefixStep(steps, i, s0);
    AttachReady(o, steps, i, lm, start, bodies, s0, lights0);
    ColorProgressSkip(steps, i, start);
    AttachPhysicsCall(o, steps, i, start, pose, s0, bodies);
  }

  /** The AddComponent call of step i, seen from the object and the physics components. */
  method AttachPhysicsCall(o: GameObject, steps: seq<SetupStep>, i: nat,
                 ghost start: seq<StepStart>, ghost pose: Pose, ghost s0: Vec3, ghost bodies: seq<ActorState>)
    requires Plan(steps, start) && |bodies| == |steps| && i < |steps| && steps[i].Attach? && steps[i].c.physics != null
    requires PhysicsProgress(steps, i, start, bodies)
    requires o.Valid() && steps[i].c.owner == null && WellFormed(steps[i].c)
    requires PhysicsComponents.InitPose(o.xf) == pose && o.xf.scale == ScaleAfter(steps[..i], s0)
    modifies o, steps[i].c, steps[i].c.physics, steps[i].c.physics.body
    ensures o.Valid() && o.components == old(o.components) + [steps[i].c] && steps[i].c.owner == o
    ensures PhysicsProgress(steps, i + 1, start, NextBodies(o, steps, i, start, pose, s0, bodies))
  {
    ghost var now := Starts(steps);
    SnapshotProgress(steps, i, start, bodies);
    ghost var p := steps[i].c.physics;
    ghost var st := if p.body != null then p.body.state else NewActorState(IdentityPose);
    var _ := o.AddComponent(steps[i].c);
    AttachBody(o, steps, i, start, pose, s0, p, o.xf, st);
    PhysicsProgressAt(o, steps, i, start, now, pose, s0, bodies, i);
  }

  /** addComponent<T>(args) of a component without physics state. */
  method AttachWithArgsStep(o: GameObject, steps: seq<SetupStep>, i: nat, lm: Lights.LightManager,
                            ghost start: seq<StepStart>, ghost pose: Pose, ghost s0: Vec3, ghost lights0: seq<Lights.Light>,
                            ghost bodies: seq<ActorState>)
    requires Plan(steps, start) && SetupInvariant(o, steps, i, lm, start, bodies, s0, lights0) && i < |steps|
    requires steps[i].AttachWithArgs? && steps[i].c.physics == null
    modifies o, steps[i].c
    ensures SetupInvariant(o, steps, i + 1, lm, start, NextBodies(o, steps, i, start, pose, s0, bodies), s0, lights0)
  {
    PrefixStep(steps, i, s0);
    ghost var now := Starts(steps);
    AttachReady(o, steps, i, lm, start, bodies, s0, lights0);
    ColorProgressSkip(steps, i, start);
    var _ := o.AddComponentWithArgs(steps[i].c);
    PhysicsProgressKeep(o, steps, i, start, now, pose, s0, bodies);
  }

  /** addComponent<T>(args) of a physics component: init runs on its body, then the object becomes its user data. */
  method AttachPhysicsWithArgsStep(o: GameObject, steps: seq<SetupStep>, i: nat, lm: Lights.LightManager,
                                   ghost start: seq<StepStart>, ghost pose: Pose, ghost s0: Vec3, ghost lights0: seq<Lights.Light>,
                                   ghost bodies: seq<ActorState>)
    requires Plan(steps, start) && SetupInvariant(o, steps, i, lm, start, bodies, s0, lights0) && i < |steps|
    requires PhysicsComponents.InitPose(o.xf) == pose
    requires steps[i].AttachWithArgs? && steps[i].c.physics != null
    modifies o, steps[i].c, steps[i].c.physics, steps[i].c.physics.body
    ensures SetupInvariant(o, steps, i + 1, lm, start, NextBodies(o, steps, i, start, pose, s0, bodies), s0, lights0)
  {
    PrefixStep(steps, i, s0);
    AttachReady(o, steps, i, lm, start, bodies, s0, lights0);
    ColorProgressSkip(steps, i, start);
    AttachPhysicsWithArgsCall(o, steps, i, start, pose, s0, bodies);
  }

  /** The AddComponentWithArgs call of step i, seen from the object and the physics components. */
  method AttachPhysicsWithArgsCall(o: GameObject, steps: seq<SetupStep>, i: nat,
                 ghost start: seq<StepStart>, ghost pose: Pose, ghost s0: Vec3, ghost bodies: seq<ActorState>)
    requires Plan(steps, start) && |bodies| == |steps| && i < |steps| && steps[i].AttachWithArgs? && steps[i].c.physics != null
    requires PhysicsProgress(steps, i, start, bodies)
    requires o.Valid() && steps[i].c.owner == null && WellFormed(steps[i].c)
    requires PhysicsComponents.InitPose(o.xf) == pose && o.xf.scale == ScaleAfter(steps[..i], s0)
    modifies o, steps[i].c, steps[i].c.physics, steps[i].c.physics.body
    ensures o.Valid() && o.components == old(o.components) + [steps[i].c] && steps[i].c.owner == o
    ensures PhysicsProgress(steps, i + 1, start, NextBodies(o, steps, i, start, pose, s0, bodies))
  {
    ghost var now := Starts(steps);
    SnapshotProgress(steps, i, start, bodies);
    ghost var p := steps[i].c.physics;
    ghost var st := if p.body != null then p.body.state else NewActorState(IdentityPose);
    var _ := o.AddComponentWithArgs(steps[i].c);
    AttachBody(o, steps, i, start, pose, s0, p, o.xf, st);
    PhysicsProgressAt(o, steps, i, start, now, pose, s0, bodies, i);
  }

  /** setScale: only the object's scale changes. */
  method ScaleStep(o: GameObject, steps: seq<SetupStep>, i: nat, lm: Lights.LightManager,
                   ghost start: seq<StepStart>, ghost pose: Pose, ghost s0: Vec3, ghost lights0: seq<Lights.Light>,
                   ghost bodies: seq<ActorState>)
    requires Plan(steps, start) && SetupInvariant(o, steps, i, lm, start, bodies, s0, lights0) && i < |steps| && steps[i].ScaleTo?
    modifies o.xf
    ensures SetupInvariant(o, steps, i + 1, lm, start, NextBodies(o, steps, i, start, pose, s0, bodies), s0, lights0)
    ensures o.xf.position == old(o.xf.position) && o.xf.rotation == old(o.xf.rotation)
    ensures o.xf.rotationQuat == old(o.xf.rotationQuat)
  {
    PrefixStep(steps, i, s0);
    o.SetScale(steps[i].s);
    PhysicsProgressSkip(o, steps, i, start, pose, s0, bodies);
    ColorProgressSkip(steps, i, start);
  }

  /** setMass on an attached physics component; a dynamic one's body records it. */
  method MassStep(o: GameObject, steps: seq<SetupStep>, i: nat, lm: Lights.LightManager,
                  ghost start: seq<StepStart>, ghost pose: Pose, ghost s0: Vec3, ghost lights0: seq<Lights.Light>,
                  ghost bodies: seq<ActorState>)
    requires Plan(steps, start) && SetupInvariant(o, steps, i, lm, start, bodies, s0, lights0) && i < |steps| && steps[i].SetMassTo?
    modifies steps[i].c.physics, steps[i].c.physics.body
    ensures SetupInvariant(o, steps, i + 1, lm, start, NextBodies(o, steps, i, start, pose, s0, bodies), s0, lights0)
  {
    PrefixStep(steps, i, s0);
    SetMassPhysics(o, steps, i, start, pose, s0, bodies);
    ColorProgressSkip(steps, i, start);
  }

  /** The setMass of step i, seen from the physics components: their progress moves on by that step. */
  method SetMassPhysics(o: object, steps: seq<SetupStep>, i: nat,
                        ghost start: seq<StepStart>, ghost pose: Pose, ghost s0: Vec3, ghost bodies: seq<ActorState>)
    requires Plan(steps, start) && |bodies| == |steps| && i < |steps| && steps[i].SetMassTo?
    requires PhysicsProgress(steps, i, start, bodies)
    modifies steps[i].c.physics, steps[i].c.physics.body
    ensures PhysicsProgress(steps, i + 1, start, NextBodies(o, steps, i, start, pose, s0, bodies))
  {
    var c := steps[i].c;
    ghost var k :| 0 <= k < |steps| && Attaches(steps[k]) && steps[k].c == c;
    assert MassIsSet(steps, c) by {
      assert steps[i].SetMassTo? && steps[i].c == c;
    }
    ghost var now := Starts(steps);
    SnapshotProgress(steps, i, start, bodies);
    MassBodyStep(o, steps, i, k, start[k], pose, s0, now[k].state);
    c.physics.SetMass(steps[i].m);
    PhysicsProgressAt(o, steps, i, start, now, pose, s0, bodies, k);
  }

  /** setColor on a render component. */
  method ColorStep(o: GameObject, steps: seq<SetupStep>, i: nat, lm: Lights.LightManager,
                   ghost start: seq<StepStart>, ghost pose: Pose, ghost s0: Vec3, ghost lights0: seq<Lights.Light>,
                   ghost bodies: seq<ActorState>)
    requires Plan(steps, start) && SetupInvariant(o, steps, i, lm, start, bodies, s0, lights0) && i < |steps| && steps[i].SetColorTo?
    modifies steps[i].r
    ensures SetupInvariant(o, steps, i + 1, lm, start, NextBodies(o, steps, i, start, pose, s0, bodies), s0, lights0)
  {
    PrefixStep(steps, i, s0);
    PhysicsProgressSkip(o, steps, i, start, pose, s0, bodies);
    SetColorCall(steps, i, start);
  }

  /** The setColor of step i, seen from the render components: their progress moves on by that step. */
  method SetColorCall(steps: seq<SetupStep>, i: nat, ghost start: seq<StepStart>)
    requires |start| == |steps| && i < |steps| && steps[i].SetColorTo? && ColorProgress(steps, i, start)
    modifies steps[i].r
    ensures ColorProgress(steps, i + 1, start)
  {
    ColorAfterStep(steps, i, start);
    steps[i].r.SetColor4(steps[i].color);
  }

  /** LightManager::addLight: the light is appended to the manager's list. */
  method LightStep(o: GameObject, steps: seq<SetupStep>, i: nat, lm: Lights.LightManager,
                   ghost start: seq<StepStart>, ghost pose: Pose, ghost s0: Vec3, ghost lights0: seq<Lights.Light>,
                   ghost bodies: seq<ActorState>)
    requires Plan(steps, start) && SetupInvariant(o, steps, i, lm, start, bodies, s0, lights0) && i < |steps| && steps[i].RegisterLight?
    modifies lm
    ensures SetupInvariant(o, steps, i + 1, lm, start, NextBodies(o, steps, i, start, pose, s0, bodies), s0, lights0)
  {
    PrefixStep(steps, i, s0);
    lm.AddLight(steps[i].l);
    PhysicsProgressSkip(o, steps, i, start, pose, s0, bodies);
    ColorProgressSkip(steps, i, start);
  }

  /** Step i of a setup run, whichever engine call it is. */
  method SetupStepAt(o: GameObject, steps: seq<SetupStep>, i: nat, lm: Lights.LightManager,
                     ghost start: seq<StepStart>, ghost pose: Pose, ghost s0: Vec3, ghost lights0: seq<Lights.Light>,
                     ghost bodies: seq<ActorState>)
    requires Plan(steps, start) && SetupInvariant(o, steps, i, lm, start, bodies, s0, lights0) && i < |steps|
    requires PhysicsComponents.InitPose(o.xf) == pose
    modifies o, o.xf, lm, StepFrame(steps[i])
    ensures SetupInvariant(o, steps, i + 1, lm, start, NextBodies(o, steps, i, start, pose, s0, bodies), s0, lights0)
    ensures o.xf.position == old(o.xf.position) && o.xf.rotation == old(o.xf.rotation)
    ensures o.xf.rotationQuat == old(o.xf.rotationQuat)
  {
    match steps[i] {
      case Attach(c) =>
        if c.physics == null {
          AttachStep(o, steps, i, lm, start, pose, s0, lights0, bodies);
        } else {
          AttachPhysicsStep(o, steps, i, lm, start, pose, s0, lights0, bodies);
        }
      case AttachWithArgs(c) =>
        if c.physics == null {
          AttachWithArgsStep(o, steps, i, lm, start, pose, s0, lights0, bodies);
        } else {
          AttachPhysicsWithArgsStep(o, steps, i, lm, start, pose, s0, lights0, bodies);
        }
      case ScaleTo(_) => ScaleStep(o, steps, i, lm, start, pose, s0, lights0, bodies);
      case SetMassTo(_, _) => MassStep(o, steps, i, lm, start, pose, s0, lights0, bodies);
      case SetColorTo(_, _) => ColorStep(o, steps, i, lm, start, pose, s0, lights0, bodies);
      case RegisterLight(_) => LightStep(o, steps, i, lm, start, pose, s0, lights0, bodies);
    }
  }

  /** Everything a setup may change besides the object, its transform and the light manager. */
  function SetupFrame(steps: seq<SetupStep>): set<object?>
    reads set j | 0 <= j < |steps| && Attaches(steps[j]) && steps[j].c.physics != null :: steps[j].c.physics
  {
    (set j | 0 <= j < |steps| && Attaches(steps[j]) :: steps[j].c as object?)
    + (set j | 0 <= j < |steps| && Attaches(steps[j]) && steps[j].c.physics != null :: steps[j].c.physics as object?)
    + (set j | 0 <= j < |steps| && Attaches(steps[j]) && steps[j].c.physics != null :: steps[j].c.physics.body as object?)
    + (set j | 0 <= j < |steps| && steps[j].SetColorTo? :: steps[j].r as object?)
  }

  /** A setup touches components, their physics state and bodies, never a scene or the prefab manager. */
  lemma OutsideSetup(steps: seq<SetupStep>, scene: Scene, manager: PrefabManager)
    ensures scene !in SetupFrame(steps) && scene.physicsScene !in SetupFrame(steps)
    ensures manager !in SetupFrame(steps)
  {
  }

  /**
   * One run of a setup callback on a fresh object: its components are
   * attached in order, each init seeing the transform as it is then; the
   * object's scale is the last one set; each physics component records the
   * last mass set on it, and its body, if it has one, is in the state
   * BodyAfter gives; each render component has the last color set on it;
   * the lights are registered in order.
   */
  method RunSetup(o: GameObject, steps: seq<SetupStep>, lm: Lights.LightManager)
    requires SetupWellFormed(steps) && o.Valid() && o.components == []
    modifies o, o.xf, lm, SetupFrame(steps)
    ensures o.components == Attached(steps) && o.Valid()
    ensures o.xf.position == old(o.xf.position) && o.xf.rotation == old(o.xf.rotation)
    ensures o.xf.rotationQuat == old(o.xf.rotationQuat)
    ensures o.xf.scale == ScaleAfter(steps, old(o.xf.scale))
    ensures lm.lights == old(lm.lights) + LightsAdded(steps)
    ensures forall j :: 0 <= j < |steps| && Attaches(steps[j]) && steps[j].c.physics != null ==>
      var p := steps[j].c.physics;
      && p.body == old(p.body) && p.isDynamic == old(p.isDynamic)
      && p.mass == MassAfter(steps, steps[j].c, old(p.mass))
      && (p.body != null ==>
            p.body.state == BodyAfter(o, steps, |steps|, j, old(StartOf(steps[j])), old(PhysicsComponents.InitPose(o.xf)), old(o.xf.scale)))
    ensures forall j :: 0 <= j < |steps| && steps[j].SetColorTo? ==>
      steps[j].r.color == ColorAfter(steps, steps[j].r, old(steps[j].r.color))
  {
    ghost var start := Starts(steps);
    ghost var bodies := RunSteps(o, steps, lm, start, PhysicsComponents.InitPose(o.xf), o.xf.scale, lm.lights);
    assert steps[..|steps|] == steps;
  }

  /** The loop of a setup run: every step in order, from the state the invariant describes at 0. */
  method RunSteps(o: GameObject, steps: seq<SetupStep>, lm: Lights.LightManager,
                  ghost start: seq<StepStart>, ghost pose: Pose, ghost s0: Vec3, ghost lights0: seq<Lights.Light>)
    returns (ghost bodies: seq<ActorState>)
    requires Plan(steps, start) && SetupInvariant(o, steps, 0, lm, start, BodiesAfter(o, steps, 0, start, pose, s0), s0, lights0)
    requires PhysicsComponents.InitPose(o.xf) == pose
    modifies o, o.xf, lm, SetupFrame(steps)
    ensures bodies == BodiesAfter(o, steps, |steps|, start, pose, s0)
    ensures SetupInvariant(o, steps, |steps|, lm, start, bodies, s0, lights0)
    ensures o.xf.position == old(o.xf.position) && o.xf.rotation == old(o.xf.rotation)
    ensures o.xf.rotationQuat == old(o.xf.rotationQuat)
  {
    var i := 0;
    bodies := BodiesAfter(o, steps, 0, start, pose, s0);
    while i < |steps|
      invariant Plan(steps, start) && SetupInvariant(o, steps, i, lm, start, bodies, s0, lights0)
      invariant bodies == BodiesAfter(o, steps, i, start, pose, s0)
      invariant PhysicsComponents.InitPose(o.xf) == pose
      invariant o.xf.position == old(o.xf.position) && o.xf.rotation == old(o.xf.rotation)
      invariant o.xf.rotationQuat == old(o.xf.rotationQuat)
    {
      SetupStepAt(o, steps, i, lm, start, pose, s0, lights0, bodies);
      BodiesAfterNext(o, steps, i, start, pose, s0);
      bodies := NextBodies(o, steps, i, start, pose, s0, bodies);
      i := i + 1;
    }
  }

  /**
   * The fresh object instantiate creates, before its setup: named after the
   * prefab, placed at the spawn position, rotated and scaled by the
   * definition's defaults, with no components yet.
   */
  method Placed(name: string, def: PrefabRecord, position: Vec3) returns (o: GameObject)
    ensures fresh(o) && fresh(o.xf) && o.name == name && o.Valid() && o.components == []
    ensures o.xf.position == SpawnPosition(position, def.defaultPosition)
    ensures o.xf.rotation == def.defaultRotation && o.xf.EulerSynced()
    ensures o.xf.scale == def.defaultScale
  {
    o := new GameObject.Named(name);
    assert o.FirstBody() == {};
    o.SetPosition(SpawnPosition(position, def.defaultPosition), true);
    o.SetRotation(def.defaultRotation, true);
    o.SetScale(def.defaultScale);
  }

  /** The pose init gives the bodies of a spawned object: the spawn position, the default rotation. */
  function SpawnPose(def: PrefabRecord, position: Vec3): Pose
  {
    Pose(SpawnPosition(position, def.defaultPosition), EulerXYZ(def.defaultRotation))
  }

  /**
   * The object instantiate builds before adding it to the scene: named after
   * the prefab, placed, rotated and scaled from the definition, then handed
   * to the setup run, whose steps see (and may override) that transform.
   */
  method Spawn(name: string, def: PrefabRecord, position: Vec3, steps: seq<SetupStep>, lm: Lights.LightManager)
    returns (o: GameObject)
    requires SetupWellFormed(steps) && FirstPhysicsHasBody(steps)
    modifies lm, SetupFrame(steps)
    ensures fresh(o) && fresh(o.xf) && o.name == name && o.Valid()
    ensures o.xf.position == SpawnPosition(position, def.defaultPosition)
    ensures o.xf.rotation == def.defaultRotation && o.xf.EulerSynced()
    ensures o.xf.scale == ScaleAfter(steps, def.defaultScale)
    ensures o.components == Attached(steps)
    ensures lm.lights == old(lm.lights) + LightsAdded(steps)
    ensures o.GetComponent(PhysicsComponent).Some? ==> o.FirstPhysics().body != null
    ensures forall j :: 0 <= j < |steps| && Attaches(steps[j]) && steps[j].c.physics != null ==>
      var p := steps[j].c.physics;
      && p.body == old(p.body) && p.isDynamic == old(p.isDynamic)
      && p.mass == MassAfter(steps, steps[j].c, old(p.mass))
      && (p.body != null ==>
            p.body.state == BodyAfter(o, steps, |steps|, j, old(StartOf(steps[j])), SpawnPose(def, position), def.defaultScale))
    ensures forall j :: 0 <= j < |steps| && steps[j].SetColorTo? ==>
      steps[j].r.color == ColorAfter(steps, steps[j].r, old(steps[j].r.color))
  {
    o := Placed(name, def, position);
    assert PhysicsComponents.InitPose(o.xf) == SpawnPose(def, position);
    RunSetup(o, steps, lm);
    if o.GetComponent(PhysicsComponent).Some? {
      var first := o.GetComponent(PhysicsComponent).value;
      AttachedMembers(steps);
      assert first in Attached(steps);
    }
  }

  class PrefabManager {
    var prefabs: map<string, PrefabRecord>

    constructor ()
      ensures prefabs == map[]
    {
      prefabs := map[];
    }

    /** registerPrefab: stored under its name, replacing an earlier one of that name. */
    method RegisterPrefab(def: PrefabDefinition)
      modifies this
      ensures prefabs == old(prefabs)[def.name := def.Record()]
    {
      prefabs := prefabs[def.name := def.Record()];
    }

    function HasPrefab(name: string): (b: bool)
      reads this
      ensures b <==> name in prefabs
    {
      name in prefabs
    }

    /**
     * instantiate(name, scene, position): an unknown name yields null and
     * changes nothing. Otherwise a fresh object named after the prefab gets
     * its spawn position, the default rotation and scale, then the setup
     * run attaches its components, and finally the object is added to the
     * scene once (registering its first physics actor, if any).
     */
    method Instantiate(name: string, scene: Scene, position: Vec3, steps: seq<SetupStep>, lm: Lights.LightManager)
      returns (o: GameObject?)
      requires SetupWellFormed(steps) && FirstPhysicsHasBody(steps)
      modifies scene, scene.physicsScene, lm, SetupFrame(steps)
      ensures scene.camera == old(scene.camera) && scene.cubemap == old(scene.cubemap)
      ensures scene.physicsScene.steps == old(scene.physicsScene.steps)
      ensures name !in prefabs ==> o == null
      ensures name !in prefabs ==>
        scene.gameObjects == old(scene.gameObjects) && scene.physicsScene.actors == old(scene.physicsScene.actors)
      ensures name !in prefabs ==> unchanged(lm) && unchanged(old(SetupFrame(steps)) - {null})
      ensures name in prefabs ==> o != null && fresh(o) && o.name == name
      ensures name in prefabs ==>
        var def := prefabs[name];
        && o.xf.position == SpawnPosition(position, def.defaultPosition)
        && o.xf.rotation == def.defaultRotation && o.xf.EulerSynced()
        && o.xf.scale == ScaleAfter(steps, def.defaultScale)
      ensures name in prefabs ==> o.components == Attached(steps) && o.Valid()
      ensures name in prefabs ==> lm.lights == old(lm.lights) + LightsAdded(steps)
      ensures name in prefabs ==> scene.gameObjects == old(scene.gameObjects) + [o]
      ensures name in prefabs && o.GetComponent(PhysicsComponent).None? ==>
        scene.physicsScene.actors == old(scene.physicsScene.actors)
      ensures name in prefabs && o.GetComponent(PhysicsComponent).Some? ==>
        scene.physicsScene.actors == old(scene.physicsScene.actors) + [o.FirstPhysics().body]
      ensures name in prefabs ==>
        forall j :: 0 <= j < |steps| && Attaches(steps[j]) && steps[j].c.physics != null ==>
          var p := steps[j].c.physics;
          && p.body == old(p.body) && p.isDynamic == old(p.isDynamic)
          && p.mass == MassAfter(steps, steps[j].c, old(p.mass))
          && (p.body != null ==>
                p.body.state == BodyAfter(o, steps, |steps|, j, old(StartOf(steps[j])), SpawnPose(prefabs[name], position),
                                          prefabs[name].defaultScale))
      ensures name in prefabs ==>
        forall j :: 0 <= j < |steps| && steps[j].SetColorTo? ==>
          steps[j].r.color == ColorAfter(steps, steps[j].r, old(steps[j].r.color))
    {
      if !HasPrefab(name) {
        return null;
      }
      OutsideSetup(steps, scene, this);
      var spawned := Spawn(name, prefabs[name], position, steps, lm);
      scene.AddGameObject(spawned);
      o := spawned;
    }
  }

  /** s with every occurrence of x removed, the others in their order. */
  function Without<T(==)>(s: seq<T>, x: T): (r: seq<T>)
    ensures x !in r
    ensures forall y | y in r :: y in s
    ensures forall y | y in s && y != x :: y in r
    ensures x !in s ==> r == s
    ensures |r| <= |s|
  {
    if s == [] then []
    else if s[0] == x then Without(s[1..], x)
    else [s[0]] + Without(s[1..], x)
  }

  /** Without removes exactly the copies of x: every other element keeps its multiplicity. */
  lemma {:induction false} WithoutMultiset<T>(s: seq<T>, x: T)
    ensures multiset(Without(s, x)) == multiset(s)[x := 0]
  {
    if s != [] {
      WithoutMultiset(s[1..], x);
      assert s == [s[0]] + s[1..];
    }
  }

  /** Without keeps the relative order: its result is a subsequence of s. */
  lemma {:induction false} WithoutIsSubsequence<T>(s: seq<T>, x: T)
    ensures IsSubsequence(Without(s, x), s)
  {
    if s != [] {
      WithoutIsSubsequence(s[1..], x);
      if s[0] != x {
        assert Without(s, x)[1..] == Without(s[1..], x);
      }
    }
  }

  /** The child/parent bookkeeping a composite prefab object adds to a game object. */
  class Prefab {
    var children: seq<GameObject>
    var parent: GameObject?

    constructor ()
      ensures children == [] && parent == null
    {
      children := [];
      parent := null;
    }

    /** addChild: appended at the end, duplicates allowed. */
    method AddChild(child: GameObject)
      modifies this
      ensures children == old(children) + [child] && parent == old(parent)
    {
      children := children + [child];
    }

    /** removeChild: erase-remove of every occurrence; the rest keep their order. */
    method RemoveChild(child: GameObject)
      modifies this
      ensures children == Without(old(children), child) && parent == old(parent)
    {
      children := Without(children, child);
    }

    method SetParent(p: GameObject?)
      modifies this
      ensures parent == p && children == old(children)
    {
      parent := p;
    }

    function GetParent(): (p: GameObject?)
      reads this
      ensures p == parent
    {
      parent
    }

    /** getChildren returns the list by value. */
    function GetChildren(): (cs: seq<GameObject>)
      reads this
      ensures cs == children
    {
      children
    }
  }
}
