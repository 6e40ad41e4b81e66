/**
 * The entity/component runtime: components with a dynamic type, game
 * objects that own an ordered component list and look components up by
 * type (CLC/CORE/GameObject.hpp, CLC/CORE/GameObject.cpp).
 *
 * A component's C++ dynamic type is the tag `kind`; `IsA` is the subtype
 * relation dynamic_pointer_cast tests. The virtual calls a game object makes
 * into its components (init, update, draw) are returned as a trace of
 * calls; what each component does on those calls is modelled with that
 * component (PhysicsSync, Lights, SphereRenderers, ...).
 */
module Entities {
  import opened Glm
  import opened Transforms
  import opened PhysX
  import opened PhysicsComponents
  import opened Cameras
  import opened Sequences

  /** The component classes of the engine. */
  datatype Kind =
    | BaseComponent
    | RenderComponent | CubeRenderer | SphereRenderer | ModelRenderer | CubeMap
    | PhysicsComponent | CubePhysics | SpherePhysics
    | LightComponent
    | CameraComponent | CameraMCComponent

  /** The direct base class of each component class. */
  function Parent(k: Kind): Option<Kind>
  {
    match k
    case BaseComponent => None
    case RenderComponent | PhysicsComponent | LightComponent | CameraComponent => Some(BaseComponent)
    case CubeRenderer | SphereRenderer | ModelRenderer | CubeMap => Some(RenderComponent)
    case CubePhysics | SpherePhysics => Some(PhysicsComponent)
    case CameraMCComponent => Some(CameraComponent)
  }

  function Depth(k: Kind): nat
  {
    match Parent(k)
    case None => 0
    case Some(p) => 1 + match Parent(p) case None => 0 case Some(_) => 1
  }

  /** k is t or derives from t: what dynamic_pointer_cast<t> accepts. */
  predicate IsA(k: Kind, t: Kind)
    decreases Depth(k)
  {
    k == t || (Parent(k).Some? && Depth(Parent(k).value) < Depth(k) && IsA(Parent(k).value, t))
  }

  /** Every component is a Component; a chain of bases composes. */
  lemma {:induction false} IsATransitive(a: Kind, b: Kind, c: Kind)
    requires IsA(a, b) && IsA(b, c)
    ensures IsA(a, c)
    decreases Depth(a)
  {
    if a != b {
      IsATransitive(Parent(a).value, b, c);
    }
  }

  lemma {:induction false} EveryKindIsAComponent(k: Kind)
    ensures IsA(k, BaseComponent)
    decreases Depth(k)
  {
    if k != BaseComponent {
      EveryKindIsAComponent(Parent(k).value);
    }
  }

  /** Sibling classes never match each other: a sphere renderer is no physics component. */
  lemma RenderIsNotPhysics(k: Kind)
    requires IsA(k, RenderComponent)
    ensures !IsA(k, PhysicsComponent)
  {
  }

  class Component {
    const kind: Kind
    /** The physics state, present exactly for physics components. */
    const physics: PhysicsComponents.PhysicsComponent?
    var owner: GameObject?

    constructor (kind: Kind, physics: PhysicsComponents.PhysicsComponent?)
      requires physics != null <==> IsA(kind, PhysicsComponent)
      ensures this.kind == kind && this.physics == physics && owner == null
    {
      this.kind := kind;
      this.physics := physics;
      owner := null;
    }
  }

  predicate WellFormed(c: Component)
  {
    c.physics != null <==> IsA(c.kind, PhysicsComponent)
  }

  /** The calls a game object makes into its components, in order. */
  datatype Call =
    | Init(component: Component, ownerAtCall: GameObject?)
    | UserDataSet(component: Component, data: GameObject)
    | UpdateCall(component: Component, dt: real)
    | DrawMatrices(component: Component, view: Mat4, projection: Mat4)
    | DrawWithCamera(component: Component, camera: Camera?)

  /** The index of the first component whose type is t or derives from t. */
  function FirstMatch(cs: seq<Component>, t: Kind): (r: Option<nat>)
    ensures r.Some? ==> r.value < |cs| && IsA(cs[r.value].kind, t)
    ensures r.Some? ==> forall j :: 0 <= j < r.value ==> !IsA(cs[j].kind, t)
    ensures r.None? ==> forall j :: 0 <= j < |cs| ==> !IsA(cs[j].kind, t)
  {
    if |cs| == 0 then None
    else if IsA(cs[0].kind, t) then Some(0)
    else match FirstMatch(cs[1..], t)
      case None => None
      case Some(i) => Some(i + 1)
  }

  /**
   * Add-then-get: after appending c, the lookup still finds the earlier
   * match if there was one, and finds c only when nothing earlier matched.
   */
  lemma {:induction false} FirstMatchAppend(cs: seq<Component>, c: Component, t: Kind)
    ensures FirstMatch(cs + [c], t) ==
      if FirstMatch(cs, t).Some? then FirstMatch(cs, t)
      else if IsA(c.kind, t) then Some(|cs|)
      else None
  {
    if |cs| == 0 {
      assert cs + [c] == [c];
    } else {
      assert (cs + [c])[1..] == cs[1..] + [c];
      FirstMatchAppend(cs[1..], c, t);
    }
  }

  /**
   * The body state component->init() leaves behind. CubePhysics::init adds
   * a box of half extents 0.5 * scale; SpherePhysics::init replaces every
   * shape by one sphere of radius max(scale). Both then move the body to the
   * owner's pose and, when dynamic, recompute mass and inertia. Without a
   * material, and for every other kind, the body is untouched.
   */
  function AfterInit(k: Kind, p: PhysicsComponents.PhysicsComponent, st: ActorState, owner: Transform): (r: ActorState)
    reads p, owner
    ensures r.userData == st.userData && r.forces == st.forces && r.torques == st.torques
    ensures r.linearVelocity == st.linearVelocity && r.angularVelocity == st.angularVelocity && r.wakeUps == st.wakeUps
    ensures (k == CubePhysics || k == SpherePhysics) && p.hasMaterial ==> r.pose == InitPose(owner)
    ensures !(k == CubePhysics || k == SpherePhysics) || !p.hasMaterial ==> r == st
  {
    InitEffect(k, p.hasMaterial, p.isDynamic, p.mass, InitPose(owner), owner.scale, st)
  }

  /** AfterInit on values: the component's material, type and mass, and the owner's pose and scale. */
  function InitEffect(k: Kind, hasMaterial: bool, isDynamic: bool, mass: real, pose: Pose, scale: Vec3, st: ActorState): ActorState
  {
    var massUpdates := st.massUpdates + (if isDynamic then [mass] else []);
    if !hasMaterial then st
    else if k == CubePhysics then
      st.(shapes := st.shapes + [Shape(CubeGeometry(scale), IdentityPose)], pose := pose, massUpdates := massUpdates)
    else if k == SpherePhysics then
      st.(shapes := [Shape(SphereGeometryFor(scale), IdentityPose)], pose := pose, massUpdates := massUpdates)
    else st
  }

  /** The objects init() may change: the physics component and its body. */
  function InitFrame(c: Component): set<object?>
    reads if c.physics != null then {c.physics} else {}
  {
    if c.physics != null then {c.physics, c.physics.body} else {}
  }

  class GameObject {
    /** The Transform base-class part of the object. */
    const xf: Transform
    const name: string
    var components: seq<Component>

    /**
     * Every attached component is well formed and points back at this
     * object: addComponent sets the owner before anything else sees it.
     */
    ghost predicate Valid()
      reads this, set c | c in components
    {
      forall c | c in components :: WellFormed(c) && c.owner == this
    }

    /** GameObject(): an unnamed object at the default transform. */
    constructor ()
      ensures name == "" && components == [] && Valid() && fresh(xf)
      ensures xf.position == Zero3 && xf.rotation == Zero3 && xf.scale == One3
    {
      xf := new Transform.Default();
      name := "";
      components := [];
    }

    /** GameObject(name). */
    constructor Named(name: string)
      ensures this.name == name && components == [] && Valid() && fresh(xf)
      ensures xf.position == Zero3 && xf.rotation == Zero3 && xf.scale == One3
    {
      xf := new Transform.Default();
      this.name := name;
      components := [];
    }

    function GetName(): (n: string)
      ensures n == name
    {
      name
    }

    /**
     * The first component, in attachment order, whose dynamic type is t or
     * a subtype of t; None (a null pointer) when none matches.
     */
    function GetComponent(t: Kind): (r: Option<Component>)
      reads this
      ensures r.Some? ==> r.value in components && IsA(r.value.kind, t)
      ensures r.None? <==> forall c | c in components :: !IsA(c.kind, t)
      ensures FirstMatch(components, t).Some? ==> r == Some(components[FirstMatch(components, t).value])
    {
      match FirstMatch(components, t)
      case None => None
      case Some(i) => Some(components[i])
    }

    /**
     * The effect of component->init() on a physics component, with the
     * owner's transform as it is now. Other kinds' init is outside this
     * model and appears only as the Init call.
     */
    method InitPhysics(c: Component)
      requires WellFormed(c) && (c.physics != null ==> c.physics.Valid())
      modifies InitFrame(c)
      ensures c.physics != null ==> c.physics.Valid() && c.physics.body == old(c.physics.body)
      ensures c.physics != null ==> c.physics.mass == old(c.physics.mass) && c.physics.isDynamic == old(c.physics.isDynamic)
      ensures c.physics != null ==> c.physics.hasMaterial == old(c.physics.hasMaterial)
      ensures c.physics != null && c.physics.body != null ==>
        c.physics.body.state == AfterInit(c.kind, c.physics, old(c.physics.body.state), xf)
    {
      if c.physics != null {
        if c.kind == CubePhysics {
          c.physics.CubeInit(xf);
        } else if c.kind == SpherePhysics {
          c.physics.SphereInit(xf);
        }
      }
    }

    /**
     * addComponent<T>(): the owner is set, the component is appended, and
     * init is called once, with the owner already in place.
     */
    method AddComponent(c: Component) returns (calls: seq<Call>)
      requires Valid() && WellFormed(c) && c.owner == null
      requires c.physics != null ==> c.physics.Valid()
      modifies this, c, InitFrame(c)
      ensures Valid()
      ensures components == old(components) + [c]
      ensures c.owner == this
      ensures calls == [Init(c, this)]
      ensures c.physics != null ==> c.physics.Valid() && c.physics.body == old(c.physics.body)
      ensures c.physics != null ==> c.physics.mass == old(c.physics.mass) && c.physics.isDynamic == old(c.physics.isDynamic)
      ensures c.physics != null ==> c.physics.hasMaterial == old(c.physics.hasMaterial)
      ensures c.physics != null && c.physics.body != null ==>
        c.physics.body.state == AfterInit(c.kind, c.physics, old(c.physics.body.state), xf)
      ensures c.physics != null && c.physics.body != null ==>
        c.physics.body.state.userData == old(c.physics.body.state.userData)
    {
      c.owner := this;
      components := components + [c];
      calls := [Init(c, c.owner)];
      InitPhysics(c);
    }

    /**
     * addComponent<T>(args...): as AddComponent, and then, after init, a
     * physics component gets this object as its body's user data.
     */
    method AddComponentWithArgs(c: Component) returns (calls: seq<Call>)
      requires Valid() && WellFormed(c) && c.owner == null
      requires c.physics != null ==> c.physics.Valid() && c.physics.body != null
      modifies this, c, InitFrame(c)
      ensures Valid()
      ensures components == old(components) + [c]
      ensures c.owner == this
      ensures calls == [Init(c, this)] + (if IsA(c.kind, PhysicsComponent) then [UserDataSet(c, this)] else [])
      ensures c.physics != null ==> c.physics.Valid() && c.physics.body == old(c.physics.body)
      ensures c.physics != null ==> c.physics.mass == old(c.physics.mass) && c.physics.isDynamic == old(c.physics.isDynamic)
      ensures c.physics != null ==> c.physics.hasMaterial == old(c.physics.hasMaterial)
      ensures c.physics != null ==>
        c.physics.body.state == AfterInit(c.kind, c.physics, old(c.physics.body.state), xf).(userData := this)
      ensures c.physics != null ==> c.physics.body.state.userData == this
    {
      c.owner := this;
      components := components + [c];
      calls := [Init(c, c.owner)];
      InitPhysics(c);
      if c.physics != null {
        c.physics.SetUserData(this);
        calls := calls + [UserDataSet(c, this)];
      }
    }

    /** update(dt): every component is updated exactly once, in attachment order. */
    method Update(dt: real) returns (calls: seq<Call>)
      ensures |calls| == |components|
      ensures forall i :: 0 <= i < |components| ==> calls[i] == UpdateCall(components[i], dt)
    {
      calls := [];
      var i := 0;
      while i < |components|
        invariant 0 <= i <= |components|
        invariant |calls| == i
        invariant forall j :: 0 <= j < i ==> calls[j] == UpdateCall(components[j], dt)
      {
        calls := calls + [UpdateCall(components[i], dt)];
        i := i + 1;
      }
    }

    /** render(view, projection): drawn through the first render component only, if any. */
    method RenderMatrices(view: Mat4, projection: Mat4) returns (calls: seq<Call>)
      ensures GetComponent(RenderComponent).None? ==> calls == []
      ensures GetComponent(RenderComponent).Some? ==> calls == [DrawMatrices(GetComponent(RenderComponent).value, view, projection)]
    {
      calls := [];
      var rc := GetComponent(RenderComponent);
      if rc.Some? {
        calls := [DrawMatrices(rc.value, view, projection)];
      }
    }

    /** render(camera): the same first-match-or-nothing rule. */
    method RenderWithCamera(camera: Camera?) returns (calls: seq<Call>)
      ensures GetComponent(RenderComponent).None? ==> calls == []
      ensures GetComponent(RenderComponent).Some? ==> calls == [DrawWithCamera(GetComponent(RenderComponent).value, camera)]
    {
      calls := [];
      var rc := GetComponent(RenderComponent);
      if rc.Some? {
        calls := [DrawWithCamera(rc.value, camera)];
      }
    }

    /** The physics state of the first physics component, if there is one. */
    function FirstPhysics(): (p: PhysicsComponents.PhysicsComponent?)
      requires Valid()
      reads this, set c | c in components
      ensures p != null <==> GetComponent(PhysicsComponent).Some?
      ensures p != null ==> p == GetComponent(PhysicsComponent).value.physics
    {
      match GetComponent(PhysicsComponent)
      case None => null
      case Some(c) => c.physics
    }

    /** The body of the first physics component, as a frame. */
    function FirstBody(): set<object>
      requires Valid()
      reads this, set c | c in components, if FirstPhysics() != null then {FirstPhysics()} else {}
    {
      var p := FirstPhysics();
      if p != null && p.body != null then {p.body} else {}
    }

    /**
     * setPosition(position, update_physx): writes the transform and, with
     * update_physx, forwards the position to the first physics component,
     * whose body then gets a translation-only pose. The one definition has
     * no flag and always forwards: that is SetPosition(p, true).
     */
    method SetPosition(p: Vec3, updatePhysx: bool)
      requires Valid()
      modifies xf, if updatePhysx then FirstBody() else {}
      ensures xf.position == p
      ensures xf.rotation == old(xf.rotation) && xf.rotationQuat == old(xf.rotationQuat) && xf.scale == old(xf.scale)
      ensures components == old(components)
      ensures updatePhysx && FirstPhysics() != null && FirstPhysics().body != null ==>
        FirstPhysics().body.state == old(FirstPhysics().body.state).(pose := Pose(p, IdentityQuat))
    {
      xf.SetPosition(p);
      if updatePhysx {
        var pc := FirstPhysics();
        if pc != null {
          pc.SetPosition(p);
        }
      }
    }

    /**
     * setRotation(rotation, update_physx): writes the Euler angles (and the
     * quaternion); only with update_physx is the absolute orientation
     * forwarded to the first physics component.
     */
    method SetRotation(r: Vec3, updatePhysx: bool)
      requires Valid()
      modifies xf, FirstBody()
      ensures xf.rotation == r && xf.EulerSynced()
      ensures xf.position == old(xf.position) && xf.scale == old(xf.scale)
      ensures components == old(components)
      ensures updatePhysx && FirstPhysics() != null && FirstPhysics().body != null ==>
        FirstPhysics().body.state == old(FirstPhysics().body.state).(pose := Pose(old(FirstPhysics().body.state.pose.p), EulerXYZ(r)))
      ensures !updatePhysx && FirstPhysics() != null && FirstPhysics().body != null ==>
        FirstPhysics().body.state == old(FirstPhysics().body.state)
    {
      xf.SetRotation(r);
      if updatePhysx {
        var pc := FirstPhysics();
        if pc != null {
          pc.SetRotation(r);
        }
      }
    }

    /**
     * setRotationQuaternion(rotation, update_physx): the quaternion is stored
     * as Transform::setRotationQuaternion does; with update_physx the
     * orientation is forwarded to the first physics body as setRotation
     * forwards it, keeping the body's position.
     */
    method SetRotationQuaternion(q: Quat, updatePhysx: bool)
      requires Valid()
      modifies xf, if updatePhysx then FirstBody() else {}
      ensures xf.rotationQuat == q && xf.rotation == Degrees(EulerAngles(q))
      ensures xf.position == old(xf.position) && xf.scale == old(xf.scale)
      ensures components == old(components)
      ensures updatePhysx && FirstPhysics() != null && FirstPhysics().body != null ==>
        FirstPhysics().body.state == old(FirstPhysics().body.state).(pose := Pose(old(FirstPhysics().body.state.pose.p), q))
    {
      xf.SetRotationQuaternion(q);
      if updatePhysx {
        var pc := FirstPhysics();
        if pc != null && pc.body != null {
          pc.body.state := pc.body.state.(pose := Pose(pc.body.state.pose.p, q));
        }
      }
    }

    /** setScale: the transform's scale; nothing else changes. */
    method SetScale(s: Vec3)
      modifies xf
      ensures xf.scale == s
      ensures xf.position == old(xf.position) && xf.rotation == old(xf.rotation) && xf.rotationQuat == old(xf.rotationQuat)
    {
      xf.SetScale(s);
    }
  }
}
