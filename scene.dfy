/**
 * The scene: an ordered list of game objects, the physics scene their
 * actors are registered with, the active camera and an optional cube map
 * (CLC/CORE/Scene.cpp, CLC/CORE/Scene.hpp).
 */
module Scenes {
  import opened Glm
  import opened PhysX
  import opened Entities
  import opened Cameras
  import opened Sequences

  /** What one scene update or render does, in order. */
  datatype Event =
    | CameraUpdate(dt: real)
    | PhysicsStep(dt: real)
    | ComponentCall(call: Call)
    | CubemapDraw(cubemap: Component, view: Mat4, projection: Mat4)

  function AsEvents(calls: seq<Call>): (es: seq<Event>)
    ensures |es| == |calls| && forall i :: 0 <= i < |calls| ==> es[i] == ComponentCall(calls[i])
  {
    if calls == [] then [] else AsEvents(calls[..|calls| - 1]) + [ComponentCall(calls[|calls| - 1])]
  }

  lemma {:induction false} AsEventsAppend(a: seq<Call>, b: seq<Call>)
    ensures AsEvents(a + b) == AsEvents(a) + AsEvents(b)
  {
    // Both sides have the same length and agree pointwise by AsEvents' contract.
    assert |AsEvents(a + b)| == |AsEvents(a) + AsEvents(b)|;
  }

  /** One update call per component, in attachment order. */
  function UpdatesOf(cs: seq<Component>, dt: real): (es: seq<Event>)
    ensures |es| == |cs|
  {
    seq(|cs|, i requires 0 <= i < |cs| => ComponentCall(UpdateCall(cs[i], dt)))
  }

  /** Each object's components updated in attachment order, objects in list order. */
  function ObjectUpdates(objs: seq<GameObject>, dt: real): seq<Event>
    reads objs
  {
    if objs == [] then []
    else ObjectUpdates(objs[..|objs| - 1], dt) + UpdatesOf(objs[|objs| - 1].components, dt)
  }

  /** Updating object i after the first i extends the trace by its components' update calls. */
  lemma UpdateStep(objs: seq<GameObject>, i: nat, dt: real, calls: seq<Call>)
    requires i < |objs|
    requires |calls| == |objs[i].components|
    requires forall j :: 0 <= j < |calls| ==> calls[j] == UpdateCall(objs[i].components[j], dt)
    ensures ObjectUpdates(objs[..i + 1], dt) == ObjectUpdates(objs[..i], dt) + AsEvents(calls)
  {
    assert objs[..i + 1][..i] == objs[..i];
    assert AsEvents(calls) == UpdatesOf(objs[i].components, dt);
  }

  /** The object loop of update(dt): every object in list order updates its components. */
  method UpdateObjects(objs: seq<GameObject>, dt: real) returns (trace: seq<Event>)
    ensures trace == ObjectUpdates(objs, dt)
  {
    trace := [];
    var i := 0;
    while i < |objs|
      invariant 0 <= i <= |objs|
      invariant trace == ObjectUpdates(objs[..i], dt)
    {
      var calls := objs[i].Update(dt);
      UpdateStep(objs, i, dt, calls);
      trace := trace + AsEvents(calls);
      i := i + 1;
    }
    assert objs[..i] == objs;
  }

  /** The draw call of the first render component, if the object has one. */
  function RenderOf(o: GameObject, camera: Camera?): (es: seq<Event>)
    reads o
    ensures |es| <= 1
    ensures |es| == 1 <==> o.GetComponent(RenderComponent).Some?
  {
    match o.GetComponent(RenderComponent)
    case None => []
    case Some(rc) => [ComponentCall(DrawWithCamera(rc, camera))]
  }

  lemma RenderEvents(o: GameObject, camera: Camera?, calls: seq<Call>)
    requires o.GetComponent(RenderComponent).None? ==> calls == []
    requires o.GetComponent(RenderComponent).Some? ==> calls == [DrawWithCamera(o.GetComponent(RenderComponent).value, camera)]
    ensures AsEvents(calls) == RenderOf(o, camera)
  {
    if calls != [] {
      assert AsEvents(calls)[0] == ComponentCall(calls[0]);
    }
  }

  /** Objects drawn in list order. */
  function ObjectRenders(objs: seq<GameObject>, camera: Camera?): (es: seq<Event>)
    reads objs
    ensures |es| <= |objs|
  {
    if objs == [] then []
    else ObjectRenders(objs[..|objs| - 1], camera) + RenderOf(objs[|objs| - 1], camera)
  }

  lemma ObjectRendersSnoc(objs: seq<GameObject>, i: nat, camera: Camera?)
    requires i < |objs|
    ensures ObjectRenders(objs[..i + 1], camera) == ObjectRenders(objs[..i], camera) + RenderOf(objs[i], camera)
  {
    assert objs[..i + 1][..i] == objs[..i];
  }

  /** Drawing object i after the first i extends the trace by that object's draw call, if any. */
  lemma RenderStep(objs: seq<GameObject>, i: nat, camera: Camera?, calls: seq<Call>)
    requires i < |objs|
    requires objs[i].GetComponent(RenderComponent).None? ==> calls == []
    requires objs[i].GetComponent(RenderComponent).Some? ==>
      calls == [DrawWithCamera(objs[i].GetComponent(RenderComponent).value, camera)]
    ensures ObjectRenders(objs[..i + 1], camera) == ObjectRenders(objs[..i], camera) + AsEvents(calls)
  {
    RenderEvents(objs[i], camera, calls);
    ObjectRendersSnoc(objs, i, camera);
  }

  /** The object loop of render(): every object in list order draws through the camera. */
  method RenderObjects(objs: seq<GameObject>, camera: Camera?) returns (draws: seq<Event>)
    ensures draws == ObjectRenders(objs, camera)
  {
    draws := [];
    var i := 0;
    while i < |objs|
      invariant 0 <= i <= |objs|
      invariant draws == ObjectRenders(objs[..i], camera)
    {
      var calls := objs[i].RenderWithCamera(camera);
      RenderStep(objs, i, camera, calls);
      draws := draws + AsEvents(calls);
      i := i + 1;
    }
    assert objs[..i] == objs;
  }

  /** The first occurrence of x removed, the rest in order; s itself when x is absent. */
  function RemoveFirst<T(==)>(s: seq<T>, x: T): (r: seq<T>)
    ensures x !in s ==> r == s
    ensures x in s ==> |r| == |s| - 1
  {
    if s == [] then []
    else if s[0] == x then s[1..]
    else [s[0]] + RemoveFirst(s[1..], x)
  }

  /** RemoveFirst deletes exactly one copy of x and keeps everything else. */
  lemma {:induction false} RemoveFirstMultiset<T>(s: seq<T>, x: T)
    ensures multiset(RemoveFirst(s, x)) == multiset(s) - multiset{x}
  {
    if s == [] {
    } else if s[0] == x {
      assert s == [s[0]] + s[1..];
    } else {
      RemoveFirstMultiset(s[1..], x);
      assert s == [s[0]] + s[1..];
    }
  }

  /** Removing the first occurrence at index i is cutting out s[i]. */
  lemma {:induction false} RemoveFirstAt<T>(s: seq<T>, x: T, i: nat)
    requires i < |s| && s[i] == x && x !in s[..i]
    ensures RemoveFirst(s, x) == s[..i] + s[i + 1..]
  {
    if i == 0 {
    } else {
      assert s[1..][..i - 1] == s[..i][1..];
      RemoveFirstAt(s[1..], x, i - 1);
      assert s[1..][i - 1 + 1..] == s[i + 1..];
    }
  }

  class Scene {
    var gameObjects: seq<GameObject>
    var camera: Camera?
    var cubemap: Component?
    const physicsScene: PhysX.PhysicsScene

    constructor ()
      ensures gameObjects == [] && camera == null && cubemap == null
      ensures fresh(physicsScene) && physicsScene.actors == [] && physicsScene.steps == []
    {
      gameObjects := [];
      camera := null;
      cubemap := null;
      physicsScene := new PhysX.PhysicsScene();
    }

    method SetCamera(c: Camera?)
      modifies this
      ensures camera == c && gameObjects == old(gameObjects) && cubemap == old(cubemap)
    {
      camera := c;
    }

    function GetCamera(): (c: Camera?)
      reads this
      ensures c == camera
    {
      camera
    }

    method SetCubemap(c: Component?)
      modifies this
      ensures cubemap == c && gameObjects == old(gameObjects) && camera == old(camera)
    {
      cubemap := c;
    }

    /**
     * update(dt): the camera, then one physics step, then every object in
     * list order (each updating its components in attachment order).
     */
    method Update(dt: real) returns (trace: seq<Event>)
      requires camera != null
      modifies physicsScene
      ensures physicsScene.steps == old(physicsScene.steps) + [dt]
      ensures physicsScene.actors == old(physicsScene.actors)
      ensures trace == [CameraUpdate(dt), PhysicsStep(dt)] + ObjectUpdates(gameObjects, dt)
    {
      trace := [CameraUpdate(dt)];
      physicsScene.Step(dt);
      trace := trace + [PhysicsStep(dt)];
      var updates := UpdateObjects(gameObjects, dt);
      trace := trace + updates;
    }

    /**
     * render(): the cube map first, if one is set, with the camera's
     * matrices; then every object in list order, through the camera.
     */
    method Render() returns (trace: seq<Event>)
      requires camera != null
      ensures trace ==
        (if cubemap != null then [CubemapDraw(cubemap, camera.view, camera.projection)] else [])
        + ObjectRenders(gameObjects, camera)
    {
      var draws := RenderObjects(gameObjects, camera);
      trace := if cubemap != null then [CubemapDraw(cubemap, camera.view, camera.projection)] + draws else draws;
    }

    /** createGameObject(): a fresh unnamed object appended; no physics registration. */
    method CreateGameObject() returns (o: GameObject)
      modifies this
      ensures fresh(o) && fresh(o.xf) && o.name == "" && o.components == [] && o.Valid()
      ensures gameObjects == old(gameObjects) + [o]
      ensures camera == old(camera) && cubemap == old(cubemap)
    {
      o := new GameObject();
      gameObjects := gameObjects + [o];
    }

    /**
     * destroyGameObject(o): the first occurrence is erased, the others keep
     * their order; the physics scene keeps the actor.
     */
    method DestroyGameObject(o: GameObject)
      modifies this
      ensures gameObjects == RemoveFirst(old(gameObjects), o)
      ensures camera == old(camera) && cubemap == old(cubemap)
    {
      var i := 0;
      while i < |gameObjects| && gameObjects[i] != o
        invariant 0 <= i <= |gameObjects|
        invariant o !in gameObjects[..i]
      {
        assert gameObjects[..i + 1] == gameObjects[..i] + [gameObjects[i]];
        i := i + 1;
      }
      if i < |gameObjects| {
        RemoveFirstAt(gameObjects, o, i);
        gameObjects := gameObjects[..i] + gameObjects[i + 1..];
      } else {
        assert gameObjects[..i] == gameObjects;
      }
    }

    /**
     * addGameObject(o): appended even if already present; its first physics
     * component's actor is registered iff it has one at call time.
     */
    method AddGameObject(o: GameObject)
      requires o.Valid()
      requires o.GetComponent(PhysicsComponent).Some? ==> o.FirstPhysics().body != null
      modifies this, physicsScene
      ensures gameObjects == old(gameObjects) + [o]
      ensures o.GetComponent(PhysicsComponent).None? ==> physicsScene.actors == old(physicsScene.actors)
      ensures o.GetComponent(PhysicsComponent).Some? ==>
        physicsScene.actors == old(physicsScene.actors) + [o.FirstPhysics().body]
      ensures physicsScene.steps == old(physicsScene.steps)
      ensures camera == old(camera) && cubemap == old(cubemap)
    {
      gameObjects := gameObjects + [o];
      var pc := o.GetComponent(PhysicsComponent);
      if pc.Some? {
        physicsScene.AddActor(pc.value.physics.body);
      }
    }
  }
}
