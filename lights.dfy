/**
 * Lights and the light manager (CORE/Lights/Light.cpp,
 * CORE/Lights/LightManager.cpp, CORE/Lights/LightManager.hpp, and the
 * older CLC/CORE/Light.hpp and CLC/CORE/LightManager.cpp, whose light list
 * and relevance filter behave the same way).
 *
 * The manager's globals (the light list and the shadow mapper) become the
 * fields of one LightManager object. GL object names created by glGen* are
 * parameters; the GL calls made are returned in order.
 */
module Lights {
  import opened Glm
  import opened Gl
  import opened Entities
  import opened Sequences
  import opened ShaderPrograms

  datatype LightType = Point | Directional | Spot

  class Light {
    /** The component base part; its owner is the object the light follows. */
    const component: Component
    var lightType: LightType
    var position: Vec3
    var direction: Vec3
    var color: Vec3
    var intensity: real

    constructor (component: Component, lightType: LightType, position: Vec3, direction: Vec3, color: Vec3, intensity: real)
      ensures this.component == component && this.lightType == lightType
      ensures this.position == position && this.direction == direction
      ensures this.color == color && this.intensity == intensity
    {
      this.component := component;
      this.lightType := lightType;
      this.position := position;
      this.direction := direction;
      this.color := color;
      this.intensity := intensity;
    }

    /**
     * update(dt): the light moves to its owning object's position; without
     * an owner nothing changes. dt is not used, and since the owner is not
     * touched a second call changes nothing more.
     */
    method Update(dt: real)
      modifies this
      ensures component.owner != null ==> position == component.owner.xf.position
      ensures component.owner == null ==> position == old(position)
      ensures lightType == old(lightType) && direction == old(direction)
      ensures color == old(color) && intensity == old(intensity)
    {
      var o := component.owner;
      if o != null {
        position := o.xf.position;
      }
    }
  }

  /** The distance test of getRelevantLights: strictly inside the camera's light range. */
  predicate Within(l: Light, camPos: Vec3, maxDistance: real)
    reads l
  {
    Distance(l.position, camPos) < maxDistance
  }

  /** The lights that pass the distance test, in list order. */
  function Relevant(lights: seq<Light>, camPos: Vec3, maxDistance: real): (r: seq<Light>)
    reads lights
    ensures |r| <= |lights|
  {
    if lights == [] then []
    else
      var last := lights[|lights| - 1];
      Relevant(lights[..|lights| - 1], camPos, maxDistance) + (if Within(last, camPos, maxDistance) then [last] else [])
  }

  /** Exactly the lights within range are kept. */
  lemma {:induction false} RelevantWithin(lights: seq<Light>, camPos: Vec3, maxDistance: real)
    ensures forall l | l in Relevant(lights, camPos, maxDistance) :: l in lights && Within(l, camPos, maxDistance)
    ensures forall l | l in lights && Within(l, camPos, maxDistance) :: l in Relevant(lights, camPos, maxDistance)
  {
    if lights != [] {
      var init := lights[..|lights| - 1];
      RelevantWithin(init, camPos, maxDistance);
      assert lights == init + [lights[|lights| - 1]];
    }
  }

  lemma RelevantSnoc(lights: seq<Light>, i: nat, camPos: Vec3, maxDistance: real)
    requires i < |lights|
    ensures Relevant(lights[..i + 1], camPos, maxDistance)
      == Relevant(lights[..i], camPos, maxDistance) + (if Within(lights[i], camPos, maxDistance) then [lights[i]] else [])
  {
    assert lights[..i + 1][..i] == lights[..i];
  }

  /** The relevant lights of a prefix are the first relevant lights of the whole list. */
  lemma {:induction false} RelevantPrefix(lights: seq<Light>, i: nat, camPos: Vec3, maxDistance: real)
    requires i <= |lights|
    ensures |Relevant(lights[..i], camPos, maxDistance)| <= |Relevant(lights, camPos, maxDistance)|
    ensures Relevant(lights, camPos, maxDistance)[..|Relevant(lights[..i], camPos, maxDistance)|]
      == Relevant(lights[..i], camPos, maxDistance)
  {
    if i == |lights| {
      assert lights[..i] == lights;
    } else {
      var init := lights[..|lights| - 1];
      assert init[..i] == lights[..i];
      RelevantPrefix(init, i, camPos, maxDistance);
    }
  }

  /** The filter keeps the relative order of the lights. */
  lemma {:induction false} RelevantIsSubsequence(lights: seq<Light>, camPos: Vec3, maxDistance: real)
    ensures IsSubsequence(Relevant(lights, camPos, maxDistance), lights)
  {
    if lights != [] {
      var init := lights[..|lights| - 1];
      var last := lights[|lights| - 1];
      RelevantIsSubsequence(init, camPos, maxDistance);
      assert lights == init + [last];
      if Within(last, camPos, maxDistance) {
        assert Relevant(lights, camPos, maxDistance) == Relevant(init, camPos, maxDistance) + [last];
        SubsequenceSnoc(Relevant(init, camPos, maxDistance), init, last);
      } else {
        assert Relevant(lights, camPos, maxDistance) == Relevant(init, camPos, maxDistance);
        SubsequenceAppendRight(Relevant(init, camPos, maxDistance), init, [last]);
      }
    }
  }

  /** The first n elements, or all of them when there are fewer. */
  function Take<T>(s: seq<T>, n: nat): (r: seq<T>)
    ensures |r| == if n < |s| then n else |s|
    ensures r == s[..|r|]
  {
    if n < |s| then s[..n] else s
  }

  const SizeTModulus: int := 0x1_0000_0000_0000_0000

  /** A C++ int. */
  type Int32 = x: int | -0x8000_0000 <= x < 0x8000_0000

  /** An int compared with a size_t is converted to unsigned 64-bit. */
  function AsSizeT(n: Int32): (u: nat)
    ensures 0 <= n ==> u == n
    ensures n < 0 ==> u == n + SizeTModulus && u > 0x8000_0000
  {
    n % SizeTModulus
  }

  /**
   * getRelevantLights(cam, maxLights) as written: the lights are scanned in
   * order, each one within range is appended, and the scan stops once the
   * count reaches maxLights converted to size_t. The check comes after the
   * first light, so a bound of 0 still lets the first light through, and a
   * negative bound becomes a huge one.
   */
  function RelevantLights(lights: seq<Light>, camPos: Vec3, maxDistance: real, maxLights: Int32): (r: seq<Light>)
    reads lights
  {
    var bound := AsSizeT(maxLights);
    if bound == 0 then Relevant(lights[..if lights == [] then 0 else 1], camPos, maxDistance)
    else Take(Relevant(lights, camPos, maxDistance), bound)
  }

  /** The result keeps the list order and holds only lights within range. */
  lemma RelevantLightsSubsequence(lights: seq<Light>, camPos: Vec3, maxDistance: real, maxLights: Int32)
    ensures IsSubsequence(RelevantLights(lights, camPos, maxDistance, maxLights), lights)
    ensures forall l | l in RelevantLights(lights, camPos, maxDistance, maxLights) :: Within(l, camPos, maxDistance)
  {
    var k := if lights == [] then 0 else 1;
    RelevantWithin(lights, camPos, maxDistance);
    RelevantWithin(lights[..k], camPos, maxDistance);
    RelevantIsSubsequence(lights, camPos, maxDistance);
    RelevantIsSubsequence(lights[..k], camPos, maxDistance);
    assert lights == lights[..k] + lights[k..];
    SubsequenceAppendRight(Relevant(lights[..k], camPos, maxDistance), lights[..k], lights[k..]);
    var all := Relevant(lights, camPos, maxDistance);
    SubsequencePrefix(all, lights, |Take(all, AsSizeT(maxLights))|);
  }

  /**
   * For maxLights >= 1: the first maxLights lights within range, so at most
   * maxLights of them, and all of them when fewer qualify.
   */
  lemma RelevantLightsFirstQualifying(lights: seq<Light>, camPos: Vec3, maxDistance: real, maxLights: Int32)
    requires 1 <= maxLights
    ensures var r := RelevantLights(lights, camPos, maxDistance, maxLights);
      && |r| <= maxLights
      && r == Relevant(lights, camPos, maxDistance)[..|r|]
      && (|Relevant(lights, camPos, maxDistance)| <= maxLights ==> r == Relevant(lights, camPos, maxDistance))
  {
    assert AsSizeT(maxLights) == maxLights;
  }

  /** For maxLights == 0 only the first light is examined: at most one light comes back. */
  lemma RelevantLightsZero(lights: seq<Light>, camPos: Vec3, maxDistance: real)
    ensures |RelevantLights(lights, camPos, maxDistance, 0)| <= 1
    ensures lights != [] && Within(lights[0], camPos, maxDistance) ==> RelevantLights(lights, camPos, maxDistance, 0) == [lights[0]]
    ensures lights != [] && !Within(lights[0], camPos, maxDistance) ==> RelevantLights(lights, camPos, maxDistance, 0) == []
  {
    if lights != [] {
      assert lights[..1][..0] == [];
    }
  }

  /**
   * For a negative maxLights the scan never stops early: every light within
   * range comes back (a std::vector holds fewer than 2^63 elements).
   */
  lemma RelevantLightsNegative(lights: seq<Light>, camPos: Vec3, maxDistance: real, maxLights: Int32)
    requires maxLights < 0 && |lights| < 0x8000_0000_0000_0000
    ensures RelevantLights(lights, camPos, maxDistance, maxLights) == Relevant(lights, camPos, maxDistance)
  {
    assert |Relevant(lights, camPos, maxDistance)| <= |lights|;
  }

  /**
   * The result can be longer than maxLights: two lights in range with
   * maxLights == -1 give two, one light in range with maxLights == 0 gives one.
   */
  lemma RelevantLightsExceedBound(lights: seq<Light>, camPos: Vec3, maxDistance: real)
    requires |lights| == 2 && Within(lights[0], camPos, maxDistance) && Within(lights[1], camPos, maxDistance)
    ensures |RelevantLights(lights, camPos, maxDistance, -1)| == 2 > -1
    ensures |RelevantLights(lights, camPos, maxDistance, 0)| == 1 > 0
  {
    RelevantLightsNegative(lights, camPos, maxDistance, -1);
    RelevantLightsZero(lights, camPos, maxDistance);
    assert Relevant(lights, camPos, maxDistance) == [lights[0], lights[1]] by {
      assert lights[..1][..0] == [];
    }
  }

  /** Where the scan stops early, the result is what it has collected so far. */
  lemma RelevantLightsStop(lights: seq<Light>, i: nat, camPos: Vec3, maxDistance: real, maxLights: Int32)
    requires 1 <= i <= |lights|
    requires |Relevant(lights[..i], camPos, maxDistance)| >= AsSizeT(maxLights)
    requires 1 < i ==> |Relevant(lights[..i - 1], camPos, maxDistance)| < AsSizeT(maxLights)
    ensures RelevantLights(lights, camPos, maxDistance, maxLights) == Relevant(lights[..i], camPos, maxDistance)
  {
    RelevantPrefix(lights, i, camPos, maxDistance);
    if AsSizeT(maxLights) > 0 {
      RelevantSnoc(lights, i - 1, camPos, maxDistance);
      assert i == 1 ==> lights[..i - 1] == [];
    }
  }

  /** Where the scan runs to the end, the result holds every light within range. */
  lemma RelevantLightsNoStop(lights: seq<Light>, camPos: Vec3, maxDistance: real, maxLights: Int32)
    requires lights != [] ==> |Relevant(lights, camPos, maxDistance)| < AsSizeT(maxLights)
    ensures RelevantLights(lights, camPos, maxDistance, maxLights) == Relevant(lights, camPos, maxDistance)
  {
  }

  /** The relevant lights never more than maxLights, none for a bound of 0 or less. */
  function BoundedRelevantLights(lights: seq<Light>, camPos: Vec3, maxDistance: real, maxLights: int): (r: seq<Light>)
    reads lights
  {
    if maxLights <= 0 then [] else Take(Relevant(lights, camPos, maxDistance), maxLights)
  }

  /** The bounded filter: at most max(maxLights, 0) lights, the first ones within range, in order. */
  lemma BoundedRelevantLightsBound(lights: seq<Light>, camPos: Vec3, maxDistance: real, maxLights: int)
    ensures var r := BoundedRelevantLights(lights, camPos, maxDistance, maxLights);
      && |r| <= (if maxLights < 0 then 0 else maxLights)
      && IsSubsequence(r, lights)
      && (forall l | l in r :: Within(l, camPos, maxDistance))
      && (0 <= maxLights && |Relevant(lights, camPos, maxDistance)| <= maxLights ==> r == Relevant(lights, camPos, maxDistance))
  {
    var all := Relevant(lights, camPos, maxDistance);
    RelevantWithin(lights, camPos, maxDistance);
    RelevantIsSubsequence(lights, camPos, maxDistance);
    if maxLights > 0 {
      SubsequencePrefix(all, lights, |Take(all, maxLights)|);
    }
  }

  const DefaultResolution: int := 2048
  /** The texture unit the shadow map is bound to. */
  const ShadowTextureUnit: nat := 1

  /** The light-space matrix of a shadow pass: an orthographic box looking at the origin, +Y up. */
  function LightSpace(orthoSize: real, nearPlane: real, farPlane: real, lightPos: Vec3): Mat4
  {
    MatMul(Ortho(-orthoSize, orthoSize, -orthoSize, orthoSize, nearPlane, farPlane), LookAt(lightPos, Zero3, UnitY))
  }

  /** The calls that create the depth texture and its framebuffer. */
  function InitializeCalls(texture: nat, framebuffer: nat, size: int): (calls: seq<GlCall>)
    ensures AllocateDepthTexture(texture, size, size) in calls
    ensures calls[|calls| - 1] == BindDefaultFramebuffer
  {
    [BindTexture2D(texture), AllocateDepthTexture(texture, size, size),
     BindFramebuffer(framebuffer), AttachDepthTexture(framebuffer, texture), BindDefaultFramebuffer]
  }

  class ShadowMapper {
    var depthMapFBO: nat
    var depthMapTexture: nat
    var lightSpaceMatrix: Mat4
    var resolution: int
    var farPlane: real
    var nearPlane: real
    var orthoSize: real
    /** The edge length the depth texture was last allocated with; 0 before that. */
    ghost var textureSize: int

    /** The shadow pass draws into the whole depth texture. */
    ghost predicate ViewportMatchesTexture()
      reads this
    {
      resolution == textureSize
    }

    /** No GL objects yet, resolution 2048, far 900, near 0.001, ortho half-size 100. */
    constructor ()
      ensures depthMapFBO == 0 && depthMapTexture == 0 && resolution == DefaultResolution
      ensures farPlane == 900.0 && nearPlane == 0.001 && orthoSize == 100.0
      ensures textureSize == 0
    {
      depthMapFBO := 0;
      depthMapTexture := 0;
      resolution := DefaultResolution;
      farPlane := 900.0;
      nearPlane := 0.001;
      orthoSize := 100.0;
      textureSize := 0;
    }

    function GetFarPlane(): (f: real)
      reads this
      ensures f == farPlane
    {
      farPlane
    }

    method SetFarPlane(f: real)
      modifies this
      ensures farPlane == f && nearPlane == old(nearPlane) && orthoSize == old(orthoSize)
      ensures resolution == old(resolution) && lightSpaceMatrix == old(lightSpaceMatrix)
      ensures depthMapFBO == old(depthMapFBO) && depthMapTexture == old(depthMapTexture) && textureSize == old(textureSize)
    {
      farPlane := f;
    }

    function GetNearPlane(): (n: real)
      reads this
      ensures n == nearPlane
    {
      nearPlane
    }

    method SetNearPlane(n: real)
      modifies this
      ensures nearPlane == n && farPlane == old(farPlane) && orthoSize == old(orthoSize)
      ensures resolution == old(resolution) && lightSpaceMatrix == old(lightSpaceMatrix)
      ensures depthMapFBO == old(depthMapFBO) && depthMapTexture == old(depthMapTexture) && textureSize == old(textureSize)
    {
      nearPlane := n;
    }

    function GetOrthoSize(): (s: real)
      reads this
      ensures s == orthoSize
    {
      orthoSize
    }

    method SetOrthoSize(s: real)
      modifies this
      ensures orthoSize == s && farPlane == old(farPlane) && nearPlane == old(nearPlane)
      ensures resolution == old(resolution) && lightSpaceMatrix == old(lightSpaceMatrix)
      ensures depthMapFBO == old(depthMapFBO) && depthMapTexture == old(depthMapTexture) && textureSize == old(textureSize)
    {
      orthoSize := s;
    }

    /** The matrix stored by the most recent shadow pass. */
    function GetLightSpaceMatrix(): (m: Mat4)
      reads this
      ensures m == lightSpaceMatrix
    {
      lightSpaceMatrix
    }

    function GetDepthMapFBO(): (f: nat)
      reads this
      ensures f == depthMapFBO
    {
      depthMapFBO
    }

    function GetDepthMapTexture(): (t: nat)
      reads this
      ensures t == depthMapTexture
    {
      depthMapTexture
    }

    /**
     * initialize(resolution) as written: the texture is allocated at the
     * requested size, but the assignment meant for the member assigns the
     * parameter to itself, so the member keeps its old value.
     */
    method InitializeAsWritten(size: int, texture: nat, framebuffer: nat) returns (calls: seq<GlCall>)
      modifies this
      ensures depthMapTexture == texture && depthMapFBO == framebuffer && textureSize == size
      ensures resolution == old(resolution)
      ensures ViewportMatchesTexture() <==> size == old(resolution)
      ensures calls == InitializeCalls(texture, framebuffer, size)
      ensures lightSpaceMatrix == old(lightSpaceMatrix)
      ensures farPlane == old(farPlane) && nearPlane == old(nearPlane) && orthoSize == old(orthoSize)
    {
      depthMapTexture := texture;
      textureSize := size;
      depthMapFBO := framebuffer;
      calls := InitializeCalls(texture, framebuffer, size);
    }

    /** initialize(resolution) as intended: the member records the size the texture has. */
    method Initialize(size: int, texture: nat, framebuffer: nat) returns (calls: seq<GlCall>)
      modifies this
      ensures depthMapTexture == texture && depthMapFBO == framebuffer && textureSize == size
      ensures resolution == size && ViewportMatchesTexture()
      ensures calls == InitializeCalls(texture, framebuffer, size)
      ensures lightSpaceMatrix == old(lightSpaceMatrix)
      ensures farPlane == old(farPlane) && nearPlane == old(nearPlane) && orthoSize == old(orthoSize)
    {
      depthMapTexture := texture;
      textureSize := size;
      resolution := size;
      depthMapFBO := framebuffer;
      calls := InitializeCalls(texture, framebuffer, size);
    }

    /**
     * renderShadowPass(scene, light): the light-space matrix is recomputed
     * from the light's position and stored; the shadow casters are drawn
     * into the depth framebuffer between front-face and back-face culling.
     */
    method RenderShadowPass(light: Light) returns (calls: seq<GlCall>)
      modifies this
      ensures lightSpaceMatrix == LightSpace(orthoSize, nearPlane, farPlane, light.position)
      ensures calls == [BindFramebuffer(depthMapFBO), Viewport(resolution, resolution), ClearDepth,
                        CullFront, DrawShadowCasters(lightSpaceMatrix), CullBack, BindDefaultFramebuffer]
      ensures depthMapFBO == old(depthMapFBO) && depthMapTexture == old(depthMapTexture)
      ensures resolution == old(resolution) && textureSize == old(textureSize)
      ensures farPlane == old(farPlane) && nearPlane == old(nearPlane) && orthoSize == old(orthoSize)
    {
      calls := [BindFramebuffer(depthMapFBO), Viewport(resolution, resolution), ClearDepth];
      lightSpaceMatrix := LightSpace(orthoSize, nearPlane, farPlane, light.position);
      calls := calls + [CullFront, DrawShadowCasters(lightSpaceMatrix), CullBack];
      calls := calls + [BindDefaultFramebuffer];
    }

    /** The destructor deletes exactly the GL objects that exist. */
    function Destroy(): (calls: seq<GlCall>)
      reads this
      ensures DeleteFramebuffer(depthMapFBO) in calls <==> depthMapFBO != 0
      ensures DeleteTexture(depthMapTexture) in calls <==> depthMapTexture != 0
      ensures |calls| == (if depthMapFBO != 0 then 1 else 0) + (if depthMapTexture != 0 then 1 else 0)
    {
      (if depthMapFBO != 0 then [DeleteFramebuffer(depthMapFBO)] else [])
        + (if depthMapTexture != 0 then [DeleteTexture(depthMapTexture)] else [])
    }
  }

  class LightManager {
    var lights: seq<Light>
    const shadowMapper: ShadowMapper

    constructor ()
      ensures lights == [] && fresh(shadowMapper)
      ensures shadowMapper.depthMapFBO == 0 && shadowMapper.depthMapTexture == 0
      ensures shadowMapper.resolution == DefaultResolution
    {
      lights := [];
      shadowMapper := new ShadowMapper();
    }

    /**
     * init(): the shadow mapper is initialized, as written, at the default
     * resolution. The resolution it keeps is the one it had; a mapper still
     * at its constructed 2048 ends with viewport and texture agreeing.
     */
    method Init(texture: nat, framebuffer: nat) returns (calls: seq<GlCall>)
      modifies shadowMapper
      ensures shadowMapper.depthMapTexture == texture && shadowMapper.depthMapFBO == framebuffer
      ensures shadowMapper.textureSize == DefaultResolution
      ensures shadowMapper.resolution == old(shadowMapper.resolution)
      ensures shadowMapper.ViewportMatchesTexture() <==> old(shadowMapper.resolution) == DefaultResolution
      ensures calls == InitializeCalls(texture, framebuffer, DefaultResolution)
    {
      calls := shadowMapper.InitializeAsWritten(DefaultResolution, texture, framebuffer);
    }

    function GetShadowMapper(): (m: ShadowMapper)
      reads this
      ensures m == shadowMapper
    {
      shadowMapper
    }

    /** addLight: appended at the end; the earlier lights stay as they were. */
    method AddLight(l: Light)
      modifies this
      ensures lights == old(lights) + [l]
    {
      lights := lights + [l];
    }

    method ClearLights()
      modifies this
      ensures lights == []
    {
      lights := [];
    }

    function GetLights(): (ls: seq<Light>)
      reads this
      ensures ls == lights
    {
      lights
    }

    /** getRelevantLights: the scan with its early stop, proved against RelevantLights. */
    method GetRelevantLights(camPos: Vec3, maxDistance: real, maxLights: Int32) returns (relevant: seq<Light>)
      ensures relevant == RelevantLights(lights, camPos, maxDistance, maxLights)
    {
      var bound := AsSizeT(maxLights);
      relevant := [];
      var i := 0;
      while i < |lights|
        invariant 0 <= i <= |lights|
        invariant relevant == Relevant(lights[..i], camPos, maxDistance)
        invariant 0 < i ==> |relevant| < bound
      {
        var light := lights[i];
        RelevantSnoc(lights, i, camPos, maxDistance);
        if Distance(light.position, camPos) < maxDistance {
          relevant := relevant + [light];
        }
        i := i + 1;
        if |relevant| >= bound {
          RelevantLightsStop(lights, i, camPos, maxDistance, maxLights);
          return;
        }
      }
      assert lights[..i] == lights;
      RelevantLightsNoStop(lights, camPos, maxDistance, maxLights);
    }

    /**
     * The calls of bindShadowMap with the given value for the "shadowMap"
     * sampler: nothing for a null shader; only the program switch when the
     * sampler uniform does not exist; otherwise the depth texture bound to
     * unit 1, the sampler and light-space uniforms set, and "lightPos" set
     * from the first light when there is one.
     */
    function BindShadowMapWith(shader: ShaderProgram?, hasSamplerUniform: bool, sampler: int): (calls: seq<GlCall>)
      reads this, shadowMapper, shader, lights
      ensures shader == null ==> calls == []
      ensures shader != null ==> |calls| >= 1 && calls[0] == UseProgram(shader.program)
      ensures shader != null && !hasSamplerUniform ==> |calls| == 1
      ensures |calls| == 6 <==> shader != null && hasSamplerUniform && lights != []
      ensures |calls| == 6 ==> calls[5] == UniformVec3(shader.program, "lightPos", lights[0].position)
      ensures shader != null && hasSamplerUniform ==>
        5 <= |calls| && calls[1] == ActiveTexture(ShadowTextureUnit)
        && calls[2] == BindTexture2D(shadowMapper.depthMapTexture)
        && calls[3] == UniformInt(shader.program, "shadowMap", sampler)
        && calls[4] == UniformMat4(shader.program, "lightSpaceMatrix", shadowMapper.lightSpaceMatrix)
    {
      if shader == null then []
      else if !hasSamplerUniform then [UseProgram(shader.program)]
      else
        [UseProgram(shader.program), ActiveTexture(ShadowTextureUnit), BindTexture2D(shadowMapper.depthMapTexture),
         UniformInt(shader.program, "shadowMap", sampler),
         UniformMat4(shader.program, "lightSpaceMatrix", shadowMapper.lightSpaceMatrix)]
        + (if lights != [] then [UniformVec3(shader.program, "lightPos", lights[0].position)] else [])
    }

    /** bindShadowMap as written: the sampler is given the depth texture's GL name. */
    function BindShadowMapAsWritten(shader: ShaderProgram?, hasSamplerUniform: bool): (calls: seq<GlCall>)
      reads this, shadowMapper, shader, lights
      ensures shader != null && hasSamplerUniform ==>
        5 <= |calls| && calls[3] == UniformInt(shader.program, "shadowMap", shadowMapper.depthMapTexture)
    {
      BindShadowMapWith(shader, hasSamplerUniform, shadowMapper.depthMapTexture)
    }

    /** bindShadowMap as intended: the sampler names the unit the depth texture is bound to. */
    function BindShadowMap(shader: ShaderProgram?, hasSamplerUniform: bool): (calls: seq<GlCall>)
      reads this, shadowMapper, shader, lights
      ensures shader != null && hasSamplerUniform ==>
        5 <= |calls| && calls[1] == ActiveTexture(ShadowTextureUnit)
        && calls[3] == UniformInt(shader.program, "shadowMap", ShadowTextureUnit)
    {
      BindShadowMapWith(shader, hasSamplerUniform, ShadowTextureUnit)
    }
  }

  /** As written, the sampler points at the activated unit only if the texture's name happens to be 1. */
  lemma BindShadowMapSamplerMismatch(m: LightManager, shader: ShaderProgram)
    requires m.shadowMapper.depthMapTexture != ShadowTextureUnit
    ensures var calls := m.BindShadowMapAsWritten(shader, true);
      calls[1] == ActiveTexture(ShadowTextureUnit)
      && calls[3] == UniformInt(shader.program, "shadowMap", m.shadowMapper.depthMapTexture)
      && calls[3].value != calls[1].unit
  {
  }
}
