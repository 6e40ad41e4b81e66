/**
 * The state every renderer component shares (CORE/RenderComponents/
 * RenderComponent.hpp and .cpp, and the older CLC/CORE/RenderComponent.hpp):
 * a renderer strategy, a shader, a color, GL buffer names, the textures to
 * bind and the shadow flags, with the texture-unit binding they do before
 * drawing.
 *
 * The renderer strategy (InterfaceRenderer) is known by identity only; what
 * its initialize does to the component is not part of this model, only that
 * it is called. The shader and texture registries are the ShaderManager and
 * TextureManager models.
 */
module RenderComponents {
  import opened Glm
  import opened Gl
  import opened Textures
  import opened ShaderPrograms
  import opened ShaderManagers
  import opened Sequences

  /** A shared_ptr<InterfaceRenderer>: null, or a renderer known by identity. */
  datatype RendererRef = NoRenderer | Renderer(id: nat)

  /** renderer->initialize(component). */
  datatype RendererCall = Initialize(renderer: nat, component: object)

  /** The decimal digit d, as std::to_string writes it. */
  function DigitChar(d: nat): char
    requires d < 10
  {
    ('0' as int + d) as char
  }

  /** std::to_string of an unsigned value. */
  function DecimalString(n: nat): (s: string)
    ensures |s| >= 1
    ensures n < 10 <==> |s| == 1
  {
    if n < 10 then [DigitChar(n)] else DecimalString(n / 10) + [DigitChar(n % 10)]
  }

  /** Different numbers are written differently. */
  lemma {:induction false} DecimalStringInjective(a: nat, b: nat)
    requires DecimalString(a) == DecimalString(b)
    ensures a == b
  {
    if a >= 10 && b >= 10 {
      var sa := DecimalString(a / 10);
      var sb := DecimalString(b / 10);
      assert DecimalString(a) == sa + [DigitChar(a % 10)];
      assert DecimalString(b) == sb + [DigitChar(b % 10)];
      assert DigitChar(a % 10) == DecimalString(a)[|DecimalString(a)| - 1];
      assert sa == DecimalString(a)[..|sa|];
      assert sb == DecimalString(b)[..|sb|];
      DecimalStringInjective(a / 10, b / 10);
    }
  }

  /** The sampler uniform bound to texture unit u: "texture1" for unit 0, and so on. */
  function SamplerName(unit: nat): (name: string)
    ensures |name| >= 8 && name[..7] == "texture"
  {
    "texture" + DecimalString(unit + 1)
  }

  /** Each unit has its own sampler uniform. */
  lemma SamplerNamesDistinct(i: nat, j: nat)
    requires i != j
    ensures SamplerName(i) != SamplerName(j)
  {
    if SamplerName(i) == SamplerName(j) {
      assert SamplerName(i)[7..] == DecimalString(i + 1);
      assert SamplerName(j)[7..] == DecimalString(j + 1);
      DecimalStringInjective(i + 1, j + 1);
    }
  }

  /** The GL texture names of a texture list, in order. */
  function Ids(ts: seq<Texture>): (ids: seq<nat>)
    reads set t | t in ts
    ensures |ids| == |ts| && forall i | 0 <= i < |ts| :: ids[i] == ts[i].id
  {
    if ts == [] then [] else Ids(ts[..|ts| - 1]) + [ts[|ts| - 1].id]
  }

  /** The program a (possibly null) shader uses; 0 stands for none. */
  function ProgramOf(shader: ShaderProgram?): nat
    reads shader
  {
    if shader == null then 0 else shader.program
  }

  /**
   * bindTextures: for texture i, unit i is activated, the texture bound to
   * it, and the sampler "texture{i+1}" set to i.
   */
  function BindTrace(ids: seq<nat>, program: nat): (calls: seq<GlCall>)
    ensures |calls| == 3 * |ids|
    ensures forall i | 0 <= i < |ids| ::
      calls[3 * i..3 * i + 3] == [ActiveTexture(i), BindTexture2D(ids[i]), UniformInt(program, SamplerName(i), i)]
  {
    if ids == [] then []
    else
      var n := |ids| - 1;
      var init := BindTrace(ids[..n], program);
      var calls := init + [ActiveTexture(n), BindTexture2D(ids[n]), UniformInt(program, SamplerName(n), n)];
      assert forall i | 0 <= i < n :: calls[3 * i..3 * i + 3] == init[3 * i..3 * i + 3];
      calls
  }

  /** unBindTextures: for each texture i, unit i activated and texture 0 bound to it. */
  function UnbindTrace(n: nat): (calls: seq<GlCall>)
    ensures |calls| == 2 * n
    ensures forall c | c in calls :: (c.ActiveTexture? && c.unit < n) || c == BindTexture2D(0)
  {
    if n == 0 then [] else UnbindTrace(n - 1) + [ActiveTexture(n - 1), BindTexture2D(0)]
  }

  /** The texture units a call sequence activates. */
  function ActiveUnits(calls: seq<GlCall>): set<nat>
  {
    if calls == [] then {}
    else (if calls[0].ActiveTexture? then {calls[0].unit} else {}) + ActiveUnits(calls[1..])
  }

  /** The units 0 .. n-1. */
  function Units(n: nat): (us: set<nat>)
    ensures forall u: int :: u in us <==> 0 <= u < n
  {
    if n == 0 then {} else Units(n - 1) + {n - 1}
  }

  lemma {:induction false} ActiveUnitsAppend(a: seq<GlCall>, b: seq<GlCall>)
    ensures ActiveUnits(a + b) == ActiveUnits(a) + ActiveUnits(b)
  {
    if a == [] {
      assert a + b == b;
    } else {
      assert (a + b)[1..] == a[1..] + b;
      ActiveUnitsAppend(a[1..], b);
    }
  }

  /** Binding n textures activates exactly the units 0 .. n-1. */
  lemma {:induction false} BindTraceUnits(ids: seq<nat>, program: nat)
    ensures ActiveUnits(BindTrace(ids, program)) == Units(|ids|)
  {
    if ids != [] {
      var n := |ids| - 1;
      BindTraceUnits(ids[..n], program);
      var last := [ActiveTexture(n), BindTexture2D(ids[n]), UniformInt(program, SamplerName(n), n)];
      ActiveUnitsAppend(BindTrace(ids[..n], program), last);
      assert ActiveUnits(last) == {n} by {
        assert ActiveUnits(last[2..]) == {} by {
          assert last[2..][1..] == [];
        }
        assert ActiveUnits(last[1..]) == ActiveUnits(last[2..]) by {
          assert last[1..][1..] == last[2..];
        }
      }
    }
  }

  /** Unbinding n textures resets exactly the units binding them used. */
  lemma {:induction false} UnbindTraceUnits(n: nat)
    ensures ActiveUnits(UnbindTrace(n)) == Units(n)
  {
    if n != 0 {
      UnbindTraceUnits(n - 1);
      var last := [ActiveTexture(n - 1), BindTexture2D(0)];
      ActiveUnitsAppend(UnbindTrace(n - 1), last);
      assert ActiveUnits(last) == {n - 1} by {
        assert ActiveUnits(last[1..]) == {} by {
          assert last[1..][1..] == [];
        }
      }
    }
  }

  /** The bindTextures loop, shared by both generations of the component. */
  method BindTextureUnits(textures: seq<Texture>, shader: ShaderProgram?) returns (calls: seq<GlCall>)
    requires shader != null || textures == []
    ensures calls == BindTrace(Ids(textures), ProgramOf(shader))
  {
    calls := [];
    var i := 0;
    while i < |textures|
      invariant 0 <= i <= |textures|
      invariant calls == BindTrace(Ids(textures[..i]), ProgramOf(shader))
    {
      assert Ids(textures[..i + 1]) == Ids(textures[..i]) + [textures[i].id] by {
        assert textures[..i + 1][..i] == textures[..i];
      }
      assert Ids(textures[..i + 1])[..i] == Ids(textures[..i]);
      calls := calls + [ActiveTexture(i), BindTexture2D(textures[i].id), UniformInt(shader.program, SamplerName(i), i)];
      i := i + 1;
    }
    assert textures[..i] == textures;
  }

  /** The unBindTextures loop over n textures. */
  method UnbindTextureUnits(n: nat) returns (calls: seq<GlCall>)
    ensures calls == UnbindTrace(n)
  {
    calls := [];
    var i := 0;
    while i < n
      invariant 0 <= i <= n && calls == UnbindTrace(i)
    {
      calls := calls + [ActiveTexture(i), BindTexture2D(0)];
      i := i + 1;
    }
  }

  /** Every field of a render component, for stating what a setter leaves alone. */
  datatype RenderState = RenderState(
    renderer: RendererRef,
    shader: ShaderProgram?,
    color: Vec4,
    vao: nat, vbo: nat, ebo: nat,
    textures: seq<Texture>,
    isShadowCaster: bool,
    isShadowReceiver: bool)

  class RenderComponent {
    var renderer: RendererRef
    var shader: ShaderProgram?
    var color: Vec4
    var vao: nat
    var vbo: nat
    var ebo: nat
    var textures: seq<Texture>
    var isShadowCaster: bool
    var isShadowReceiver: bool

    function State(): (s: RenderState)
      reads this
      ensures s.renderer == renderer && s.shader == shader && s.color == color && s.textures == textures
      ensures s.vao == vao && s.vbo == vbo && s.ebo == ebo
      ensures s.isShadowCaster == isShadowCaster && s.isShadowReceiver == isShadowReceiver
    {
      RenderState(renderer, shader, color, vao, vbo, ebo, textures, isShadowCaster, isShadowReceiver)
    }

    /** The default component: white, no renderer, no shader, no buffers, neither caster nor receiver. */
    constructor ()
      ensures State() == RenderState(NoRenderer, null, White, 0, 0, 0, [], false, false)
    {
      renderer, shader, color := NoRenderer, null, White;
      vao, vbo, ebo := 0, 0, 0;
      textures := [];
      isShadowCaster, isShadowReceiver := false, false;
    }

    constructor WithFlags(isShadowCaster: bool, isShadowReceiver: bool)
      ensures State() == RenderState(NoRenderer, null, White, 0, 0, 0, [], isShadowCaster, isShadowReceiver)
    {
      renderer, shader, color := NoRenderer, null, White;
      vao, vbo, ebo := 0, 0, 0;
      textures := [];
      this.isShadowCaster, this.isShadowReceiver := isShadowCaster, isShadowReceiver;
    }

    constructor WithColor(color: Vec4)
      ensures State() == RenderState(NoRenderer, null, color, 0, 0, 0, [], false, false)
    {
      renderer, shader, this.color := NoRenderer, null, color;
      vao, vbo, ebo := 0, 0, 0;
      textures := [];
      isShadowCaster, isShadowReceiver := false, false;
    }

    constructor WithColorAndFlags(color: Vec4, isShadowCaster: bool, isShadowReceiver: bool)
      ensures State() == RenderState(NoRenderer, null, color, 0, 0, 0, [], isShadowCaster, isShadowReceiver)
    {
      renderer, shader, this.color := NoRenderer, null, color;
      vao, vbo, ebo := 0, 0, 0;
      textures := [];
      this.isShadowCaster, this.isShadowReceiver := isShadowCaster, isShadowReceiver;
    }

    function GetIsShadowCaster(): (b: bool)
      reads this
      ensures b == isShadowCaster
    {
      isShadowCaster
    }

    function GetIsShadowReceiver(): (b: bool)
      reads this
      ensures b == isShadowReceiver
    {
      isShadowReceiver
    }

    /** setIsShadowCaster changes that flag and nothing else. */
    method SetIsShadowCaster(b: bool)
      modifies this
      ensures State() == old(State()).(isShadowCaster := b)
    {
      isShadowCaster := b;
    }

    method SetIsShadowReceiver(b: bool)
      modifies this
      ensures State() == old(State()).(isShadowReceiver := b)
    {
      isShadowReceiver := b;
    }

    /** setRenderer: stored, and initialize called on it with this component iff it is non-null. */
    method SetRenderer(r: RendererRef) returns (calls: seq<RendererCall>)
      modifies this
      ensures State() == old(State()).(renderer := r)
      ensures r.NoRenderer? <==> calls == []
      ensures r.Renderer? ==> calls == [Initialize(r.id, this)]
    {
      renderer := r;
      calls := [];
      if renderer.Renderer? {
        calls := [Initialize(renderer.id, this)];
      }
    }

    /**
     * setShader(name): the registry's getShader; if that throws, the
     * component keeps its shader.
     */
    method SetShaderNamed(manager: ShaderManager, name: string, created: nat, defineOrder: seq<string>, compile: Compile)
      returns (r: Result<ShaderProgram>)
      requires name in manager.configs ==> IsIterationOrder(defineOrder, manager.configs[name].defines)
      modifies this, manager
      ensures name in old(manager.shaders) ==> r == Ok(old(manager.shaders)[name])
      ensures r.Ok? ==> State() == old(State()).(shader := r.value) && name in manager.shaders && manager.shaders[name] == r.value
      ensures r.Err? ==> State() == old(State()) && manager.shaders == old(manager.shaders)
      ensures manager.configs == old(manager.configs)
    {
      r := manager.GetShader(name, created, defineOrder, compile);
      if r.Ok? {
        shader := r.value;
      }
    }

    /** setShader(ptr) then getShader() gives the same pointer back. */
    method SetShader(s: ShaderProgram?)
      modifies this
      ensures State() == old(State()).(shader := s)
    {
      shader := s;
    }

    function GetShader(): (s: ShaderProgram?)
      reads this
      ensures s == shader
    {
      shader
    }

    /** setColor(vec3): stored with alpha 1. */
    method SetColor3(c: Vec3)
      modifies this
      ensures State() == old(State()).(color := Vec4(c.x, c.y, c.z, 1.0))
    {
      color := Extend(c, 1.0);
    }

    /** setColor(vec4): stored verbatim. */
    method SetColor4(c: Vec4)
      modifies this
      ensures State() == old(State()).(color := c)
    {
      color := c;
    }

    function GetColor(): (c: Vec4)
      reads this
      ensures c == color
    {
      color
    }

    /** addTexture(name): appended iff the registry holds the name, else nothing changes. */
    method AddTextureNamed(registry: TextureManager, name: string)
      modifies this
      ensures name in registry.textures ==> State() == old(State()).(textures := old(textures) + [registry.textures[name]])
      ensures name !in registry.textures ==> State() == old(State())
    {
      var t := registry.GetTexture(name);
      if t != null {
        textures := textures + [t];
      }
    }

    /** addTexture(ptr): appended without any check. */
    method AddTexture(t: Texture)
      modifies this
      ensures State() == old(State()).(textures := old(textures) + [t])
    {
      textures := textures + [t];
    }

    /** bindTextures dereferences the shader once there is a texture. */
    method BindTextures() returns (calls: seq<GlCall>)
      requires shader != null || textures == []
      ensures calls == BindTrace(Ids(textures), ProgramOf(shader))
    {
      calls := BindTextureUnits(textures, shader);
    }

    method UnBindTextures() returns (calls: seq<GlCall>)
      ensures calls == UnbindTrace(|textures|)
    {
      calls := UnbindTextureUnits(|textures|);
    }
  }

  /**
   * The older render component: the same renderer, shader and texture
   * handling with an RGB color and no shadow flags. It has no constructor
   * of its own, so its color starts indeterminate.
   */
  class LegacyRenderComponent {
    var renderer: RendererRef
    var shader: ShaderProgram?
    var color: Vec3
    var textures: seq<Texture>

    constructor (indeterminateColor: Vec3)
      ensures renderer == NoRenderer && shader == null && textures == [] && color == indeterminateColor
    {
      renderer, shader, color, textures := NoRenderer, null, indeterminateColor, [];
    }

    method SetRenderer(r: RendererRef) returns (calls: seq<RendererCall>)
      modifies this
      ensures renderer == r && shader == old(shader) && color == old(color) && textures == old(textures)
      ensures r.NoRenderer? <==> calls == []
      ensures r.Renderer? ==> calls == [Initialize(r.id, this)]
    {
      renderer := r;
      calls := [];
      if renderer.Renderer? {
        calls := [Initialize(renderer.id, this)];
      }
    }

    method SetShaderNamed(manager: ShaderManager, name: string, created: nat, defineOrder: seq<string>, compile: Compile)
      returns (r: Result<ShaderProgram>)
      requires name in manager.configs ==> IsIterationOrder(defineOrder, manager.configs[name].defines)
      modifies this, manager
      ensures name in old(manager.shaders) ==> r == Ok(old(manager.shaders)[name])
      ensures r.Ok? ==> shader == r.value && name in manager.shaders && manager.shaders[name] == r.value
      ensures r.Err? ==> shader == old(shader) && manager.shaders == old(manager.shaders)
      ensures renderer == old(renderer) && color == old(color) && textures == old(textures)
      ensures manager.configs == old(manager.configs)
    {
      r := manager.GetShader(name, created, defineOrder, compile);
      if r.Ok? {
        shader := r.value;
      }
    }

    /** setColor then getColor returns the stored RGB value. */
    method SetColor(c: Vec3)
      modifies this
      ensures color == c && renderer == old(renderer) && shader == old(shader) && textures == old(textures)
    {
      color := c;
    }

    function GetColor(): (c: Vec3)
      reads this
      ensures c == color
    {
      color
    }

    method AddTextureNamed(registry: TextureManager, name: string)
      modifies this
      ensures name in registry.textures ==> textures == old(textures) + [registry.textures[name]]
      ensures name !in registry.textures ==> textures == old(textures)
      ensures renderer == old(renderer) && shader == old(shader) && color == old(color)
    {
      var t := registry.GetTexture(name);
      if t != null {
        textures := textures + [t];
      }
    }

    method AddTexture(t: Texture)
      modifies this
      ensures textures == old(textures) + [t]
      ensures renderer == old(renderer) && shader == old(shader) && color == old(color)
    {
      textures := textures + [t];
    }

    method BindTextures() returns (calls: seq<GlCall>)
      requires shader != null || textures == []
      ensures calls == BindTrace(Ids(textures), ProgramOf(shader))
    {
      calls := BindTextureUnits(textures, shader);
    }

    method UnBindTextures() returns (calls: seq<GlCall>)
      ensures calls == UnbindTrace(|textures|)
    {
      calls := UnbindTextureUnits(|textures|);
    }
  }
}
