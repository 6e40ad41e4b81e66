/**
 * The shader registry (CLC/CORE/Shader.cpp): a table of shader configs
 * read from a JSON document, and a cache of built programs filled lazily
 * by name. The registry is a namespace with two file-scope maps; here it is
 * a class with those two maps as fields.
 *
 * Reading files and compiling are inputs: the JSON document (or why it
 * could not be read), the set of paths that can be opened, the GL program
 * name glCreateProgram hands out and whether compiling and linking the two
 * stages succeeded. Where the source walks an unordered_map, the walk order
 * is a parameter listing each key once.
 */
module ShaderManagers {
  import opened Gl
  import opened Sequences
  import opened ShaderPrograms

  /** A parsed JSON value, as far as the config reader looks into it. */
  datatype Json = JString(s: string) | JObject(fields: map<string, Json>) | JOther

  /** What reading the config file yields. */
  datatype ConfigFile =
    | Unopenable
    | Malformed
    /** The top-level object's members, in the order items() walks them. */
    | Document(entries: seq<(string, Json)>)

  datatype ShaderConfig = ShaderConfig(vertexPath: string, fragmentPath: string, defines: map<string, string>)

  /** Why an operation of the registry threw. */
  datatype ShaderError =
    | CannotOpen
    | ParseError
    | MissingPath(shader: string)
    | NotAString
    | VertexNotFound(path: string)
    | FragmentNotFound(path: string)
    | NoConfig(shader: string)
    | BuildFailed

  datatype Result<T> = Ok(value: T) | Err(error: ShaderError)

  /** The outcome of compiling and linking a program's two stages. */
  datatype Compile = Linked(program: nat) | CompileFailed

  /** json::contains(key). */
  predicate Has(j: Json, key: string)
  {
    j.JObject? && key in j.fields
  }

  /** "defines" is present and is an object: only then are defines read. */
  predicate HasDefineObject(data: Json)
  {
    Has(data, "defines") && data.fields["defines"].JObject?
  }

  /** The defines object's values, each read with get<std::string>(). */
  function DefineStrings(fields: map<string, Json>): (r: Result<map<string, string>>)
    ensures r.Ok? <==> forall k | k in fields :: fields[k].JString?
    ensures r.Ok? ==> r.value.Keys == fields.Keys && forall k | k in fields :: fields[k] == JString(r.value[k])
    ensures r.Err? ==> r.error == NotAString
  {
    if forall k | k in fields :: fields[k].JString? then Ok(map k | k in fields :: fields[k].s) else Err(NotAString)
  }

  /**
   * One member of the document: vertex and fragment paths required, then
   * both read as strings, then the optional defines, then both files must
   * be openable (vertex first).
   */
  function ReadEntry(name: string, data: Json, files: set<string>): (r: Result<ShaderConfig>)
    ensures r == Err(MissingPath(name)) <==> !Has(data, "vertex") || !Has(data, "fragment")
    ensures r.Ok? ==> Has(data, "vertex") && data.fields["vertex"] == JString(r.value.vertexPath)
    ensures r.Ok? ==> Has(data, "fragment") && data.fields["fragment"] == JString(r.value.fragmentPath)
    ensures r.Ok? ==> r.value.vertexPath in files && r.value.fragmentPath in files
    ensures r.Ok? && !HasDefineObject(data) ==> r.value.defines == map[]
    ensures r.Ok? && HasDefineObject(data) ==> DefineStrings(data.fields["defines"].fields) == Ok(r.value.defines)
  {
    if !Has(data, "vertex") || !Has(data, "fragment") then Err(MissingPath(name))
    else
      var v := data.fields["vertex"];
      var f := data.fields["fragment"];
      if !v.JString? || !f.JString? then Err(NotAString)
      else
        var defines := if HasDefineObject(data) then DefineStrings(data.fields["defines"].fields) else Ok(map[]);
        if defines.Err? then Err(defines.error)
        else if v.s !in files then Err(VertexNotFound(v.s))
        else if f.s !in files then Err(FragmentNotFound(f.s))
        else Ok(ShaderConfig(v.s, f.s, defines.value))
  }

  /**
   * The configs stored after walking the entries from an empty table, and
   * the error that stopped the walk, if any: entries are stored one by one,
   * and the first entry that fails ends the walk with the earlier ones kept.
   */
  function Load(es: seq<(string, Json)>, files: set<string>): (r: (map<string, ShaderConfig>, Result<()>))
  {
    if es == [] then (map[], Ok(()))
    else
      var (m, status) := Load(es[..|es| - 1], files);
      var (name, data) := es[|es| - 1];
      if status.Err? then (m, status)
      else match ReadEntry(name, data, files)
        case Ok(c) => (m[name := c], Ok(()))
        case Err(e) => (m, Err(e))
  }

  function Names(es: seq<(string, Json)>): set<string>
  {
    set e | e in es :: e.0
  }

  /** Load extended by one entry, when the walk was still going. */
  lemma LoadSnoc(es: seq<(string, Json)>, i: nat, files: set<string>)
    requires i < |es|
    ensures Load(es[..i + 1], files)
      == (var (m, status) := Load(es[..i], files);
          if status.Err? then (m, status)
          else match ReadEntry(es[i].0, es[i].1, files)
            case Ok(c) => (m[es[i].0 := c], Ok(()))
            case Err(e) => (m, Err(e)))
  {
    assert es[..i + 1][..i] == es[..i];
  }

  /** The walk succeeds exactly when every entry reads. */
  lemma {:induction false} LoadOkExactly(es: seq<(string, Json)>, files: set<string>)
    ensures Load(es, files).1.Ok? <==> forall i | 0 <= i < |es| :: ReadEntry(es[i].0, es[i].1, files).Ok?
  {
    if es != [] {
      var init := es[..|es| - 1];
      LoadOkExactly(init, files);
      if Load(es, files).1.Ok? {
        forall i | 0 <= i < |es|
          ensures ReadEntry(es[i].0, es[i].1, files).Ok?
        {
          if i < |es| - 1 {
            assert es[i] == init[i];
          }
        }
      } else if !Load(init, files).1.Ok? {
        var j :| 0 <= j < |init| && !ReadEntry(init[j].0, init[j].1, files).Ok?;
        assert es[j] == init[j];
      }
    }
  }

  /** Only names of the document are stored; after a successful walk, every one of them. */
  lemma {:induction false} LoadKeys(es: seq<(string, Json)>, files: set<string>)
    ensures Load(es, files).1.Ok? ==> Load(es, files).0.Keys == Names(es)
    ensures Load(es, files).0.Keys <= Names(es)
  {
    if es != [] {
      var init := es[..|es| - 1];
      LoadKeys(init, files);
      assert es == init + [es[|es| - 1]];
      assert Names(es) == Names(init) + {es[|es| - 1].0};
    }
  }

  /**
   * The walk succeeds exactly when every entry reads; then every name is
   * stored. Whatever happens, only names of the document are stored.
   */
  lemma LoadSucceeds(es: seq<(string, Json)>, files: set<string>)
    ensures Load(es, files).1.Ok? <==> forall i | 0 <= i < |es| :: ReadEntry(es[i].0, es[i].1, files).Ok?
    ensures Load(es, files).1.Ok? ==> Load(es, files).0.Keys == Names(es)
    ensures Load(es, files).0.Keys <= Names(es)
  {
    LoadOkExactly(es, files);
    LoadKeys(es, files);
  }

  /**
   * An entry that fails after entries that all read ends the walk with
   * its error, and the table holds exactly what was stored before it.
   */
  lemma {:induction false} LoadStopsAtFirstError(es: seq<(string, Json)>, i: nat, files: set<string>)
    requires i < |es| && ReadEntry(es[i].0, es[i].1, files).Err?
    requires forall j | 0 <= j < i :: ReadEntry(es[j].0, es[j].1, files).Ok?
    ensures Load(es, files) == (Load(es[..i], files).0, Err(ReadEntry(es[i].0, es[i].1, files).error))
    ensures Load(es[..i], files).0.Keys == Names(es[..i])
    decreases |es|
  {
    LoadSucceeds(es[..i], files);
    assert Load(es[..i], files).1.Ok?;
    if i == |es| - 1 {
      LoadSnoc(es, i, files);
      assert es[..i + 1] == es;
    } else {
      var init := es[..|es| - 1];
      assert init[..i] == es[..i];
      LoadStopsAtFirstError(init, i, files);
    }
  }

  predicate DistinctNames(es: seq<(string, Json)>)
  {
    forall i, j | 0 <= i < j < |es| :: es[i].0 != es[j].0
  }

  /** With distinct names (as in a JSON object), each stored config is the one read from its entry. */
  lemma {:induction false} LoadStoresEntries(es: seq<(string, Json)>, files: set<string>)
    requires DistinctNames(es)
    ensures forall i | 0 <= i < |es| && es[i].0 in Load(es, files).0 ::
      ReadEntry(es[i].0, es[i].1, files) == Ok(Load(es, files).0[es[i].0])
  {
    if es != [] {
      var init := es[..|es| - 1];
      var last := es[|es| - 1];
      LoadStoresEntries(init, files);
      LoadSucceeds(init, files);
      forall i | 0 <= i < |es| && es[i].0 in Load(es, files).0
        ensures ReadEntry(es[i].0, es[i].1, files) == Ok(Load(es, files).0[es[i].0])
      {
        if i < |es| - 1 {
          assert es[i] == init[i];
          assert es[i].0 != last.0;
        }
      }
    }
  }

  /** addDefine for each define of the config, in the walk order: the program ends with exactly those defines. */
  method AddDefines(shader: ShaderProgram, defines: map<string, string>, order: seq<string>)
    requires shader.defines == map[] && IsIterationOrder(order, defines)
    modifies shader
    ensures shader.defines == defines && shader.program == old(shader.program)
  {
    var i := 0;
    while i < |order|
      invariant 0 <= i <= |order| && shader.program == old(shader.program)
      invariant shader.defines == map k | k in order[..i] :: defines[k]
    {
      assert order[..i + 1] == order[..i] + [order[i]];
      shader.AddDefine(order[i], defines[order[i]]);
      i := i + 1;
    }
    assert order[..i] == order;
  }

  class ShaderManager {
    /** The program cache (m_shaders). */
    var shaders: map<string, ShaderProgram>
    /** The config table (shaderConfigs). */
    var configs: map<string, ShaderConfig>

    constructor ()
      ensures shaders == map[] && configs == map[]
    {
      shaders := map[];
      configs := map[];
    }

    /**
     * loadConfigs: a file that cannot be opened or parsed changes nothing.
     * Otherwise the table is cleared and refilled by the walk over the
     * document, which stops at the first bad entry with the earlier entries
     * kept. The cache is not touched.
     */
    method LoadConfigs(file: ConfigFile, files: set<string>) returns (status: Result<()>)
      modifies this
      ensures file.Unopenable? ==> status == Err(CannotOpen) && configs == old(configs)
      ensures file.Malformed? ==> status == Err(ParseError) && configs == old(configs)
      ensures file.Document? ==> (configs, status) == Load(file.entries, files)
      ensures shaders == old(shaders)
    {
      match file
      case Unopenable =>
        return Err(CannotOpen);
      case Malformed =>
        return Err(ParseError);
      case Document(es) =>
        var m, s := WalkEntries(es, files);
        configs := m;
        status := s;
    }

    /**
     * loadShader: no config for the name fails with nothing changed. Otherwise
     * a new program gets the config's defines and is built from its files;
     * if building fails nothing changes, else it replaces the cache entry.
     */
    method LoadShader(name: string, created: nat, defineOrder: seq<string>, compile: Compile)
      returns (r: Result<ShaderProgram>)
      requires name in configs ==> IsIterationOrder(defineOrder, configs[name].defines)
      modifies this
      ensures configs == old(configs)
      ensures name !in configs ==> r == Err(NoConfig(name)) && shaders == old(shaders)
      ensures name in configs && compile.CompileFailed? ==> r == Err(BuildFailed) && shaders == old(shaders)
      ensures name in configs && compile.Linked? ==>
        && r.Ok? && fresh(r.value)
        && r.value.program == compile.program && r.value.defines == configs[name].defines
        && shaders == old(shaders)[name := r.value]
    {
      if name !in configs {
        return Err(NoConfig(name));
      }
      var config := configs[name];
      var shader := new ShaderProgram(created);
      AddDefines(shader, config.defines, defineOrder);
      match compile
      case CompileFailed =>
        return Err(BuildFailed);
      case Linked(p) =>
        var _ := shader.LoadFromFiles(p);
        shaders := shaders[name := shader];
        r := Ok(shader);
    }

    /**
     * getShader: a cached program is returned as it is, with nothing
     * reloaded; an uncached name is loaded first, and on success the program
     * returned is the one now cached under that name.
     */
    method GetShader(name: string, created: nat, defineOrder: seq<string>, compile: Compile)
      returns (r: Result<ShaderProgram>)
      requires name in configs ==> IsIterationOrder(defineOrder, configs[name].defines)
      modifies this
      ensures configs == old(configs)
      ensures name in old(shaders) ==> r == Ok(old(shaders)[name]) && shaders == old(shaders)
      ensures name !in old(shaders) && name !in configs ==> r == Err(NoConfig(name)) && shaders == old(shaders)
      ensures name !in old(shaders) && name in configs && compile.CompileFailed? ==>
        r == Err(BuildFailed) && shaders == old(shaders)
      ensures name !in old(shaders) && name in configs && compile.Linked? ==>
        r.Ok? && fresh(r.value) && r.value.program == compile.program && r.value.defines == configs[name].defines
      ensures r.Ok? ==> name in shaders && shaders[name] == r.value
    {
      if name !in shaders {
        r := LoadShader(name, created, defineOrder, compile);
        if r.Err? {
          return;
        }
      }
      r := Ok(shaders[name]);
    }

    /**
     * The program cached under name was built from compile with its
     * config's defines: what loadShader leaves when it succeeds.
     */
    ghost predicate BuiltFrom(name: string, compile: Compile)
      reads this, if name in shaders then {shaders[name]} else {}
    {
      && name in configs && compile.Linked? && name in shaders
      && shaders[name].program == compile.program && shaders[name].defines == configs[name].defines
    }

    /**
     * reloadAll: loadShader for every cached name in the walk order, stopping
     * at the first failure. The set of cached names never changes; when
     * every load succeeds each name holds a freshly built program with its
     * config's defines. When the load of the k-th name fails, the names
     * before it hold fresh programs built with their configs' defines, it
     * and the names after it keep theirs, and the failure is the k-th
     * load's own error.
     */
    method ReloadAll(order: seq<string>, created: seq<nat>, defineOrders: seq<seq<string>>, compiles: seq<Compile>)
      returns (status: Result<()>)
      requires IsIterationOrder(order, shaders)
      requires |created| == |order| && |defineOrders| == |order| && |compiles| == |order|
      requires forall i | 0 <= i < |order| && order[i] in configs :: IsIterationOrder(defineOrders[i], configs[order[i]].defines)
      modifies this
      ensures configs == old(configs) && shaders.Keys == old(shaders).Keys
      ensures status.Ok? <==> forall i | 0 <= i < |order| :: order[i] in configs && compiles[i].Linked?
      ensures status.Ok? ==> forall i | 0 <= i < |order| :: fresh(shaders[order[i]]) && BuiltFrom(order[i], compiles[i])
      ensures status.Err? ==> exists k | 0 <= k < |order| ::
        && (forall j | 0 <= j < k :: fresh(shaders[order[j]]) && BuiltFrom(order[j], compiles[j]))
        && !(order[k] in configs && compiles[k].Linked?)
        && (forall j | k <= j < |order| :: shaders[order[j]] == old(shaders)[order[j]])
        && status == (if order[k] in configs then Err(BuildFailed) else Err(NoConfig(order[k])))
    {
      var i := 0;
      while i < |order|
        invariant 0 <= i <= |order|
        invariant configs == old(configs) && shaders.Keys == old(shaders).Keys
        invariant forall j | 0 <= j < i :: fresh(shaders[order[j]]) && BuiltFrom(order[j], compiles[j])
        invariant forall j | i <= j < |order| :: shaders[order[j]] == old(shaders)[order[j]]
      {
        var r := LoadShader(order[i], created[i], defineOrders[i], compiles[i]);
        if r.Err? {
          assert !(order[i] in configs && compiles[i].Linked?);
          return Err(r.error);
        }
        i := i + 1;
      }
      status := Ok(());
    }

    /** cleanup: both the cache and the config table emptied. */
    method Cleanup()
      modifies this
      ensures shaders == map[] && configs == map[]
    {
      shaders := map[];
      configs := map[];
    }
  }

  /** The walk of loadConfigs over the document's members, from a cleared table. */
  method WalkEntries(es: seq<(string, Json)>, files: set<string>) returns (m: map<string, ShaderConfig>, status: Result<()>)
    ensures (m, status) == Load(es, files)
  {
    m := map[];
    var i := 0;
    while i < |es|
      invariant 0 <= i <= |es|
      invariant Load(es[..i], files) == (m, Ok(()))
    {
      LoadSnoc(es, i, files);
      var (name, data) := es[i];
      var entry := ReadEntry(name, data, files);
      if entry.Err? {
        LoadTail(es, i + 1, files);
        assert es[..|es|] == es;
        return m, Err(entry.error);
      }
      m := m[name := entry.value];
      i := i + 1;
    }
    assert es[..i] == es;
    status := Ok(());
  }

  /** Once the walk has failed, later entries change nothing. */
  lemma {:induction false} LoadTail(es: seq<(string, Json)>, i: nat, files: set<string>)
    requires i <= |es| && Load(es[..i], files).1.Err?
    ensures Load(es, files) == Load(es[..i], files)
    decreases |es| - i
  {
    if i < |es| {
      LoadSnoc(es, i, files);
      LoadTail(es, i + 1, files);
    } else {
      assert es[..i] == es;
    }
  }
}
