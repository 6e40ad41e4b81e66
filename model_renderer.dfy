/**
 * Model import (CLC/CORE/RenderComponents/ModelRenderer.cpp): the scene an
 * importer produced is flattened into a list of meshes, walking the node
 * tree depth-first, a node's own meshes before its children's.
 *
 * The importer is an input: `loadModel` receives what ReadFile returned
 * (None for a null scene). The scene's references are resolved: a node
 * holds the meshes its mesh indices name in the scene, a mesh holds the
 * material its material index names, and a mesh's parallel vertex arrays
 * are one record per vertex with flags saying whether normals and texture
 * coordinates are present. glGenTextures is modelled as handing out
 * consecutive texture names, the first texture of a load getting the name
 * `first`; decoding and uploading the image file is not part of this model.
 */
module ModelRenderers {
  import opened Glm
  import opened Sequences
  import opened RenderComponents

  /** One vertex of an imported mesh; normal and uv are meaningful only when the mesh has them. */
  datatype AiVertex = AiVertex(position: Vec3, normal: Vec3, texCoord: Vec3)

  /** The texture paths of a material, by texture type. */
  datatype AiMaterial = AiMaterial(diffuse: seq<string>, specular: seq<string>)

  /** An imported mesh: its vertices, its faces' index lists and its material. */
  datatype AiMesh = AiMesh(
    vertices: seq<AiVertex>,
    hasNormals: bool,
    /** Whether the first texture-coordinate channel is present. */
    hasTexCoords: bool,
    faces: seq<seq<nat>>,
    material: AiMaterial)

  /** A node of the scene tree: its meshes and its child nodes. */
  datatype AiNode = AiNode(meshes: seq<AiMesh>, children: seq<AiNode>)

  datatype AiScene = AiScene(incomplete: bool, root: Option<AiNode>)

  /** A vertex of a loaded mesh; a normal the mesh does not have is left unset. */
  datatype MeshVertex = MeshVertex(position: Vec3, normal: Option<Vec3>, texCoords: Vec2)

  /** A texture of a loaded mesh: GL name, type name, path as the material gives it. */
  datatype MaterialTexture = MaterialTexture(id: nat, kind: string, path: string)

  datatype Mesh = Mesh(vertices: seq<MeshVertex>, indices: seq<nat>, textures: seq<MaterialTexture>)

  datatype LoadResult = Loaded | ImportFailed

  const DiffuseType := "texture_diffuse"
  const SpecularType := "texture_specular"

  /** The import succeeded: a scene, not flagged incomplete, with a root node. */
  predicate Imported(imported: Option<AiScene>)
  {
    imported.Some? && !imported.value.incomplete && imported.value.root.Some?
  }

  // ---------------------------------------------------------------------
  // The model's directory
  // ---------------------------------------------------------------------

  /** The position of the last c in s (find_last_of), None when there is none. */
  function LastIndexOf(s: string, c: char): (r: Option<nat>)
    ensures r.None? <==> c !in s
    ensures r.Some? ==> r.value < |s| && s[r.value] == c && c !in s[r.value + 1..]
  {
    if |s| == 0 then None
    else if s[|s| - 1] == c then
      assert s[|s|..] == [];
      Some(|s| - 1)
    else
      var r := LastIndexOf(s[..|s| - 1], c);
      assert s == s[..|s| - 1] + [s[|s| - 1]];
      if r.Some? then
        assert s[r.value + 1..] == s[..|s| - 1][r.value + 1..] + [s[|s| - 1]];
        r
      else r
  }

  /**
   * The directory of a path: what precedes its last '/', or the whole path
   * when it has none (substr with npos).
   */
  function Directory(path: string): (dir: string)
    ensures '/' !in path ==> dir == path
    ensures '/' in path ==>
      |dir| < |path| && path[..|dir|] == dir && path[|dir|] == '/' && '/' !in path[|dir| + 1..]
  {
    match LastIndexOf(path, '/')
    case None => path
    case Some(k) => path[..k]
  }

  /** A c with no c after it is the last one. */
  lemma {:induction false} LastIndexOfIsLast(s: string, c: char, j: nat)
    requires j < |s| && s[j] == c
    requires forall k :: j < k < |s| ==> s[k] != c
    ensures LastIndexOf(s, c) == Some(j)
  {
    if j < |s| - 1 {
      LastIndexOfIsLast(s[..|s| - 1], c, j);
    }
  }

  /** A file name joined to a directory gives that directory back. */
  lemma DirectoryOfJoin(dir: string, file: string)
    requires '/' !in file
    ensures Directory(dir + "/" + file) == dir
  {
    var path := dir + "/" + file;
    forall k | |dir| < k < |path|
      ensures path[k] != '/'
    {
      assert path[k] == file[k - |dir| - 1];
    }
    LastIndexOfIsLast(path, '/', |dir|);
    assert path[..|dir|] == dir;
  }

  // ---------------------------------------------------------------------
  // Mesh conversion
  // ---------------------------------------------------------------------

  /** A source vertex converted: its position, its normal if any, its first UV or (0, 0). */
  function ConvertVertex(v: AiVertex, hasNormals: bool, hasTexCoords: bool): MeshVertex
  {
    MeshVertex(
      v.position,
      if hasNormals then Some(v.normal) else None,
      if hasTexCoords then Vec2(v.texCoord.x, v.texCoord.y) else Zero2)
  }

  /** The first n vertices of a mesh, converted. */
  function Vertices(m: AiMesh, n: nat): (vs: seq<MeshVertex>)
    requires n <= |m.vertices|
  {
    if n == 0 then [] else Vertices(m, n - 1) + [ConvertVertex(m.vertices[n - 1], m.hasNormals, m.hasTexCoords)]
  }

  /** One vertex per source vertex, in source order, with the source's data. */
  lemma {:induction false} VerticesFollowSource(m: AiMesh, n: nat)
    requires n <= |m.vertices|
    ensures |Vertices(m, n)| == n
    ensures forall i :: 0 <= i < n ==>
      Vertices(m, n)[i].position == m.vertices[i].position
      && (Vertices(m, n)[i].normal.Some? <==> m.hasNormals)
      && (m.hasNormals ==> Vertices(m, n)[i].normal == Some(m.vertices[i].normal))
      && (!m.hasTexCoords ==> Vertices(m, n)[i].texCoords == Vec2(0.0, 0.0))
      && (m.hasTexCoords ==>
            Vertices(m, n)[i].texCoords.x == m.vertices[i].texCoord.x
            && Vertices(m, n)[i].texCoords.y == m.vertices[i].texCoord.y)
  {
    if n > 0 {
      VerticesFollowSource(m, n - 1);
    }
  }

  /** The faces' index lists, one after another. */
  function Flatten(faces: seq<seq<nat>>): (indices: seq<nat>)
  {
    if faces == [] then [] else Flatten(faces[..|faces| - 1]) + faces[|faces| - 1]
  }

  lemma {:induction false} FlattenAppend(a: seq<seq<nat>>, b: seq<seq<nat>>)
    ensures Flatten(a + b) == Flatten(a) + Flatten(b)
    decreases |b|
  {
    if b != [] {
      assert (a + b)[..|a + b| - 1] == a + b[..|b| - 1];
      FlattenAppend(a, b[..|b| - 1]);
    } else {
      assert a + b == a;
    }
  }

  /** Triangulated faces: three indices per face, face k at 3k .. 3k + 2. */
  lemma {:induction false} FlattenTriangles(faces: seq<seq<nat>>)
    requires forall k :: 0 <= k < |faces| ==> |faces[k]| == 3
    ensures |Flatten(faces)| == 3 * |faces|
    ensures forall k, j :: 0 <= k < |faces| && 0 <= j < 3 ==> Flatten(faces)[3 * k + j] == faces[k][j]
  {
    if faces != [] {
      FlattenTriangles(faces[..|faces| - 1]);
    }
  }

  /** The textures of one type for the first n paths: the k-th gets the GL name first + k. */
  function MaterialTextures(paths: seq<string>, n: nat, kind: string, first: nat): (ts: seq<MaterialTexture>)
    requires n <= |paths|
  {
    if n == 0 then []
    else MaterialTextures(paths, n - 1, kind, first) + [MaterialTexture(first + n - 1, kind, paths[n - 1])]
  }

  lemma {:induction false} MaterialTexturesAt(paths: seq<string>, n: nat, kind: string, first: nat)
    requires n <= |paths|
    ensures |MaterialTextures(paths, n, kind, first)| == n
    ensures forall k :: 0 <= k < n ==>
      MaterialTextures(paths, n, kind, first)[k] == MaterialTexture(first + k, kind, paths[k])
  {
    if n > 0 {
      MaterialTexturesAt(paths, n - 1, kind, first);
    }
  }

  function MeshTextures(material: AiMaterial, first: nat): seq<MaterialTexture>
  {
    MaterialTextures(material.diffuse, |material.diffuse|, DiffuseType, first)
      + MaterialTextures(material.specular, |material.specular|, SpecularType, first + |material.diffuse|)
  }

  /** Diffuse textures in material order, then specular ones in material order, each with the next GL name. */
  lemma DiffuseBeforeSpecular(material: AiMaterial, first: nat)
    ensures var ts := MeshTextures(material, first);
      |ts| == |material.diffuse| + |material.specular|
      && (forall k :: 0 <= k < |material.diffuse| ==>
            ts[k].kind == DiffuseType && ts[k].path == material.diffuse[k])
      && (forall k :: 0 <= k < |material.specular| ==>
            ts[|material.diffuse| + k].kind == SpecularType
            && ts[|material.diffuse| + k].path == material.specular[k])
      && (forall k :: 0 <= k < |ts| ==> ts[k].id == first + k)
  {
    MaterialTexturesAt(material.diffuse, |material.diffuse|, DiffuseType, first);
    MaterialTexturesAt(material.specular, |material.specular|, SpecularType, first + |material.diffuse|);
  }

  function TextureCount(m: AiMesh): nat
  {
    |m.material.diffuse| + |m.material.specular|
  }

  /** What processMesh makes of a mesh, its textures named from `first` on. */
  function MeshOf(m: AiMesh, first: nat): Mesh
  {
    Mesh(Vertices(m, |m.vertices|), Flatten(m.faces), MeshTextures(m.material, first))
  }

  /** The inner loop of loadMaterialTextures over one texture type. */
  method LoadMaterialTextures(paths: seq<string>, kind: string, first: nat)
    returns (textures: seq<MaterialTexture>)
    ensures textures == MaterialTextures(paths, |paths|, kind, first)
  {
    textures := [];
    var i := 0;
    while i < |paths|
      invariant 0 <= i <= |paths|
      invariant textures == MaterialTextures(paths, i, kind, first)
    {
      textures := textures + [MaterialTexture(first + i, kind, paths[i])];
      i := i + 1;
    }
  }

  /** processMesh: the vertex loop, the face loop, then diffuse and specular textures. */
  method ProcessMesh(m: AiMesh, first: nat) returns (mesh: Mesh, next: nat)
    ensures mesh == MeshOf(m, first)
    ensures next == first + TextureCount(m)
  {
    var vertices := [];
    var i := 0;
    while i < |m.vertices|
      invariant 0 <= i <= |m.vertices|
      invariant vertices == Vertices(m, i)
    {
      var v := m.vertices[i];
      var normal := if m.hasNormals then Some(v.normal) else None;
      var uv := if m.hasTexCoords then Vec2(v.texCoord.x, v.texCoord.y) else Zero2;
      vertices := vertices + [MeshVertex(v.position, normal, uv)];
      i := i + 1;
    }
    var indices := [];
    var f := 0;
    while f < |m.faces|
      invariant 0 <= f <= |m.faces|
      invariant indices == Flatten(m.faces[..f])
    {
      var face := m.faces[f];
      var j := 0;
      while j < |face|
        invariant 0 <= j <= |face|
        invariant indices == Flatten(m.faces[..f]) + face[..j]
      {
        indices := indices + [face[j]];
        j := j + 1;
      }
      assert m.faces[..f + 1][..f] == m.faces[..f];
      assert face[..j] == face;
      f := f + 1;
    }
    assert m.faces[..f] == m.faces;
    // mMaterialIndex is unsigned, so the material branch is always taken.
    var diffuse := LoadMaterialTextures(m.material.diffuse, DiffuseType, first);
    var specular := LoadMaterialTextures(m.material.specular, SpecularType, first + |diffuse|);
    MaterialTexturesAt(m.material.diffuse, |m.material.diffuse|, DiffuseType, first);
    MaterialTexturesAt(m.material.specular, |m.material.specular|, SpecularType, first + |diffuse|);
    mesh := Mesh(vertices, indices, diffuse + specular);
    next := first + |diffuse| + |specular|;
  }

  // ---------------------------------------------------------------------
  // Node traversal
  // ---------------------------------------------------------------------

  /** The meshes of a subtree, a node's own before its children's, children left to right. */
  function PreOrder(node: AiNode): (order: seq<AiMesh>)
    decreases node, 1
  {
    node.meshes + PreOrderAll(node.children)
  }

  /** The pre-order meshes of a list of sibling subtrees, left to right. */
  function PreOrderAll(nodes: seq<AiNode>): (order: seq<AiMesh>)
    decreases nodes, 0
  {
    if nodes == [] then [] else PreOrderAll(nodes[..|nodes| - 1]) + PreOrder(nodes[|nodes| - 1])
  }

  /** Walking one more child appends that child's subtree. */
  lemma PreOrderAllSnoc(nodes: seq<AiNode>, c: nat)
    requires c < |nodes|
    ensures PreOrderAll(nodes[..c + 1]) == PreOrderAll(nodes[..c]) + PreOrder(nodes[c])
  {
    assert nodes[..c + 1][..c] == nodes[..c];
  }

  /** The nodes of a subtree in depth-first order, parents before children. */
  function Subtrees(node: AiNode): (nodes: seq<AiNode>)
    decreases node, 1
  {
    [node] + SubtreesAll(node.children)
  }

  function SubtreesAll(nodes: seq<AiNode>): (all: seq<AiNode>)
    decreases nodes, 0
  {
    if nodes == [] then [] else SubtreesAll(nodes[..|nodes| - 1]) + Subtrees(nodes[|nodes| - 1])
  }

  /** The meshes of the listed nodes, node by node. */
  function OwnMeshes(nodes: seq<AiNode>): (order: seq<AiMesh>)
  {
    if nodes == [] then [] else OwnMeshes(nodes[..|nodes| - 1]) + nodes[|nodes| - 1].meshes
  }

  lemma {:induction false} OwnMeshesAppend(a: seq<AiNode>, b: seq<AiNode>)
    ensures OwnMeshes(a + b) == OwnMeshes(a) + OwnMeshes(b)
    decreases |b|
  {
    if b == [] {
      assert a + b == a;
    } else {
      assert (a + b)[..|a + b| - 1] == a + b[..|b| - 1];
      OwnMeshesAppend(a, b[..|b| - 1]);
    }
  }

  /** The collected mesh order is every node's meshes, visiting the nodes depth-first. */
  lemma {:induction false} PreOrderVisitsDepthFirst(node: AiNode)
    ensures PreOrder(node) == OwnMeshes(Subtrees(node))
    decreases node, 1
  {
    PreOrderAllVisitsDepthFirst(node.children);
    OwnMeshesAppend([node], SubtreesAll(node.children));
    assert OwnMeshes([node]) == node.meshes by {
      assert [node][..0] == [];
    }
  }

  lemma {:induction false} PreOrderAllVisitsDepthFirst(nodes: seq<AiNode>)
    ensures PreOrderAll(nodes) == OwnMeshes(SubtreesAll(nodes))
    decreases nodes, 0
  {
    if nodes != [] {
      PreOrderAllVisitsDepthFirst(nodes[..|nodes| - 1]);
      PreOrderVisitsDepthFirst(nodes[|nodes| - 1]);
      OwnMeshesAppend(SubtreesAll(nodes[..|nodes| - 1]), Subtrees(nodes[|nodes| - 1]));
    }
  }

  /** The textures of the listed meshes together. */
  function TextureTotal(order: seq<AiMesh>): nat
  {
    if order == [] then 0 else TextureTotal(order[..|order| - 1]) + TextureCount(order[|order| - 1])
  }

  /** The listed meshes processed in order, texture names handed out from `first` on. */
  function BuildMeshes(order: seq<AiMesh>, first: nat): (meshes: seq<Mesh>)
  {
    if order == [] then []
    else
      var init := order[..|order| - 1];
      BuildMeshes(init, first) + [MeshOf(order[|order| - 1], first + TextureTotal(init))]
  }

  /** Processing one more mesh appends its conversion, its textures named after those before it. */
  lemma BuildMeshesSnoc(done: seq<AiMesh>, m: AiMesh, first: nat)
    ensures TextureTotal(done + [m]) == TextureTotal(done) + TextureCount(m)
    ensures BuildMeshes(done + [m], first)
      == BuildMeshes(done, first) + [MeshOf(m, first + TextureTotal(done))]
  {
    assert (done + [m])[..|done|] == done;
  }

  lemma {:induction false} BuildMeshesAppend(a: seq<AiMesh>, b: seq<AiMesh>, first: nat)
    ensures TextureTotal(a + b) == TextureTotal(a) + TextureTotal(b)
    ensures BuildMeshes(a + b, first)
      == BuildMeshes(a, first) + BuildMeshes(b, first + TextureTotal(a))
    decreases |b|
  {
    if b == [] {
      assert a + b == a;
    } else {
      var init := b[..|b| - 1];
      assert (a + b)[..|a + b| - 1] == a + init;
      BuildMeshesAppend(a, init, first);
    }
  }

  /** A subtree's meshes appended after those of `done` are the meshes of `done + sub`. */
  lemma AppendSubtree(done: seq<AiMesh>, sub: seq<AiMesh>, first: nat,
                      start: seq<Mesh>, before: seq<Mesh>, after: seq<Mesh>, next: nat)
    requires before == start + BuildMeshes(done, first)
    requires after == before + BuildMeshes(sub, first + TextureTotal(done))
    requires next == first + TextureTotal(done) + TextureTotal(sub)
    ensures after == start + BuildMeshes(done + sub, first)
    ensures next == first + TextureTotal(done + sub)
  {
    BuildMeshesAppend(done, sub, first);
  }

  lemma {:induction false} BuildMeshesLength(order: seq<AiMesh>, first: nat)
    ensures |BuildMeshes(order, first)| == |order|
  {
    if order != [] {
      BuildMeshesLength(order[..|order| - 1], first);
    }
  }

  /**
   * Mesh k of the result is the conversion of order[k], its textures named
   * right after those of the meshes before it.
   */
  lemma {:induction false} BuildMeshesAt(order: seq<AiMesh>, first: nat, k: nat)
    requires k < |order|
    ensures |BuildMeshes(order, first)| == |order|
    ensures BuildMeshes(order, first)[k] == MeshOf(order[k], first + TextureTotal(order[..k]))
  {
    var init := order[..|order| - 1];
    BuildMeshesLength(order, first);
    BuildMeshesLength(init, first);
    if k < |init| {
      BuildMeshesAt(init, first, k);
      assert order[..k] == init[..k];
    } else {
      assert order[..k] == init;
    }
  }

  // ---------------------------------------------------------------------
  // The renderer
  // ---------------------------------------------------------------------

  /** A render component drawing an imported model. */
  class ModelRenderer {
    const base: RenderComponent
    var path: string
    var directory: string
    var meshes: seq<Mesh>

    constructor (path: string)
      ensures this.path == path && directory == "" && meshes == []
      ensures fresh(base)
    {
      base := new RenderComponent();
      this.path := path;
      directory := "";
      meshes := [];
    }

    method SetPath(path: string)
      modifies this
      ensures this.path == path && directory == old(directory) && meshes == old(meshes)
    {
      this.path := path;
    }

    /** The first loop of processNode: the node's own meshes, in order, appended to `meshes`. */
    method ProcessNodeMeshes(order: seq<AiMesh>, first: nat) returns (next: nat)
      modifies this
      ensures meshes == old(meshes) + BuildMeshes(order, first)
      ensures next == first + TextureTotal(order)
      ensures path == old(path) && directory == old(directory)
    {
      next := first;
      var i := 0;
      while i < |order|
        invariant 0 <= i <= |order|
        invariant meshes == old(meshes) + BuildMeshes(order[..i], first)
        invariant next == first + TextureTotal(order[..i])
        invariant path == old(path) && directory == old(directory)
      {
        var mesh;
        mesh, next := ProcessMesh(order[i], next);
        meshes := meshes + [mesh];
        BuildMeshesSnoc(order[..i], order[i], first);
        assert order[..i + 1] == order[..i] + [order[i]];
        i := i + 1;
      }
      assert order[..i] == order;
    }

    /** The second loop of processNode: each child's subtree in turn, left to right. */
    method ProcessChildren(nodes: seq<AiNode>, first: nat) returns (next: nat)
      modifies this
      ensures meshes == old(meshes) + BuildMeshes(PreOrderAll(nodes), first)
      ensures next == first + TextureTotal(PreOrderAll(nodes))
      ensures path == old(path) && directory == old(directory)
      decreases nodes, 0
    {
      next := first;
      ghost var done: seq<AiMesh> := [];
      assert nodes[..0] == [];
      var c := 0;
      while c < |nodes|
        invariant 0 <= c <= |nodes|
        invariant done == PreOrderAll(nodes[..c])
        invariant meshes == old(meshes) + BuildMeshes(done, first)
        invariant next == first + TextureTotal(done)
        invariant path == old(path) && directory == old(directory)
      {
        ghost var before := meshes;
        next := ProcessNode(nodes[c], next);
        AppendSubtree(done, PreOrder(nodes[c]), first, old(meshes), before, meshes, next);
        PreOrderAllSnoc(nodes, c);
        done := done + PreOrder(nodes[c]);
        c := c + 1;
      }
      assert nodes[..c] == nodes;
    }

    /** processNode: this node's meshes, then each child's subtree, appended to `meshes`. */
    method ProcessNode(node: AiNode, first: nat) returns (next: nat)
      modifies this
      ensures meshes == old(meshes) + BuildMeshes(PreOrder(node), first)
      ensures next == first + TextureTotal(PreOrder(node))
      ensures path == old(path) && directory == old(directory)
      decreases node, 1
    {
      ghost var start := meshes;
      next := ProcessNodeMeshes(node.meshes, first);
      ghost var before := meshes;
      next := ProcessChildren(node.children, next);
      AppendSubtree(node.meshes, PreOrderAll(node.children), first, start, before, meshes, next);
    }

    /**
     * loadModel: a failed import throws and changes nothing; otherwise the
     * directory is set from the path and the root's subtree is appended.
     */
    method LoadModel(imported: Option<AiScene>) returns (r: LoadResult)
      modifies this
      ensures r == Loaded <==> Imported(imported)
      ensures r == ImportFailed ==> directory == old(directory) && meshes == old(meshes)
      ensures r == Loaded ==>
        directory == Directory(path)
        && meshes == old(meshes) + BuildMeshes(PreOrder(imported.value.root.value), 0)
      ensures path == old(path)
    {
      if !Imported(imported) {
        return ImportFailed;
      }
      directory := Directory(path);
      var _ := ProcessNode(imported.value.root.value, 0);
      r := Loaded;
    }
  }
}
