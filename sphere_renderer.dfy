/**
 * The UV-sphere mesh (CLC/CORE/RenderComponents/SphereRenderer.cpp and the
 * older CLC/CORE/SphereRenderer.hpp): a vertex array of (stacks+1) rows of
 * (sectors+1) vertices, six floats each (position, then normal), and an
 * index array sized for two triangles per quad of which the pole rows fill
 * only one, leaving a zero tail.
 *
 * The buffers are std::vectors resized (zero-filled) and then written by
 * index; here they are arrays allocated zero-filled and written the same
 * way. Counts are unsigned 32-bit in the source; the model requires the
 * vertex float count to fit, so that nothing wraps.
 */
module SphereRenderers {
  import opened Glm
  import opened Gl
  import opened Sequences
  import opened ShaderPrograms
  import opened ShaderManagers
  import opened RenderComponents

  /** The M_PI the source defines. */
  const Pi: real := 3.14159265359
  const SphereShader: string := "sphere"
  const UInt32Limit: int := 0x1_0000_0000

  /** The vertex and index counts, and every index value, fit in an unsigned int. */
  predicate CountsFit(sectors: nat, stacks: nat)
  {
    6 * ((stacks + 1) * (sectors + 1)) < UInt32Limit
  }

  /** c * a <= c * b for a <= b. */
  lemma {:induction false} MulMono(a: nat, b: nat, c: nat)
    requires a <= b
    ensures c * a <= c * b
  {
    if c != 0 {
      MulMono(a, b, c - 1);
      assert c * a == (c - 1) * a + a;
      assert c * b == (c - 1) * b + b;
    }
  }

  /** One mesh vertex: its position and its normal. */
  datatype Vertex = Vertex(position: Vec3, normal: Vec3)

  /** A vertex as it is laid out in the buffer: three position floats, then three normal floats. */
  function Floats(v: Vertex): (fs: seq<real>)
    ensures |fs| == 6
  {
    [v.position.x, v.position.y, v.position.z, v.normal.x, v.normal.y, v.normal.z]
  }

  /**
   * Vertex j of stack row i: the point of the sphere at stack angle
   * pi/2 - i * pi/stacks and sector angle j * 2pi/sectors, with the normal
   * that point times 1/radius.
   */
  function VertexAt(radius: real, sectors: nat, stacks: nat, i: nat, j: nat): Vertex
  {
    var stackAngle := Pi / 2.0 - (i as real) * FDiv(Pi, stacks as real);
    var xy := radius * Cos(stackAngle);
    var z := radius * Sin(stackAngle);
    var sectorAngle := (j as real) * FDiv(2.0 * Pi, sectors as real);
    var x := xy * Cos(sectorAngle);
    var y := xy * Sin(sectorAngle);
    var lengthInv := FDiv(1.0, radius);
    Vertex(Vec3(x, y, z), Vec3(x * lengthInv, y * lengthInv, z * lengthInv))
  }

  /** For a non-zero radius the normal is the position divided by the radius. */
  lemma NormalIsPositionOverRadius(radius: real, sectors: nat, stacks: nat, i: nat, j: nat)
    requires radius != 0.0
    ensures var v := VertexAt(radius, sectors, stacks, i, j);
      Mul(v.normal, radius) == v.position
  {
    var v := VertexAt(radius, sectors, stacks, i, j);
    var inv := FDiv(1.0, radius);
    assert inv * radius == 1.0;
    assert v.normal.x * radius == v.position.x * (inv * radius);
    assert v.normal.y * radius == v.position.y * (inv * radius);
    assert v.normal.z * radius == v.position.z * (inv * radius);
  }

  /**
   * The vertices of a grid, by stack row and sector. The buffer layout
   * below holds for any such grid; the sphere's is SphereGrid.
   */
  type Grid = (nat, nat) -> Vertex

  function SphereGrid(radius: real, sectors: nat, stacks: nat): Grid
  {
    (i: nat, j: nat) => VertexAt(radius, sectors, stacks, i, j)
  }

  /** The floats of the first n vertices of stack row i. */
  function RowVertices(grid: Grid, i: nat, n: nat): (vs: seq<real>)
    ensures |vs| == 6 * n
  {
    if n == 0 then [] else RowVertices(grid, i, n - 1) + Floats(grid(i, n - 1))
  }

  /** The floats of the first `rows` stack rows, each of sectors + 1 vertices. */
  function SphereVertices(grid: Grid, sectors: nat, rows: nat): (vs: seq<real>)
  {
    if rows == 0 then []
    else SphereVertices(grid, sectors, rows - 1) + RowVertices(grid, rows - 1, sectors + 1)
  }

  /** Each row holds 6 * (sectors + 1) floats. */
  lemma {:induction false} SphereVerticesLength(grid: Grid, sectors: nat, rows: nat)
    ensures |SphereVertices(grid, sectors, rows)| == 6 * (rows * (sectors + 1))
  {
    if rows != 0 {
      SphereVerticesLength(grid, sectors, rows - 1);
      assert rows * (sectors + 1) == (rows - 1) * (sectors + 1) + sectors + 1;
    }
  }

  lemma {:induction false} RowVerticesPrefix(grid: Grid, i: nat, n: nat, m: nat)
    requires n <= m
    ensures RowVertices(grid, i, m)[..6 * n] == RowVertices(grid, i, n)
    decreases m
  {
    if n < m {
      RowVerticesPrefix(grid, i, n, m - 1);
    }
  }

  lemma {:induction false} SphereVerticesPrefix(grid: Grid, sectors: nat, k: nat, rows: nat)
    requires k <= rows
    ensures |SphereVertices(grid, sectors, k)| <= |SphereVertices(grid, sectors, rows)|
    ensures SphereVertices(grid, sectors, rows)[..|SphereVertices(grid, sectors, k)|] == SphereVertices(grid, sectors, k)
    decreases rows
  {
    if k < rows {
      SphereVerticesPrefix(grid, sectors, k, rows - 1);
    }
  }

  /** Vertex j of a row occupies the row's floats 6j .. 6j+5. */
  lemma RowVertexAt(grid: Grid, sectors: nat, i: nat, j: nat)
    requires j <= sectors
    ensures 6 * j + 6 <= |RowVertices(grid, i, sectors + 1)|
    ensures RowVertices(grid, i, sectors + 1)[6 * j..6 * j + 6] == Floats(grid(i, j))
  {
    RowVerticesPrefix(grid, i, j + 1, sectors + 1);
    var row := RowVertices(grid, i, sectors + 1);
    assert row[..6 * j + 6] == RowVertices(grid, i, j) + Floats(grid(i, j));
    assert row[6 * j..6 * j + 6] == row[..6 * j + 6][6 * j..];
  }

  /** Stack row i follows the rows before it. */
  lemma SphereRowAt(grid: Grid, sectors: nat, stacks: nat, i: nat)
    requires i <= stacks
    ensures var start := |SphereVertices(grid, sectors, i)|;
      start + 6 * (sectors + 1) <= |SphereVertices(grid, sectors, stacks + 1)|
      && SphereVertices(grid, sectors, stacks + 1)[start..start + 6 * (sectors + 1)] == RowVertices(grid, i, sectors + 1)
  {
    SphereVerticesPrefix(grid, sectors, i + 1, stacks + 1);
    var all := SphereVertices(grid, sectors, stacks + 1);
    var upTo := SphereVertices(grid, sectors, i + 1);
    var start := |SphereVertices(grid, sectors, i)|;
    assert all[start..start + 6 * (sectors + 1)] == all[..|upTo|][start..];
  }

  /** Where s holds t from offset a, a slice of t is the slice of s shifted by a. */
  lemma SliceWithin<T>(s: seq<T>, a: nat, t: seq<T>, c: nat, d: nat)
    requires a + |t| <= |s| && s[a..a + |t|] == t && c <= d <= |t|
    ensures s[a + c..a + d] == t[c..d]
  {
    forall k | 0 <= k < d - c
      ensures s[a + c..a + d][k] == t[c..d][k]
    {
      assert s[a + c + k] == s[a..a + |t|][c + k];
    }
  }

  /** The offset of vertex (i, j): the floats of the rows before it, then j vertices. */
  lemma VertexOffset(grid: Grid, sectors: nat, i: nat, j: nat)
    ensures 6 * (i * (sectors + 1) + j) == |SphereVertices(grid, sectors, i)| + 6 * j
  {
    SphereVerticesLength(grid, sectors, i);
  }

  /** Vertex j of stack row i follows the rows before it and the j vertices before it in its row. */
  lemma VertexInRow(grid: Grid, sectors: nat, stacks: nat, i: nat, j: nat)
    requires i <= stacks && j <= sectors
    ensures var o := |SphereVertices(grid, sectors, i)| + 6 * j;
      o + 6 <= |SphereVertices(grid, sectors, stacks + 1)|
      && SphereVertices(grid, sectors, stacks + 1)[o..o + 6] == Floats(grid(i, j))
  {
    var all := SphereVertices(grid, sectors, stacks + 1);
    var row := RowVertices(grid, i, sectors + 1);
    var start := |SphereVertices(grid, sectors, i)|;
    SphereRowAt(grid, sectors, stacks, i);
    RowVertexAt(grid, sectors, i, j);
    SliceWithin(all, start, row, 6 * j, 6 * j + 6);
  }

  /** Vertex (i, j) occupies the six floats at offset 6 * (i * (sectors + 1) + j). */
  lemma VertexLayout(grid: Grid, sectors: nat, stacks: nat, i: nat, j: nat)
    requires i <= stacks && j <= sectors
    ensures var o := 6 * (i * (sectors + 1) + j);
      o + 6 <= |SphereVertices(grid, sectors, stacks + 1)|
      && SphereVertices(grid, sectors, stacks + 1)[o..o + 6] == Floats(grid(i, j))
  {
    VertexOffset(grid, sectors, i, j);
    VertexInRow(grid, sectors, stacks, i, j);
  }

  /**
   * The triangles of one quad whose corners are k1, k1+1 on stack row i and
   * k2, k2+1 on the row below: (k1, k2, k1+1) except on the first row, then
   * (k1+1, k2, k2+1) except on the last row.
   */
  function Triangles(stacks: nat, i: nat, k1: int, k2: int): (t: seq<int>)
    ensures |t| == (if i != 0 then 3 else 0) + (if i != stacks - 1 then 3 else 0)
  {
    (if i != 0 then [k1, k2, k1 + 1] else []) + (if i != stacks - 1 then [k1 + 1, k2, k2 + 1] else [])
  }

  /** The quad between stack rows i and i+1 at sector j. */
  function Quad(stacks: nat, sectors: nat, i: nat, j: nat): (q: seq<int>)
  {
    var k1 := i * (sectors + 1) + j;
    Triangles(stacks, i, k1, k1 + sectors + 1)
  }

  /** The indices of the first n quads of stack row i. */
  function RowIndices(stacks: nat, sectors: nat, i: nat, n: nat): (r: seq<int>)
    ensures |r| == (if i != 0 then 3 * n else 0) + (if i != stacks - 1 then 3 * n else 0)
  {
    if n == 0 then [] else RowIndices(stacks, sectors, i, n - 1) + Quad(stacks, sectors, i, n - 1)
  }

  /** The indices of the first `rows` stack rows. */
  function SphereIndices(stacks: nat, sectors: nat, rows: nat): (r: seq<int>)
  {
    if rows == 0 then []
    else SphereIndices(stacks, sectors, rows - 1) + RowIndices(stacks, sectors, rows - 1, sectors)
  }

  /** The rows up to `rows` hold 6 * sectors * (rows - 1) indices, plus 3 * sectors while the last row is not reached. */
  lemma {:induction false} SphereIndicesLength(stacks: nat, sectors: nat, rows: nat)
    requires 1 <= rows <= stacks
    ensures |SphereIndices(stacks, sectors, rows)| == 6 * (sectors * (rows - 1)) + (if rows < stacks then 3 * sectors else 0)
  {
    if rows > 1 {
      SphereIndicesLength(stacks, sectors, rows - 1);
      assert sectors * (rows - 1) == sectors * (rows - 2) + sectors;
    }
  }

  /** Exactly 6 * sectors * (stacks - 1) indices are written: none at all for one stack or none. */
  lemma IndexCount(stacks: nat, sectors: nat)
    ensures |SphereIndices(stacks, sectors, stacks)| == if stacks == 0 then 0 else 6 * (sectors * (stacks - 1))
    ensures |SphereIndices(stacks, sectors, stacks)| <= 6 * (stacks * sectors)
  {
    if stacks != 0 {
      SphereIndicesLength(stacks, sectors, stacks);
    }
  }

  /** The index buffer, sized 6 * stacks * sectors, holds every written index. */
  lemma IndexCapacity(stacks: nat, sectors: nat)
    ensures |SphereIndices(stacks, sectors, stacks)| <= 6 * (stacks * sectors)
  {
    IndexCount(stacks, sectors);
  }

  /** Every index of a quad names a vertex of the mesh. */
  lemma QuadBound(stacks: nat, sectors: nat, i: nat, j: nat)
    requires i < stacks && j < sectors
    ensures forall x | x in Quad(stacks, sectors, i, j) :: 0 <= x < (stacks + 1) * (sectors + 1)
  {
    MulMono(i + 2, stacks + 1, sectors + 1);
    assert (i + 2) * (sectors + 1) == i * (sectors + 1) + 2 * (sectors + 1);
  }

  lemma {:induction false} RowIndicesBound(stacks: nat, sectors: nat, i: nat, n: nat)
    requires i < stacks && n <= sectors
    ensures forall x | x in RowIndices(stacks, sectors, i, n) :: 0 <= x < (stacks + 1) * (sectors + 1)
  {
    if n != 0 {
      RowIndicesBound(stacks, sectors, i, n - 1);
      QuadBound(stacks, sectors, i, n - 1);
    }
  }

  /** Every written index is below the vertex count (stacks + 1) * (sectors + 1). */
  lemma {:induction false} IndexBound(stacks: nat, sectors: nat, rows: nat)
    requires rows <= stacks
    ensures forall x | x in SphereIndices(stacks, sectors, rows) :: 0 <= x < (stacks + 1) * (sectors + 1)
  {
    if rows != 0 {
      IndexBound(stacks, sectors, rows - 1);
      RowIndicesBound(stacks, sectors, rows - 1, sectors);
    }
  }

  /** Later rows only add indices. */
  lemma {:induction false} SphereIndicesGrow(stacks: nat, sectors: nat, k: nat, rows: nat)
    requires k <= rows
    ensures |SphereIndices(stacks, sectors, k)| <= |SphereIndices(stacks, sectors, rows)|
    decreases rows
  {
    if k < rows {
      SphereIndicesGrow(stacks, sectors, k, rows - 1);
    }
  }

  /** Row i extends the indices of the rows before it, within those of all the rows. */
  lemma IndexRowFits(stacks: nat, sectors: nat, i: nat)
    requires i < stacks
    ensures SphereIndices(stacks, sectors, i + 1) == SphereIndices(stacks, sectors, i) + RowIndices(stacks, sectors, i, sectors)
    ensures |SphereIndices(stacks, sectors, i + 1)| <= |SphereIndices(stacks, sectors, stacks)|
  {
    SphereIndicesGrow(stacks, sectors, i + 1, stacks);
  }

  /** Quad j extends the row's earlier quads, within the whole row. */
  lemma QuadStep(stacks: nat, sectors: nat, i: nat, j: nat, k1: int)
    requires j < sectors && k1 == i * (sectors + 1) + j
    ensures RowIndices(stacks, sectors, i, j + 1) == RowIndices(stacks, sectors, i, j) + Triangles(stacks, i, k1, k1 + sectors + 1)
    ensures |RowIndices(stacks, sectors, i, j + 1)| <= |RowIndices(stacks, sectors, i, sectors)|
  {
  }

  /** Six consecutive floats written at `at`, the rest of the buffer untouched. */
  method WriteVertex(vertices: array<real>, at: nat, v: Vertex)
    requires at + 6 <= vertices.Length
    modifies vertices
    ensures vertices[..at + 6] == old(vertices[..at]) + Floats(v)
    ensures vertices[at + 6..] == old(vertices[at + 6..])
  {
    vertices[at] := v.position.x;
    vertices[at + 1] := v.position.y;
    vertices[at + 2] := v.position.z;
    vertices[at + 3] := v.normal.x;
    vertices[at + 4] := v.normal.y;
    vertices[at + 5] := v.normal.z;
  }

  /** The inner vertex loop: the sectors + 1 vertices of stack row i written from `start`. */
  method WriteVertexRow(vertices: array<real>, start: nat, grid: Grid, sectors: nat, i: nat) returns (next: nat)
    requires start + 6 * (sectors + 1) <= vertices.Length
    modifies vertices
    ensures next == start + 6 * (sectors + 1)
    ensures vertices[..next] == old(vertices[..start]) + RowVertices(grid, i, sectors + 1)
  {
    next := start;
    var j := 0;
    while j <= sectors
      invariant 0 <= j <= sectors + 1 && next == start + 6 * j
      invariant vertices[..next] == old(vertices[..start]) + RowVertices(grid, i, j)
    {
      WriteVertex(vertices, next, grid(i, j));
      next := next + 6;
      j := j + 1;
    }
  }

  /** The vertex loops of generateSphere, writing into the zero-filled vertex buffer. */
  method GenerateVertices(grid: Grid, sectors: nat, stacks: nat) returns (vertices: array<real>)
    ensures fresh(vertices)
    ensures vertices.Length == 6 * ((stacks + 1) * (sectors + 1))
    ensures vertices[..] == SphereVertices(grid, sectors, stacks + 1)
  {
    var total := |SphereVertices(grid, sectors, stacks + 1)|;
    vertices := new real[total](_ => 0.0);
    var vertexIndex := 0;
    var i := 0;
    while i <= stacks
      invariant 0 <= i <= stacks + 1
      invariant vertexIndex == |SphereVertices(grid, sectors, i)| <= vertices.Length
      invariant vertices[..vertexIndex] == SphereVertices(grid, sectors, i)
    {
      SphereVerticesPrefix(grid, sectors, i + 1, stacks + 1);
      vertexIndex := WriteVertexRow(vertices, vertexIndex, grid, sectors, i);
      i := i + 1;
    }
    assert vertices[..vertexIndex] == vertices[..];
    SphereVerticesLength(grid, sectors, stacks + 1);
  }

  /** One triangle's three indices written at `at`, the rest of the buffer untouched. */
  method WriteTriangle(indices: array<int>, at: nat, a: int, b: int, c: int)
    requires at + 3 <= indices.Length
    modifies indices
    ensures indices[..at + 3] == old(indices[..at]) + [a, b, c]
    ensures forall k | at + 3 <= k < indices.Length :: indices[k] == old(indices[k])
  {
    indices[at] := a;
    indices[at + 1] := b;
    indices[at + 2] := c;
  }

  /** The writes for one quad, from `at`. */
  method WriteQuad(indices: array<int>, at: nat, stacks: nat, i: nat, k1: int, k2: int) returns (next: nat)
    requires at + |Triangles(stacks, i, k1, k2)| <= indices.Length
    modifies indices
    ensures next == at + |Triangles(stacks, i, k1, k2)|
    ensures indices[..next] == old(indices[..at]) + Triangles(stacks, i, k1, k2)
    ensures forall k | next <= k < indices.Length :: indices[k] == old(indices[k])
  {
    next := at;
    if i != 0 {
      WriteTriangle(indices, next, k1, k2, k1 + 1);
      next := next + 3;
    }
    if i != stacks - 1 {
      WriteTriangle(indices, next, k1 + 1, k2, k2 + 1);
      next := next + 3;
    }
  }

  /** One pass of the inner index loop: quad j of stack row i written after the quads before it. */
  method WriteNextQuad(indices: array<int>, next: nat, ghost before: seq<int>, stacks: nat, sectors: nat, i: nat, j: nat, k1: int)
    returns (next': nat)
    requires i < stacks && j < sectors && k1 == i * (sectors + 1) + j
    requires next == |before| + |RowIndices(stacks, sectors, i, j)|
    requires |before| + |RowIndices(stacks, sectors, i, sectors)| <= indices.Length
    requires indices[..next] == before + RowIndices(stacks, sectors, i, j)
    requires forall k | next <= k < indices.Length :: indices[k] == 0
    modifies indices
    ensures next' == |before| + |RowIndices(stacks, sectors, i, j + 1)|
    ensures indices[..next'] == before + RowIndices(stacks, sectors, i, j + 1)
    ensures forall k | next' <= k < indices.Length :: indices[k] == 0
  {
    QuadStep(stacks, sectors, i, j, k1);
    next' := WriteQuad(indices, next, stacks, i, k1, k1 + sectors + 1);
  }

  /** The inner index loop: the quads of stack row i written from `start`. */
  method WriteIndexRow(indices: array<int>, start: nat, stacks: nat, sectors: nat, i: nat) returns (next: nat)
    requires i < stacks && start + |RowIndices(stacks, sectors, i, sectors)| <= indices.Length
    requires forall k | start <= k < indices.Length :: indices[k] == 0
    modifies indices
    ensures next == start + |RowIndices(stacks, sectors, i, sectors)|
    ensures indices[..next] == old(indices[..start]) + RowIndices(stacks, sectors, i, sectors)
    ensures forall k | next <= k < indices.Length :: indices[k] == 0
  {
    ghost var before := indices[..start];
    next := start;
    var k1 := i * (sectors + 1);
    var k2 := k1 + sectors + 1;
    var j := 0;
    while j < sectors
      invariant 0 <= j <= sectors
      invariant k1 == i * (sectors + 1) + j && k2 == k1 + sectors + 1
      invariant next == start + |RowIndices(stacks, sectors, i, j)|
      invariant indices[..next] == before + RowIndices(stacks, sectors, i, j)
      invariant forall k | next <= k < indices.Length :: indices[k] == 0
    {
      next := WriteNextQuad(indices, next, before, stacks, sectors, i, j, k1);
      j := j + 1;
      k1 := k1 + 1;
      k2 := k2 + 1;
    }
  }

  /** The index loops of generateSphere, writing into the zero-filled index buffer. */
  method GenerateIndices(stacks: nat, sectors: nat) returns (indices: array<int>)
    ensures fresh(indices)
    ensures indices.Length == 6 * (stacks * sectors)
    ensures |SphereIndices(stacks, sectors, stacks)| <= indices.Length
    ensures indices[..|SphereIndices(stacks, sectors, stacks)|] == SphereIndices(stacks, sectors, stacks)
    ensures forall k | |SphereIndices(stacks, sectors, stacks)| <= k < indices.Length :: indices[k] == 0
  {
    var capacity := 6 * (stacks * sectors);
    indices := new int[capacity](_ => 0);
    IndexCapacity(stacks, sectors);
    var indexIndex := 0;
    var i := 0;
    while i < stacks
      invariant 0 <= i <= stacks
      invariant indexIndex == |SphereIndices(stacks, sectors, i)|
      invariant indexIndex <= |SphereIndices(stacks, sectors, stacks)| <= indices.Length
      invariant indices[..indexIndex] == SphereIndices(stacks, sectors, i)
      invariant forall k | indexIndex <= k < indices.Length :: indices[k] == 0
    {
      IndexRowFits(stacks, sectors, i);
      indexIndex := WriteIndexRow(indices, indexIndex, stacks, sectors, i);
      i := i + 1;
    }
  }

  /** The newer sphere renderer: the mesh is built and uploaded in init. */
  class SphereRenderer {
    /** The RenderComponent part: shader, buffer names, textures. */
    const base: RenderComponent
    var radius: real
    var sectorCount: nat
    var stackCount: nat
    var vertices: array<real>
    var indices: array<int>

    /** The constructor only stores the parameters; the buffers stay empty. */
    constructor (base: RenderComponent, radius: real, sectorCount: nat, stackCount: nat)
      ensures this.base == base && this.radius == radius
      ensures this.sectorCount == sectorCount && this.stackCount == stackCount
      ensures vertices.Length == 0 && indices.Length == 0
    {
      this.base := base;
      this.radius := radius;
      this.sectorCount := sectorCount;
      this.stackCount := stackCount;
      vertices := new real[0];
      indices := new int[0];
    }

    /** generateSphere: both buffers replaced by the mesh of the stored parameters. */
    method GenerateSphere()
      requires CountsFit(sectorCount, stackCount)
      modifies this
      ensures radius == old(radius) && sectorCount == old(sectorCount) && stackCount == old(stackCount)
      ensures fresh(vertices) && fresh(indices)
      ensures vertices[..] == SphereVertices(SphereGrid(radius, sectorCount, stackCount), sectorCount, stackCount + 1)
      ensures indices.Length == 6 * (stackCount * sectorCount)
      ensures |SphereIndices(stackCount, sectorCount, stackCount)| <= indices.Length
      ensures indices[..|SphereIndices(stackCount, sectorCount, stackCount)|] == SphereIndices(stackCount, sectorCount, stackCount)
      ensures forall k | |SphereIndices(stackCount, sectorCount, stackCount)| <= k < indices.Length :: indices[k] == 0
    {
      vertices := GenerateVertices(SphereGrid(radius, sectorCount, stackCount), sectorCount, stackCount);
      indices := GenerateIndices(stackCount, sectorCount);
    }

    /** initBuffers: the GL names stored in the component and both buffers uploaded. */
    method InitBuffers(vao: nat, vbo: nat, ebo: nat) returns (calls: seq<GlCall>)
      modifies base
      ensures base.State() == old(base.State()).(vao := vao, vbo := vbo, ebo := ebo)
      ensures calls == [UploadMesh(vertices.Length, indices.Length)]
    {
      base.vao, base.vbo, base.ebo := vao, vbo, ebo;
      calls := [UploadMesh(vertices.Length, indices.Length)];
    }

    /**
     * init: the "sphere" shader is looked up first; if that throws, nothing
     * is generated. Otherwise the mesh is generated and then uploaded.
     */
    method Init(manager: ShaderManager, created: nat, defineOrder: seq<string>, compile: Compile, vao: nat, vbo: nat, ebo: nat)
      returns (r: Result<ShaderProgram>, calls: seq<GlCall>)
      requires CountsFit(sectorCount, stackCount)
      requires SphereShader in manager.configs ==> IsIterationOrder(defineOrder, manager.configs[SphereShader].defines)
      modifies this, base, manager
      ensures radius == old(radius) && sectorCount == old(sectorCount) && stackCount == old(stackCount)
      ensures r.Err? ==> calls == [] && vertices == old(vertices) && indices == old(indices)
      ensures r.Err? ==> base.State() == old(base.State())
      ensures r.Ok? ==> base.State() == old(base.State()).(shader := r.value, vao := vao, vbo := vbo, ebo := ebo)
      ensures r.Ok? ==> vertices[..] == SphereVertices(SphereGrid(radius, sectorCount, stackCount), sectorCount, stackCount + 1)
      ensures r.Ok? ==> indices.Length == 6 * (stackCount * sectorCount)
      ensures r.Ok? ==> calls == [UploadMesh(vertices.Length, indices.Length)]
    {
      r := base.SetShaderNamed(manager, SphereShader, created, defineOrder, compile);
      if r.Err? {
        return r, [];
      }
      GenerateSphere();
      calls := InitBuffers(vao, vbo, ebo);
    }

    /** renderRawGeometry is empty: a sphere draws nothing into the shadow map. */
    function RenderRawGeometry(lightSpace: Mat4): (calls: seq<GlCall>)
      ensures calls == []
    {
      []
    }
  }

  /** The older sphere renderer: the mesh is built and uploaded by the constructor; init only sets the shader. */
  class LegacySphereRenderer {
    const base: LegacyRenderComponent
    var radius: real
    var sectorCount: nat
    var stackCount: nat
    var vertices: array<real>
    var indices: array<int>
    /** The GL names initBuffers generated. */
    var vao: nat
    var vbo: nat
    var ebo: nat

    constructor (base: LegacyRenderComponent, radius: real, sectorCount: nat, stackCount: nat, vao: nat, vbo: nat, ebo: nat)
      requires CountsFit(sectorCount, stackCount)
      ensures this.base == base && this.radius == radius
      ensures this.sectorCount == sectorCount && this.stackCount == stackCount
      ensures this.vao == vao && this.vbo == vbo && this.ebo == ebo
      ensures fresh(vertices) && fresh(indices)
      ensures vertices[..] == SphereVertices(SphereGrid(radius, sectorCount, stackCount), sectorCount, stackCount + 1)
      ensures indices.Length == 6 * (stackCount * sectorCount)
      ensures |SphereIndices(stackCount, sectorCount, stackCount)| <= indices.Length
      ensures indices[..|SphereIndices(stackCount, sectorCount, stackCount)|] == SphereIndices(stackCount, sectorCount, stackCount)
      ensures forall k | |SphereIndices(stackCount, sectorCount, stackCount)| <= k < indices.Length :: indices[k] == 0
    {
      this.base := base;
      this.radius := radius;
      this.sectorCount := sectorCount;
      this.stackCount := stackCount;
      var vs := GenerateVertices(SphereGrid(radius, sectorCount, stackCount), sectorCount, stackCount);
      var ix := GenerateIndices(stackCount, sectorCount);
      vertices, indices := vs, ix;
      this.vao, this.vbo, this.ebo := vao, vbo, ebo;
    }

    /** init sets the "sphere" shader and leaves the mesh as the constructor built it. */
    method Init(manager: ShaderManager, created: nat, defineOrder: seq<string>, compile: Compile)
      returns (r: Result<ShaderProgram>)
      requires SphereShader in manager.configs ==> IsIterationOrder(defineOrder, manager.configs[SphereShader].defines)
      modifies base, manager
      ensures r.Ok? ==> base.shader == r.value
      ensures r.Err? ==> base.shader == old(base.shader)
      ensures vertices == old(vertices) && indices == old(indices)
      ensures vertices[..] == old(vertices[..]) && indices[..] == old(indices[..])
    {
      r := base.SetShaderNamed(manager, SphereShader, created, defineOrder, compile);
    }
  }
}
