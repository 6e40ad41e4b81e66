/**
 * The texture registry (CLC/CORE/TextureManager.cpp): loaded textures by
 * name. Decoding an image file is an input (its outcome is a parameter), as
 * is the GL texture name glGenTextures hands out; the registry's
 * unordered_map is a map, and where the source walks it, the walk order is
 * a parameter listing each key once.
 */
module Textures {
  import opened Gl
  import opened Sequences

  /** A shared texture record: GL name and size. */
  class Texture {
    var id: nat
    var width: int
    var height: int

    constructor ()
      ensures id == 0 && width == 0 && height == 0
    {
      id := 0;
      width := 0;
      height := 0;
    }
  }

  /** What stbi_load produced for a path. */
  datatype Decoded = Failed | Image(width: int, height: int, channels: int)

  /** The wrapping and filtering loadTexture sets on every texture it creates: repeat, linear. */
  const SamplingParameters: seq<GlCall> :=
    [SetTexParameter(WrapS, Repeat), SetTexParameter(WrapT, Repeat),
     SetTexParameter(MinFilter, Linear), SetTexParameter(MagFilter, Linear)]

  /**
   * The upload calls for a decoded image: bind, the sampling parameters,
   * the pixels for RGB or RGBA only, then mipmaps.
   */
  function UploadCalls(id: nat, image: Decoded): (calls: seq<GlCall>)
    ensures image.Failed? <==> calls == []
    ensures image.Image? ==> calls[0] == BindTexture2D(id) && calls[|calls| - 1] == GenerateMipmap
    ensures image.Image? ==> |calls| >= 6 && calls[1..5] == SamplingParameters
    ensures image.Image? ==> (|calls| == 7 <==> image.channels == 3 || image.channels == 4)
    ensures image.Image? && |calls| == 7 ==> calls[5] == UploadImage(image.width, image.height, image.channels)
  {
    match image
    case Failed => []
    case Image(w, h, n) =>
      [BindTexture2D(id)] + SamplingParameters + (if n == 3 || n == 4 then [UploadImage(w, h, n)] else []) + [GenerateMipmap]
  }

  /** The entries whose texture does not have the given GL name. */
  function WithoutId(m: map<string, Texture>, id: nat): (r: map<string, Texture>)
    reads m.Values
    ensures forall k | k in r :: k in m && r[k] == m[k] && m[k].id != id
    ensures forall k | k in m && m[k].id != id :: k in r
  {
    map k | k in m && m[k].id != id :: m[k]
  }

  /** Erasing a present key shrinks a map by one entry. */
  lemma MapRemoveOne<K, V>(m: map<K, V>, k: K)
    requires k in m
    ensures |m - {k}| == |m| - 1
  {
    assert (m - {k}).Keys == m.Keys - {k};
  }

  /** n deletions of the same GL texture name. */
  function Deletes(id: nat, n: nat): (calls: seq<GlCall>)
    ensures |calls| == n && forall c | c in calls :: c == DeleteTexture(id)
  {
    seq(n, _ => DeleteTexture(id))
  }

  /** The erase-while-iterating loop of deleteTexture(id), walking the keys in the given order. */
  method EraseId(m: map<string, Texture>, id: nat, order: seq<string>) returns (kept: map<string, Texture>, calls: seq<GlCall>)
    requires IsIterationOrder(order, m)
    ensures kept == WithoutId(m, id)
    ensures |kept| + |calls| == |m| && calls == Deletes(id, |calls|)
  {
    kept := m;
    calls := [];
    var i := 0;
    while i < |order|
      invariant 0 <= i <= |order|
      invariant forall k | k in kept :: k in m && kept[k] == m[k]
      invariant forall k | k in m :: k in kept <==> (k !in order[..i] || m[k].id != id)
      invariant |kept| + |calls| == |m| && calls == Deletes(id, |calls|)
    {
      var k := order[i];
      assert k !in order[..i] by {
        assert forall j :: 0 <= j < i ==> order[j] != k;
      }
      assert order[..i + 1] == order[..i] + [k];
      kept, calls := EraseIfNamed(kept, k, id, calls);
      i := i + 1;
    }
    assert order[..i] == order;
    KeptIsWithoutId(m, kept, id);
  }

  /** One step of that loop: the entry at k erased, with a glDeleteTextures call, when it has the GL name id. */
  method EraseIfNamed(kept: map<string, Texture>, k: string, id: nat, calls: seq<GlCall>)
    returns (kept': map<string, Texture>, calls': seq<GlCall>)
    requires k in kept && calls == Deletes(id, |calls|)
    ensures kept[k].id == id ==> kept' == kept - {k}
    ensures kept[k].id != id ==> kept' == kept
    ensures |kept'| + |calls'| == |kept| + |calls| && calls' == Deletes(id, |calls'|)
  {
    kept', calls' := kept, calls;
    if kept[k].id == id {
      MapRemoveOne(kept, k);
      assert Deletes(id, |calls| + 1) == calls + [DeleteTexture(id)];
      calls' := calls + [DeleteTexture(id)];
      kept' := kept - {k};
    }
  }

  /** A map that keeps exactly the entries of m with another GL name is WithoutId(m, id). */
  lemma KeptIsWithoutId(m: map<string, Texture>, kept: map<string, Texture>, id: nat)
    requires forall k | k in kept :: k in m && kept[k] == m[k]
    requires forall k | k in m :: k in kept <==> m[k].id != id
    ensures kept == WithoutId(m, id)
  {
    assert kept.Keys == WithoutId(m, id).Keys;
  }

  class TextureManager {
    var textures: map<string, Texture>

    constructor ()
      ensures textures == map[]
    {
      textures := map[];
    }

    /**
     * loadTexture(path, name): a fresh record, zero-sized with GL name 0 if
     * decoding failed; otherwise it gets a new GL name and the decoded size,
     * even when the channel count is unsupported. The record is registered
     * under the name in either case, replacing any earlier one.
     */
    method LoadTexture(name: string, image: Decoded, generated: nat) returns (t: Texture, calls: seq<GlCall>)
      modifies this
      ensures fresh(t)
      ensures image.Failed? ==> t.id == 0 && t.width == 0 && t.height == 0
      ensures image.Image? ==> t.id == generated && t.width == image.width && t.height == image.height
      ensures textures == old(textures)[name := t]
      ensures calls == UploadCalls(t.id, image)
    {
      t := new Texture();
      calls := [];
      if image.Image? {
        t.id := generated;
        calls := UploadCalls(generated, image);
        t.width := image.width;
        t.height := image.height;
      }
      textures := textures[name := t];
    }

    /** getTexture(name): the registered record, or null. */
    function GetTexture(name: string): (t: Texture?)
      reads this
      ensures t != null <==> name in textures
      ensures t != null ==> t == textures[name]
    {
      if name in textures then textures[name] else null
    }

    /** deleteTexture(name): that entry removed and its GL texture deleted; nothing if absent. */
    method DeleteTextureNamed(name: string) returns (calls: seq<GlCall>)
      modifies this
      ensures name in old(textures) ==> calls == [DeleteTexture(old(textures)[name].id)]
      ensures name !in old(textures) ==> calls == []
      ensures textures == old(textures) - {name}
    {
      calls := [];
      if name in textures {
        calls := [DeleteTexture(textures[name].id)];
        textures := textures - {name};
      }
    }

    /**
     * deleteTexture(id): the walk over the registry erases every entry with
     * that GL name, issuing one delete per erased entry, and keeps the rest.
     */
    method DeleteTextureId(id: nat, order: seq<string>) returns (calls: seq<GlCall>)
      requires IsIterationOrder(order, textures)
      modifies this
      ensures textures == WithoutId(old(textures), id)
      ensures |textures| + |calls| == |old(textures)| && calls == Deletes(id, |calls|)
    {
      var kept;
      kept, calls := EraseId(textures, id, order);
      textures := kept;
    }

    /** deleteTexture(texture) is deleteTexture(texture->id). */
    method DeleteTextureOf(t: Texture, order: seq<string>) returns (calls: seq<GlCall>)
      requires IsIterationOrder(order, textures)
      modifies this
      ensures textures == WithoutId(old(textures), t.id)
      ensures |textures| + |calls| == |old(textures)| && calls == Deletes(t.id, |calls|)
    {
      calls := DeleteTextureId(t.id, order);
    }

    /** clear(): every registered texture deleted, in walk order, then the registry emptied. */
    method Clear(order: seq<string>) returns (calls: seq<GlCall>)
      requires IsIterationOrder(order, textures)
      modifies this
      ensures textures == map[]
      ensures |calls| == |order|
      ensures forall i :: 0 <= i < |order| ==> calls[i] == DeleteTexture(old(textures)[order[i]].id)
    {
      calls := [];
      var i := 0;
      while i < |order|
        invariant 0 <= i <= |order| && |calls| == i
        invariant textures == old(textures)
        invariant forall j :: 0 <= j < i ==> calls[j] == DeleteTexture(textures[order[j]].id)
      {
        calls := calls + [DeleteTexture(textures[order[i]].id)];
        i := i + 1;
      }
      textures := map[];
    }
  }
}
