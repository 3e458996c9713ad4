/**
 * The mesh: its vertex, index and texture lists, and the sequence of
 * graphics-driver calls its Draw issues.
 */
module Meshes {
  import opened Geometry
  import opened Wrappers
  import Decimal

  /**
   * A vertex as the loader fills it. A None component is one the loader
   * leaves unassigned (the C++ value is indeterminate).
   */
  datatype Vertex = Vertex(
    position: Vec3,
    normal: Option<Vec3>,
    texCoords: Vec2,
    tangent: Option<Vec3>,
    bitangent: Option<Vec3>)

  /** A loaded texture: the driver's texture name, the sampler type name and the path it came from. */
  datatype Texture = Texture(id: nat, typeName: string, path: string)

  /** The value of a mesh: what its constructor was given. */
  datatype MeshData = MeshData(vertices: seq<Vertex>, indices: seq<nat>, textures: seq<Texture>)

  /** The driver calls Draw makes, in the order it makes them. */
  datatype GlCall =
    | ActiveTexture(textureUnit: nat)
    | Uniform1i(program: nat, name: string, value: nat)
    | BindTexture2D(texture: nat)
    | BindVertexArray(vao: nat)
    | DrawTriangles(count: nat)

  const DiffuseName: string := "texture_diffuse"
  const SpecularName: string := "texture_specular"
  const NormalName: string := "texture_normal"
  const HeightName: string := "texture_height"

  lemma CountedTypesDistinct()
    ensures DiffuseName != SpecularName && DiffuseName != NormalName && DiffuseName != HeightName
    ensures SpecularName != NormalName && SpecularName != HeightName && NormalName != HeightName
  {
    assert DiffuseName[8] == 'd' && SpecularName[8] == 's' && NormalName[8] == 'n' && HeightName[8] == 'h';
  }

  /** The four type names Draw keeps a counter for. */
  predicate IsCountedType(t: string)
  {
    t == DiffuseName || t == SpecularName || t == NormalName || t == HeightName
  }

  /** How many textures in `ts` have type name `t`. */
  function CountType(ts: seq<Texture>, t: string): (n: nat)
    ensures n <= |ts|
  {
    if ts == [] then 0
    else CountType(ts[..|ts| - 1], t) + (if ts[|ts| - 1].typeName == t then 1 else 0)
  }

  /**
   * The sampler uniform name for texture `i`: a counted type gets the
   * 1-based rank of `i` among the textures of that type; any other type
   * name is used alone.
   */
  function UniformName(ts: seq<Texture>, i: nat): string
    requires i < |ts|
  {
    var t := ts[i].typeName;
    if IsCountedType(t) then t + Decimal.NatToString(CountType(ts[..i + 1], t)) else t
  }

  /** The three calls that bind texture `i` on unit `i`. */
  function BindCalls(ts: seq<Texture>, program: nat, i: nat): seq<GlCall>
    requires i < |ts|
  {
    [ActiveTexture(i), Uniform1i(program, UniformName(ts, i), i), BindTexture2D(ts[i].id)]
  }

  /** The binding calls for the first `k` textures. */
  function TextureCalls(ts: seq<Texture>, program: nat, k: nat): seq<GlCall>
    requires k <= |ts|
  {
    if k == 0 then [] else TextureCalls(ts, program, k - 1) + BindCalls(ts, program, k - 1)
  }

  /** Everything one Draw issues: the texture bindings, then the indexed draw and the clean-up. */
  function DrawCalls(ts: seq<Texture>, program: nat, vao: nat, indexCount: nat): seq<GlCall>
  {
    TextureCalls(ts, program, |ts|) + [BindVertexArray(vao), DrawTriangles(indexCount), BindVertexArray(0), ActiveTexture(0)]
  }

  class Mesh {
    // The source assigns these only in the constructor.
    const vertices: seq<Vertex>
    const indices: seq<nat>
    const textures: seq<Texture>
    /** The vertex array name the driver returned when the mesh was set up. */
    const vao: nat

    function Data(): (d: MeshData)
      ensures d.vertices == vertices && d.indices == indices && d.textures == textures
    {
      MeshData(vertices, indices, textures)
    }

    constructor (vertices: seq<Vertex>, indices: seq<nat>, textures: seq<Texture>, vao: nat)
      ensures this.vertices == vertices && this.indices == indices && this.textures == textures
      ensures this.vao == vao
    {
      this.vertices := vertices;
      this.indices := indices;
      this.textures := textures;
      this.vao := vao;
    }

    /** Draw with the shader program `program` (the source's `shader.ID`). */
    method Draw(program: nat) returns (calls: seq<GlCall>)
      ensures calls == DrawCalls(textures, program, vao, |indices|)
    {
      CountedTypesDistinct();
      var diffuseNr: nat, specularNr: nat, normalNr: nat, heightNr: nat := 1, 1, 1, 1;
      calls := [];
      var i := 0;
      while i < |textures|
        invariant 0 <= i <= |textures|
        invariant calls == TextureCalls(textures, program, i)
        invariant diffuseNr == 1 + CountType(textures[..i], DiffuseName)
        invariant specularNr == 1 + CountType(textures[..i], SpecularName)
        invariant normalNr == 1 + CountType(textures[..i], NormalName)
        invariant heightNr == 1 + CountType(textures[..i], HeightName)
      {
        CountTypeStep(textures, DiffuseName, i);
        CountTypeStep(textures, SpecularName, i);
        CountTypeStep(textures, NormalName, i);
        CountTypeStep(textures, HeightName, i);
        calls := calls + [ActiveTexture(i)];
        var number := "";
        var name := textures[i].typeName;
        if name == DiffuseName {
          number := Decimal.NatToString(diffuseNr);
          diffuseNr := diffuseNr + 1;
        } else if name == SpecularName {
          number := Decimal.NatToString(specularNr);
          specularNr := specularNr + 1;
        } else if name == NormalName {
          number := Decimal.NatToString(normalNr);
          normalNr := normalNr + 1;
        } else if name == HeightName {
          number := Decimal.NatToString(heightNr);
          heightNr := heightNr + 1;
        }
        calls := calls + [Uniform1i(program, name + number, i)];
        calls := calls + [BindTexture2D(textures[i].id)];
        TextureCallsStep(textures, program, i, number);
        i := i + 1;
      }
      calls := calls + [BindVertexArray(vao)];
      calls := calls + [DrawTriangles(|indices|)];
      calls := calls + [BindVertexArray(0)];
      calls := calls + [ActiveTexture(0)];
    }
  }

  /** The calls for texture `i`, with `number` the counter text Draw picked for it. */
  lemma TextureCallsStep(ts: seq<Texture>, program: nat, i: nat, number: string)
    requires i < |ts|
    requires number == if IsCountedType(ts[i].typeName) then Decimal.NatToString(1 + CountType(ts[..i], ts[i].typeName)) else ""
    ensures TextureCalls(ts, program, i + 1) ==
      TextureCalls(ts, program, i) + [ActiveTexture(i)] + [Uniform1i(program, ts[i].typeName + number, i)] + [BindTexture2D(ts[i].id)]
  {
    CountTypeStep(ts, ts[i].typeName, i);
    assert ts[i].typeName + number == UniformName(ts, i);
  }

  /** `TextureCalls` issues three calls per texture, texture `i`'s at positions 3i .. 3i+2. */
  lemma {:induction false} TextureCallsAt(ts: seq<Texture>, program: nat, k: nat, i: nat)
    requires k <= |ts| && i < k
    ensures |TextureCalls(ts, program, k)| == 3 * k
    ensures TextureCalls(ts, program, k)[3 * i .. 3 * i + 3] == BindCalls(ts, program, i)
  {
    if i < k - 1 {
      TextureCallsAt(ts, program, k - 1, i);
    } else if k > 1 {
      TextureCallsAt(ts, program, k - 1, 0);
    }
  }

  /**
   * Texture `i` is bound on unit `i`, its sampler uniform is set to `i`,
   * and after the textures come the vertex array bind, one indexed draw of
   * the whole index list, the unbind and the reset to unit 0.
   */
  lemma DrawCallsShape(ts: seq<Texture>, program: nat, vao: nat, indexCount: nat)
    ensures |DrawCalls(ts, program, vao, indexCount)| == 3 * |ts| + 4
    ensures forall i :: 0 <= i < |ts| ==>
      && DrawCalls(ts, program, vao, indexCount)[3 * i] == ActiveTexture(i)
      && DrawCalls(ts, program, vao, indexCount)[3 * i + 1] == Uniform1i(program, UniformName(ts, i), i)
      && DrawCalls(ts, program, vao, indexCount)[3 * i + 2] == BindTexture2D(ts[i].id)
    ensures DrawCalls(ts, program, vao, indexCount)[3 * |ts| ..] ==
      [BindVertexArray(vao), DrawTriangles(indexCount), BindVertexArray(0), ActiveTexture(0)]
  {
    var calls := DrawCalls(ts, program, vao, indexCount);
    if |ts| > 0 {
      TextureCallsAt(ts, program, |ts|, 0);
    }
    forall i | 0 <= i < |ts|
      ensures calls[3 * i] == ActiveTexture(i)
      ensures calls[3 * i + 1] == Uniform1i(program, UniformName(ts, i), i)
      ensures calls[3 * i + 2] == BindTexture2D(ts[i].id)
    {
      TextureCallsAt(ts, program, |ts|, i);
      assert calls[3 * i .. 3 * i + 3] == BindCalls(ts, program, i);
    }
  }

  lemma {:induction false} CountTypeStep(ts: seq<Texture>, t: string, j: nat)
    requires j < |ts|
    ensures CountType(ts[..j + 1], t) == CountType(ts[..j], t) + (if ts[j].typeName == t then 1 else 0)
  {
    assert ts[..j + 1][..j] == ts[..j];
  }

  lemma {:induction false} CountTypeMonotone(ts: seq<Texture>, t: string, a: nat, b: nat)
    requires a <= b <= |ts|
    ensures CountType(ts[..a], t) <= CountType(ts[..b], t)
    decreases b - a
  {
    if a < b {
      CountTypeMonotone(ts, t, a, b - 1);
      CountTypeStep(ts, t, b - 1);
    }
  }

  /**
   * For a counted type the name is the type followed by the decimal rank
   * `n` of the texture among those of its type, 1 <= n <= i + 1; any
   * other type name is the uniform name alone.
   */
  lemma UniformNameForm(ts: seq<Texture>, i: nat)
    requires i < |ts|
    ensures IsCountedType(ts[i].typeName) ==>
      exists n: nat :: 1 <= n <= i + 1 && n == CountType(ts[..i + 1], ts[i].typeName) &&
        UniformName(ts, i) == ts[i].typeName + Decimal.NatToString(n)
    ensures !IsCountedType(ts[i].typeName) ==> UniformName(ts, i) == ts[i].typeName
  {
    var t := ts[i].typeName;
    CountTypeStep(ts, t, i);
    var n := CountType(ts[..i + 1], t);
    assert |ts[..i + 1]| == i + 1;
    if IsCountedType(t) {
      assert 1 <= n <= i + 1 && UniformName(ts, i) == t + Decimal.NatToString(n);
    }
  }

  /** Two textures of the same counted type get different sampler names. */
  lemma UniformNamesDistinct(ts: seq<Texture>, i: nat, j: nat)
    requires i < j < |ts|
    requires ts[i].typeName == ts[j].typeName && IsCountedType(ts[i].typeName)
    ensures UniformName(ts, i) != UniformName(ts, j)
  {
    var t := ts[i].typeName;
    var a := CountType(ts[..i + 1], t);
    var b := CountType(ts[..j + 1], t);
    CountTypeMonotone(ts, t, i + 1, j);
    CountTypeStep(ts, t, j);
    assert a < b;
    if UniformName(ts, i) == UniformName(ts, j) {
      var sa := Decimal.NatToString(a);
      var sb := Decimal.NatToString(b);
      assert (t + sa)[|t|..] == sa;
      assert (t + sb)[|t|..] == sb;
      Decimal.NatToStringInjective(a, b);
    }
  }

  /** The draw counts a call sequence requests, in order. */
  function DrawCounts(calls: seq<GlCall>): seq<nat>
  {
    if calls == [] then []
    else DrawCounts(calls[..|calls| - 1]) + (if calls[|calls| - 1].DrawTriangles? then [calls[|calls| - 1].count] else [])
  }

  lemma {:induction false} DrawCountsAppend(a: seq<GlCall>, b: seq<GlCall>)
    ensures DrawCounts(a + b) == DrawCounts(a) + DrawCounts(b)
    decreases |b|
  {
    if b != [] {
      assert (a + b)[..|a + b| - 1] == a + b[..|b| - 1];
      DrawCountsAppend(a, b[..|b| - 1]);
    } else {
      assert a + b == a;
    }
  }

  /** A call sequence with no draw in it requests nothing. */
  lemma {:induction false} DrawCountsNone(calls: seq<GlCall>)
    requires forall i :: 0 <= i < |calls| ==> !calls[i].DrawTriangles?
    ensures DrawCounts(calls) == []
  {
    if calls != [] {
      DrawCountsNone(calls[..|calls| - 1]);
    }
  }

  /** The texture loop makes no draw call. */
  lemma {:induction false} TextureCallsNoDraw(ts: seq<Texture>, program: nat, k: nat)
    requires k <= |ts|
    ensures forall i :: 0 <= i < |TextureCalls(ts, program, k)| ==> !TextureCalls(ts, program, k)[i].DrawTriangles?
  {
    if k > 0 {
      TextureCallsNoDraw(ts, program, k - 1);
    }
  }

  /** One Draw requests exactly one indexed draw, of the whole index list. */
  lemma DrawRequestsIndexCount(ts: seq<Texture>, program: nat, vao: nat, indexCount: nat)
    ensures DrawCounts(DrawCalls(ts, program, vao, indexCount)) == [indexCount]
  {
    var bindings := TextureCalls(ts, program, |ts|);
    var pre := [BindVertexArray(vao), DrawTriangles(indexCount)];
    var post := [BindVertexArray(0), ActiveTexture(0)];
    assert DrawCalls(ts, program, vao, indexCount) == bindings + (pre + post);
    TextureCallsNoDraw(ts, program, |ts|);
    DrawCountsNone(bindings);
    DrawCountsNone(post);
    DrawCountsNone(pre[..1]);
    DrawCountsAppend(bindings, pre + post);
    DrawCountsAppend(pre, post);
  }
}
