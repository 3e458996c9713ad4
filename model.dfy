/**
 * The model loader: the texture cache keyed by path, the conversion of an
 * imported mesh into a Mesh, the pre-order flattening of the node
 * hierarchy, the load itself and drawing every mesh.
 */
module Models {
  import opened Wrappers
  import opened Geometry
  import opened Assimp
  import opened Meshes

  // ---------------------------------------------------------------------
  // Directory derivation

  /** `find_last_of('/')`: the position of the last slash, if any. */
  function LastSlash(s: string): (r: Option<nat>)
    ensures r.Some? ==> r.value < |s| && s[r.value] == '/' && forall j :: r.value < j < |s| ==> s[j] != '/'
    ensures r.None? ==> forall j :: 0 <= j < |s| ==> s[j] != '/'
  {
    if s == [] then None
    else if s[|s| - 1] == '/' then Some(|s| - 1)
    else LastSlash(s[..|s| - 1])
  }

  /**
   * `path.substr(0, path.find_last_of('/'))`: the part before the last
   * slash, or the whole path when it has none.
   */
  function DirectoryOf(path: string): (d: string)
    ensures (forall j :: 0 <= j < |path| ==> path[j] != '/') ==> d == path
    ensures (exists j :: 0 <= j < |path| && path[j] == '/') ==>
      && |d| < |path| && d == path[..|d|] && path[|d|] == '/'
      && forall j :: |d| < j < |path| ==> path[j] != '/'
  {
    match LastSlash(path)
    case None => path
    case Some(k) => path[..k]
  }

  // ---------------------------------------------------------------------
  // Texture cache

  /** No two cached textures share a path. */
  predicate PathsDistinct(cache: seq<Texture>)
  {
    forall i, j :: 0 <= i < j < |cache| ==> cache[i].path != cache[j].path
  }

  /** The first cached texture with the given path. */
  function FindPath(cache: seq<Texture>, path: string): (r: Option<nat>)
    ensures r.Some? ==> r.value < |cache| && cache[r.value].path == path
    ensures r.Some? ==> forall k :: 0 <= k < r.value ==> cache[k].path != path
    ensures r.None? ==> forall k :: 0 <= k < |cache| ==> cache[k].path != path
  {
    if cache == [] then None
    else if cache[0].path == path then Some(0)
    else match FindPath(cache[1..], path)
      case None => None
      case Some(k) => Some(k + 1)
  }

  /** The textures one load call returns, and the cache after it. */
  datatype Loaded = Loaded(textures: seq<Texture>, cache: seq<Texture>)

  /**
   * One material texture path: an empty path is skipped; a cached path
   * yields the cached texture; a new path is loaded from
   * `directory + "/" + path` and cached.
   */
  function LoadOne(cache: seq<Texture>, directory: string, load: string -> nat, path: string, typeName: string): Loaded
  {
    if path == [] then Loaded([], cache)
    else match FindPath(cache, path)
      case Some(j) => Loaded([cache[j]], cache)
      case None =>
        var t := Texture(load(directory + "/" + path), typeName, path);
        Loaded([t], cache + [t])
  }

  /** `loadMaterialTextures` over the paths of one slot, in order. */
  function LoadTextures(cache: seq<Texture>, directory: string, load: string -> nat, paths: seq<string>, typeName: string): Loaded
  {
    if paths == [] then Loaded([], cache)
    else
      var r := LoadTextures(cache, directory, load, paths[..|paths| - 1], typeName);
      var s := LoadOne(r.cache, directory, load, paths[|paths| - 1], typeName);
      Loaded(r.textures + s.textures, s.cache)
  }

  lemma LoadTexturesStep(cache: seq<Texture>, directory: string, load: string -> nat, paths: seq<string>, i: nat, typeName: string)
    requires i < |paths|
    ensures var r := LoadTextures(cache, directory, load, paths[..i], typeName);
      var s := LoadOne(r.cache, directory, load, paths[i], typeName);
      LoadTextures(cache, directory, load, paths[..i + 1], typeName) == Loaded(r.textures + s.textures, s.cache)
  {
    assert paths[..i + 1][..i] == paths[..i];
  }

  /** A mesh's textures: diffuse, specular, HEIGHT as "texture_normal", AMBIENT as "texture_height". */
  function MaterialTextures(cache: seq<Texture>, directory: string, load: string -> nat, mat: AiMaterial): Loaded
  {
    var d := LoadTextures(cache, directory, load, mat.GetTextures(Diffuse), DiffuseName);
    var s := LoadTextures(d.cache, directory, load, mat.GetTextures(Specular), SpecularName);
    var n := LoadTextures(s.cache, directory, load, mat.GetTextures(Height), NormalName);
    var h := LoadTextures(n.cache, directory, load, mat.GetTextures(Ambient), HeightName);
    Loaded(d.textures + s.textures + n.textures + h.textures, h.cache)
  }

  function Paths(ts: seq<Texture>): seq<string>
  {
    if ts == [] then [] else Paths(ts[..|ts| - 1]) + [ts[|ts| - 1].path]
  }

  function NonEmpty(paths: seq<string>): seq<string>
  {
    if paths == [] then []
    else NonEmpty(paths[..|paths| - 1]) + (if paths[|paths| - 1] == [] then [] else [paths[|paths| - 1]])
  }

  /** The three cases of one path, as the cache lookup decides them. */
  lemma LoadOneCases(cache: seq<Texture>, directory: string, load: string -> nat, path: string, typeName: string)
    ensures var r := LoadOne(cache, directory, load, path, typeName);
      && (path == [] ==> r == Loaded([], cache))
      && (path != [] && FindPath(cache, path).Some? ==> r == Loaded([cache[FindPath(cache, path).value]], cache))
      && (path != [] && FindPath(cache, path).None? ==>
            var t := Texture(load(directory + "/" + path), typeName, path);
            r == Loaded([t], cache + [t]))
  {
  }

  /**
   * A cached path yields the cached entry itself, whatever type name the
   * caller asks for, and leaves the cache as it is.
   */
  lemma CachedPathKeepsType(cache: seq<Texture>, directory: string, load: string -> nat, j: nat, typeName: string)
    requires PathsDistinct(cache) && j < |cache| && cache[j].path != []
    ensures LoadOne(cache, directory, load, cache[j].path, typeName) == Loaded([cache[j]], cache)
  {
    var k := FindPath(cache, cache[j].path);
    assert k.Some?;
    if k.value != j {
      assert false;
    }
  }

  /** `big` is `small` with entries appended at its end. */
  predicate Extends(small: seq<Texture>, big: seq<Texture>)
  {
    |small| <= |big| && big[..|small|] == small
  }

  /** Every texture of `ts` is an entry of `cache`. */
  predicate AllIn(ts: seq<Texture>, cache: seq<Texture>)
  {
    forall k :: 0 <= k < |ts| ==> ts[k] in cache
  }

  lemma ExtendsAllIn(ts: seq<Texture>, small: seq<Texture>, big: seq<Texture>)
    requires Extends(small, big) && AllIn(ts, small)
    ensures AllIn(ts, big)
  {
    forall k | 0 <= k < |ts| ensures ts[k] in big {
      var i :| 0 <= i < |small| && small[i] == ts[k];
      assert big[i] == small[i];
    }
  }

  lemma ExtendsTrans(a: seq<Texture>, b: seq<Texture>, c: seq<Texture>)
    requires Extends(a, b) && Extends(b, c)
    ensures Extends(a, c)
  {
    assert c[..|a|] == c[..|b|][..|a|];
  }

  /**
   * The cache only grows at its end and keeps its paths distinct, every
   * returned texture is a cache entry, and the returned paths are the
   * slot's non-empty paths in order.
   */
  lemma {:induction false} LoadTexturesCache(cache: seq<Texture>, directory: string, load: string -> nat, paths: seq<string>, typeName: string)
    requires PathsDistinct(cache)
    ensures var r := LoadTextures(cache, directory, load, paths, typeName);
      && Extends(cache, r.cache)
      && PathsDistinct(r.cache)
      && AllIn(r.textures, r.cache)
      && Paths(r.textures) == NonEmpty(paths)
  {
    if paths != [] {
      var front := paths[..|paths| - 1];
      var p := paths[|paths| - 1];
      LoadTexturesCache(cache, directory, load, front, typeName);
      var r := LoadTextures(cache, directory, load, front, typeName);
      var s := LoadOne(r.cache, directory, load, p, typeName);
      LoadOneCache(r.cache, directory, load, p, typeName);
      ExtendsTrans(cache, r.cache, s.cache);
      ExtendsAllIn(r.textures, r.cache, s.cache);
      PathsAppend(r.textures, s.textures);
      assert Paths(s.textures) == (if p == [] then [] else [p]);
    }
  }

  /** One path keeps the cache's paths distinct and returns, at most, one cache entry. */
  lemma LoadOneCache(cache: seq<Texture>, directory: string, load: string -> nat, path: string, typeName: string)
    requires PathsDistinct(cache)
    ensures var s := LoadOne(cache, directory, load, path, typeName);
      && Extends(cache, s.cache) && |s.cache| <= |cache| + 1
      && PathsDistinct(s.cache) && AllIn(s.textures, s.cache)
      && s.textures == (if path == [] then [] else [s.textures[0]])
      && (path != [] ==> s.textures[0].path == path)
  {
    var s := LoadOne(cache, directory, load, path, typeName);
    if path != [] && FindPath(cache, path).None? {
      var t := Texture(load(directory + "/" + path), typeName, path);
      assert s.cache == cache + [t];
      forall i, j | 0 <= i < j < |s.cache| ensures s.cache[i].path != s.cache[j].path {
        assert s.cache[i] == cache[i];
      }
      assert s.cache[..|cache|] == cache;
      assert s.cache[|cache|] == t;
    }
  }

  /**
   * Every entry a load adds to the cache has a non-empty path, the
   * requested type name and the name the driver gave the image at
   * `directory + "/" + path`.
   */
  lemma {:induction false} LoadTexturesNewEntries(cache: seq<Texture>, directory: string, load: string -> nat, paths: seq<string>, typeName: string)
    ensures var r := LoadTextures(cache, directory, load, paths, typeName);
      && |cache| <= |r.cache|
      && forall j :: |cache| <= j < |r.cache| ==>
           && r.cache[j].path != [] && r.cache[j].typeName == typeName
           && r.cache[j].id == load(directory + "/" + r.cache[j].path)
           && r.cache[j].path in paths
  {
    if paths != [] {
      var front := paths[..|paths| - 1];
      LoadTexturesNewEntries(cache, directory, load, front, typeName);
      var r := LoadTextures(cache, directory, load, front, typeName);
      forall j | |cache| <= j < |r.cache| ensures r.cache[j].path in paths {
        assert r.cache[j].path in front;
      }
    }
  }

  lemma {:induction false} PathsAppend(a: seq<Texture>, b: seq<Texture>)
    ensures Paths(a + b) == Paths(a) + Paths(b)
    decreases |b|
  {
    if b == [] {
      assert a + b == a;
    } else {
      assert (a + b)[..|a + b| - 1] == a + b[..|b| - 1];
      PathsAppend(a, b[..|b| - 1]);
    }
  }

  /** Two returned textures with the same path are the same texture, with the same driver name. */
  lemma SamePathSameTexture(cache: seq<Texture>, directory: string, load: string -> nat, paths: seq<string>, typeName: string, a: nat, b: nat)
    requires PathsDistinct(cache)
    requires var r := LoadTextures(cache, directory, load, paths, typeName);
      a < |r.textures| && b < |r.textures| && r.textures[a].path == r.textures[b].path
    ensures var r := LoadTextures(cache, directory, load, paths, typeName);
      r.textures[a] == r.textures[b]
  {
    LoadTexturesCache(cache, directory, load, paths, typeName);
    var r := LoadTextures(cache, directory, load, paths, typeName);
    assert r.textures[a] in r.cache && r.textures[b] in r.cache;
    var i :| 0 <= i < |r.cache| && r.cache[i] == r.textures[a];
    var j :| 0 <= j < |r.cache| && r.cache[j] == r.textures[b];
    assert i == j;
  }

  /** Chaining two loads keeps the cache shape of both. */
  lemma ChainLoads(c0: seq<Texture>, r: Loaded, s: Loaded)
    requires Extends(c0, r.cache) && AllIn(r.textures, r.cache)
    requires Extends(r.cache, s.cache) && AllIn(s.textures, s.cache)
    ensures Extends(c0, s.cache) && AllIn(r.textures + s.textures, s.cache)
  {
    ExtendsTrans(c0, r.cache, s.cache);
    ExtendsAllIn(r.textures, r.cache, s.cache);
  }

  /**
   * The cache after a mesh's material extends the one before it and keeps
   * its paths distinct; the mesh's texture paths are the non-empty paths
   * of the diffuse, specular, HEIGHT and AMBIENT slots, in that order.
   */
  lemma MaterialTexturesShape(cache: seq<Texture>, directory: string, load: string -> nat, mat: AiMaterial)
    requires PathsDistinct(cache)
    ensures var r := MaterialTextures(cache, directory, load, mat);
      && Extends(cache, r.cache) && PathsDistinct(r.cache) && AllIn(r.textures, r.cache)
      && Paths(r.textures) ==
           NonEmpty(mat.GetTextures(Diffuse)) + NonEmpty(mat.GetTextures(Specular)) +
           NonEmpty(mat.GetTextures(Height)) + NonEmpty(mat.GetTextures(Ambient))
  {
    var d := LoadTextures(cache, directory, load, mat.GetTextures(Diffuse), DiffuseName);
    LoadTexturesCache(cache, directory, load, mat.GetTextures(Diffuse), DiffuseName);
    var s := LoadTextures(d.cache, directory, load, mat.GetTextures(Specular), SpecularName);
    LoadTexturesCache(d.cache, directory, load, mat.GetTextures(Specular), SpecularName);
    var n := LoadTextures(s.cache, directory, load, mat.GetTextures(Height), NormalName);
    LoadTexturesCache(s.cache, directory, load, mat.GetTextures(Height), NormalName);
    var h := LoadTextures(n.cache, directory, load, mat.GetTextures(Ambient), HeightName);
    LoadTexturesCache(n.cache, directory, load, mat.GetTextures(Ambient), HeightName);
    ChainLoads(cache, d, s);
    var ds := Loaded(d.textures + s.textures, s.cache);
    ChainLoads(cache, ds, n);
    var dsn := Loaded(ds.textures + n.textures, n.cache);
    ChainLoads(cache, dsn, h);
    PathsAppend(d.textures, s.textures);
    PathsAppend(ds.textures, n.textures);
    PathsAppend(dsn.textures, h.textures);
  }

  /** No non-empty path of `paths` is already the path of a cache entry. */
  predicate Fresh(cache: seq<Texture>, paths: seq<string>)
  {
    forall i, j :: 0 <= i < |cache| && 0 <= j < |paths| ==> paths[j] == [] || cache[i].path != paths[j]
  }

  /** No non-empty path of `later` occurs in `earlier`. */
  predicate Disjoint(later: seq<string>, earlier: seq<string>)
  {
    forall i, j :: 0 <= i < |later| && 0 <= j < |earlier| ==> later[i] == [] || later[i] != earlier[j]
  }

  lemma {:induction false} PathsLength(ts: seq<Texture>)
    ensures |Paths(ts)| == |ts|
  {
    if ts != [] {
      PathsLength(ts[..|ts| - 1]);
    }
  }

  /**
   * A slot none of whose paths is cached yet returns only textures it
   * loaded itself, so every one carries the slot's type name, even when
   * the slot repeats a path.
   */
  lemma {:induction false} FreshSlotTypeName(cache: seq<Texture>, directory: string, load: string -> nat, paths: seq<string>, typeName: string)
    requires PathsDistinct(cache) && Fresh(cache, paths)
    ensures var r := LoadTextures(cache, directory, load, paths, typeName);
      forall k :: 0 <= k < |r.textures| ==> r.textures[k].typeName == typeName
  {
    if paths != [] {
      var front := paths[..|paths| - 1];
      var p := paths[|paths| - 1];
      assert Fresh(cache, front) by {
        forall i, j | 0 <= i < |cache| && 0 <= j < |front| ensures front[j] == [] || cache[i].path != front[j] {
          assert front[j] == paths[j];
        }
      }
      FreshSlotTypeName(cache, directory, load, front, typeName);
      var r := LoadTextures(cache, directory, load, front, typeName);
      LoadTexturesCache(cache, directory, load, front, typeName);
      LoadTexturesNewEntries(cache, directory, load, front, typeName);
      var s := LoadOne(r.cache, directory, load, p, typeName);
      if p != [] {
        // The old entries do not have `p`, so a hit is an entry this slot added.
        forall i | 0 <= i < |cache| ensures r.cache[i].path != p {
          assert r.cache[i] == cache[i];
          assert cache[i].path != paths[|paths| - 1];
        }
      }
    }
  }

  /** Loading a slot keeps a later slot fresh when the two share no non-empty path. */
  lemma FreshAfterLoad(cache: seq<Texture>, directory: string, load: string -> nat, paths: seq<string>, typeName: string, later: seq<string>)
    requires PathsDistinct(cache) && Fresh(cache, later) && Disjoint(later, paths)
    ensures Fresh(LoadTextures(cache, directory, load, paths, typeName).cache, later)
  {
    var r := LoadTextures(cache, directory, load, paths, typeName);
    LoadTexturesCache(cache, directory, load, paths, typeName);
    LoadTexturesNewEntries(cache, directory, load, paths, typeName);
    forall i, j | 0 <= i < |r.cache| && 0 <= j < |later| ensures later[j] == [] || r.cache[i].path != later[j] {
      if i < |cache| {
        assert r.cache[i] == cache[i];
      } else {
        var m :| 0 <= m < |paths| && paths[m] == r.cache[i].path;
      }
    }
  }

  /**
   * The type names of a mesh's textures. When no path of the material is
   * cached yet and no slot repeats a path of an earlier slot, the textures
   * come out diffuse first, then specular, then those of the HEIGHT slot
   * named "texture_normal", then those of the AMBIENT slot named
   * "texture_height", each block as long as its slot's non-empty paths.
   */
  lemma MaterialTextureNames(cache: seq<Texture>, directory: string, load: string -> nat, mat: AiMaterial)
    requires PathsDistinct(cache)
    requires Fresh(cache, mat.GetTextures(Diffuse)) && Fresh(cache, mat.GetTextures(Specular))
    requires Fresh(cache, mat.GetTextures(Height)) && Fresh(cache, mat.GetTextures(Ambient))
    requires Disjoint(mat.GetTextures(Specular), mat.GetTextures(Diffuse))
    requires Disjoint(mat.GetTextures(Height), mat.GetTextures(Diffuse)) && Disjoint(mat.GetTextures(Height), mat.GetTextures(Specular))
    requires Disjoint(mat.GetTextures(Ambient), mat.GetTextures(Diffuse)) && Disjoint(mat.GetTextures(Ambient), mat.GetTextures(Specular))
    requires Disjoint(mat.GetTextures(Ambient), mat.GetTextures(Height))
    ensures var r := MaterialTextures(cache, directory, load, mat);
      var nd := |NonEmpty(mat.GetTextures(Diffuse))|;
      var ns := nd + |NonEmpty(mat.GetTextures(Specular))|;
      var nn := ns + |NonEmpty(mat.GetTextures(Height))|;
      && |r.textures| == nn + |NonEmpty(mat.GetTextures(Ambient))|
      && (forall k :: 0 <= k < nd ==> r.textures[k].typeName == DiffuseName)
      && (forall k :: nd <= k < ns ==> r.textures[k].typeName == SpecularName)
      && (forall k :: ns <= k < nn ==> r.textures[k].typeName == NormalName)
      && (forall k :: nn <= k < |r.textures| ==> r.textures[k].typeName == HeightName)
  {
    var D, S, H, A := mat.GetTextures(Diffuse), mat.GetTextures(Specular), mat.GetTextures(Height), mat.GetTextures(Ambient);
    var d := LoadTextures(cache, directory, load, D, DiffuseName);
    LoadTexturesCache(cache, directory, load, D, DiffuseName);
    FreshSlotTypeName(cache, directory, load, D, DiffuseName);
    FreshAfterLoad(cache, directory, load, D, DiffuseName, S);
    FreshAfterLoad(cache, directory, load, D, DiffuseName, H);
    FreshAfterLoad(cache, directory, load, D, DiffuseName, A);
    var s := LoadTextures(d.cache, directory, load, S, SpecularName);
    LoadTexturesCache(d.cache, directory, load, S, SpecularName);
    FreshSlotTypeName(d.cache, directory, load, S, SpecularName);
    FreshAfterLoad(d.cache, directory, load, S, SpecularName, H);
    FreshAfterLoad(d.cache, directory, load, S, SpecularName, A);
    var n := LoadTextures(s.cache, directory, load, H, NormalName);
    LoadTexturesCache(s.cache, directory, load, H, NormalName);
    FreshSlotTypeName(s.cache, directory, load, H, NormalName);
    FreshAfterLoad(s.cache, directory, load, H, NormalName, A);
    var h := LoadTextures(n.cache, directory, load, A, HeightName);
    LoadTexturesCache(n.cache, directory, load, A, HeightName);
    FreshSlotTypeName(n.cache, directory, load, A, HeightName);
    PathsLength(d.textures);
    PathsLength(s.textures);
    PathsLength(n.textures);
    PathsLength(h.textures);
  }

  // ---------------------------------------------------------------------
  // Mesh conversion

  /** The vertex `processMesh` builds from imported vertex `i`. */
  function ConvertVertex(m: AiMesh, i: nat): Vertex
    requires WellFormedMesh(m, m.materialIndex + 1) && i < |m.vertices|
  {
    Vertex(
      m.vertices[i],
      if m.HasNormals() then Some(m.normals.value[i]) else None,
      if m.texCoords.Some? then Vec2(m.texCoords.value[i].x, m.texCoords.value[i].y) else Vec2(0.0, 0.0),
      if m.texCoords.Some? then Some(m.tangents[i]) else None,
      if m.texCoords.Some? then Some(m.bitangents[i]) else None)
  }

  /** The vertex list `processMesh` builds. */
  function ConvertVertices(m: AiMesh): seq<Vertex>
    requires WellFormedMesh(m, m.materialIndex + 1)
  {
    seq(|m.vertices|, i requires 0 <= i < |m.vertices| => ConvertVertex(m, i))
  }

  /**
   * One vertex per imported vertex, position and normal copied, texture
   * coordinates (0,0) and tangents unassigned when the mesh has no texture
   * coordinates.
   */
  lemma ConvertVerticesShape(m: AiMesh)
    requires WellFormedMesh(m, m.materialIndex + 1)
    ensures var vs := ConvertVertices(m);
      && |vs| == m.NumVertices()
      && (forall i :: 0 <= i < |vs| ==> vs[i].position == m.vertices[i])
      && (forall i :: 0 <= i < |vs| ==> (vs[i].normal.Some? <==> m.normals.Some?))
      && (forall i :: 0 <= i < |vs| && m.normals.Some? ==> vs[i].normal == Some(m.normals.value[i]))
      && (m.texCoords.None? ==> forall i :: 0 <= i < |vs| ==>
            vs[i].texCoords == Vec2(0.0, 0.0) && vs[i].tangent.None? && vs[i].bitangent.None?)
      && (m.texCoords.Some? ==> forall i :: 0 <= i < |vs| ==>
            && vs[i].texCoords == Vec2(m.texCoords.value[i].x, m.texCoords.value[i].y)
            && vs[i].tangent == Some(m.tangents[i]) && vs[i].bitangent == Some(m.bitangents[i]))
  {
  }

  /** The faces' indices, face after face, each face's in its own order. */
  function ConcatFaces(faces: seq<seq<nat>>): seq<nat>
  {
    if faces == [] then [] else ConcatFaces(faces[..|faces| - 1]) + faces[|faces| - 1]
  }

  lemma {:induction false} ConcatFacesAppend(a: seq<seq<nat>>, b: seq<seq<nat>>)
    ensures ConcatFaces(a + b) == ConcatFaces(a) + ConcatFaces(b)
    decreases |b|
  {
    if b == [] {
      assert a + b == a;
    } else {
      assert (a + b)[..|a + b| - 1] == a + b[..|b| - 1];
      ConcatFacesAppend(a, b[..|b| - 1]);
    }
  }

  /** A triangulated mesh has three indices per face. */
  lemma {:induction false} TriangulatedIndexCount(faces: seq<seq<nat>>)
    requires forall f :: 0 <= f < |faces| ==> |faces[f]| == 3
    ensures |ConcatFaces(faces)| == 3 * |faces|
  {
    if faces != [] {
      TriangulatedIndexCount(faces[..|faces| - 1]);
    }
  }

  /** What processing one imported mesh yields, and the cache after it. */
  datatype Built = Built(data: MeshData, cache: seq<Texture>)

  function BuildMesh(scene: AiScene, directory: string, load: string -> nat, cache: seq<Texture>, m: AiMesh): Built
    requires WellFormedMesh(m, |scene.materials|)
  {
    var t := MaterialTextures(cache, directory, load, scene.materials[m.materialIndex]);
    Built(MeshData(ConvertVertices(m), ConcatFaces(m.faces), t.textures), t.cache)
  }

  /** What processing the scene meshes `ids`, in order, yields. */
  datatype BuiltAll = BuiltAll(datas: seq<MeshData>, cache: seq<Texture>)

  /** One step of the walk: the mesh with index `id`, built against `cache`. */
  function MeshStep(scene: AiScene, directory: string, load: string -> nat): (seq<Texture>, nat) -> Built
  {
    (cache: seq<Texture>, id: nat) =>
      if id < |scene.meshes| && WellFormedMesh(scene.meshes[id], |scene.materials|)
      then BuildMesh(scene, directory, load, cache, scene.meshes[id])
      else Built(MeshData([], [], []), cache)
  }

  /** `step` over `ids` in order, threading the cache through. */
  function FoldMeshes(step: (seq<Texture>, nat) -> Built, cache: seq<Texture>, ids: seq<nat>): BuiltAll
  {
    if ids == [] then BuiltAll([], cache)
    else
      var r := FoldMeshes(step, cache, ids[..|ids| - 1]);
      var b := step(r.cache, ids[|ids| - 1]);
      BuiltAll(r.datas + [b.data], b.cache)
  }

  lemma {:induction false} FoldMeshesAppend(step: (seq<Texture>, nat) -> Built, cache: seq<Texture>, a: seq<nat>, b: seq<nat>)
    ensures var r := FoldMeshes(step, cache, a);
      var s := FoldMeshes(step, r.cache, b);
      FoldMeshes(step, cache, a + b) == BuiltAll(r.datas + s.datas, s.cache)
    decreases |b|
  {
    if b == [] {
      assert a + b == a;
    } else {
      var front := b[..|b| - 1];
      assert (a + b)[..|a + b| - 1] == a + front;
      assert (a + b)[|a + b| - 1] == b[|b| - 1];
      FoldMeshesAppend(step, cache, a, front);
      var r := FoldMeshes(step, cache, a);
      var s := FoldMeshes(step, r.cache, front);
      var m := step(s.cache, b[|b| - 1]);
      ConcatAssociative(r.datas, s.datas, [m.data]);
    }
  }

  lemma FoldMeshesStep(step: (seq<Texture>, nat) -> Built, cache: seq<Texture>, ids: seq<nat>, i: nat)
    requires i < |ids|
    ensures var r := FoldMeshes(step, cache, ids[..i]);
      var b := step(r.cache, ids[i]);
      FoldMeshes(step, cache, ids[..i + 1]) == BuiltAll(r.datas + [b.data], b.cache)
  {
    assert ids[..i + 1][..i] == ids[..i];
  }

  /** What processing the scene meshes `ids`, in order, yields. */
  function BuildMeshes(scene: AiScene, directory: string, load: string -> nat, cache: seq<Texture>, ids: seq<nat>): BuiltAll
    requires WellFormedScene(scene) && ValidMeshIds(ids, |scene.meshes|)
  {
    FoldMeshes(MeshStep(scene, directory, load), cache, ids)
  }

  /** What processing `node` and its subtree yields: its meshes in pre-order. */
  function BuildNode(scene: AiScene, directory: string, load: string -> nat, cache: seq<Texture>, node: AiNode): BuiltAll
    requires WellFormedScene(scene) && NodeRefsValid(node, |scene.meshes|)
  {
    FlattenNodeValid(node, |scene.meshes|);
    BuildMeshes(scene, directory, load, cache, FlattenNode(node))
  }

  lemma BuildMeshesAppend(scene: AiScene, directory: string, load: string -> nat, cache: seq<Texture>, a: seq<nat>, b: seq<nat>)
    requires WellFormedScene(scene) && ValidMeshIds(a, |scene.meshes|) && ValidMeshIds(b, |scene.meshes|)
    ensures ValidMeshIds(a + b, |scene.meshes|)
    ensures var r := BuildMeshes(scene, directory, load, cache, a);
      var s := BuildMeshes(scene, directory, load, r.cache, b);
      BuildMeshes(scene, directory, load, cache, a + b) == BuiltAll(r.datas + s.datas, s.cache)
  {
    FoldMeshesAppend(MeshStep(scene, directory, load), cache, a, b);
  }

  /**
   * One mesh per listed index, with that imported mesh's vertices and face
   * indices; the cache extends the old one and keeps its paths distinct.
   */
  lemma {:induction false} BuildMeshesShape(scene: AiScene, directory: string, load: string -> nat, cache: seq<Texture>, ids: seq<nat>)
    requires WellFormedScene(scene) && ValidMeshIds(ids, |scene.meshes|) && PathsDistinct(cache)
    ensures var r := BuildMeshes(scene, directory, load, cache, ids);
      && |r.datas| == |ids|
      && (forall k :: 0 <= k < |ids| ==>
            && r.datas[k].vertices == ConvertVertices(scene.meshes[ids[k]])
            && r.datas[k].indices == ConcatFaces(scene.meshes[ids[k]].faces))
      && Extends(cache, r.cache) && PathsDistinct(r.cache)
  {
    if ids != [] {
      var r := BuildMeshes(scene, directory, load, cache, ids[..|ids| - 1]);
      BuildMeshesShape(scene, directory, load, cache, ids[..|ids| - 1]);
      MaterialTexturesShape(r.cache, directory, load, scene.materials[scene.meshes[ids[|ids| - 1]].materialIndex]);
      var b := BuildMesh(scene, directory, load, r.cache, scene.meshes[ids[|ids| - 1]]);
      ExtendsTrans(cache, r.cache, b.cache);
    }
  }

  /**
   * A node's subtree yields one mesh per `mNumMeshes` entry summed over the
   * subtree, the `k`-th converted from the `k`-th index of the pre-order
   * walk; the cache extends the old one and keeps its paths distinct.
   */
  lemma BuildNodeShape(scene: AiScene, directory: string, load: string -> nat, cache: seq<Texture>, node: AiNode)
    requires WellFormedScene(scene) && NodeRefsValid(node, |scene.meshes|) && PathsDistinct(cache)
    ensures ValidMeshIds(FlattenNode(node), |scene.meshes|) && |FlattenNode(node)| == SubtreeMeshCount(node)
    ensures var r := BuildNode(scene, directory, load, cache, node);
      && |r.datas| == SubtreeMeshCount(node)
      && (forall k :: 0 <= k < |FlattenNode(node)| ==>
            && r.datas[k].vertices == ConvertVertices(scene.meshes[FlattenNode(node)[k]])
            && r.datas[k].indices == ConcatFaces(scene.meshes[FlattenNode(node)[k]].faces))
      && Extends(cache, r.cache) && PathsDistinct(r.cache)
  {
    FlattenNodeValid(node, |scene.meshes|);
    FlattenNodeCount(node);
    BuildMeshesShape(scene, directory, load, cache, FlattenNode(node));
  }

  /** Processing one more of a node's own meshes appends one mesh value. */
  lemma BuildMeshesStep(scene: AiScene, directory: string, load: string -> nat, cache: seq<Texture>, ids: seq<nat>, i: nat)
    requires WellFormedScene(scene) && ValidMeshIds(ids, |scene.meshes|) && i < |ids|
    ensures ValidMeshIds(ids[..i], |scene.meshes|) && ValidMeshIds(ids[..i + 1], |scene.meshes|)
    ensures var r := BuildMeshes(scene, directory, load, cache, ids[..i]);
      var b := BuildMesh(scene, directory, load, r.cache, scene.meshes[ids[i]]);
      BuildMeshes(scene, directory, load, cache, ids[..i + 1]) == BuiltAll(r.datas + [b.data], b.cache)
  {
    FoldMeshesStep(MeshStep(scene, directory, load), cache, ids, i);
  }

  /** A node yields its own meshes first, then those of its children's subtrees. */
  lemma BuildNodeSplit(scene: AiScene, directory: string, load: string -> nat, cache: seq<Texture>, node: AiNode)
    requires WellFormedScene(scene) && NodeRefsValid(node, |scene.meshes|)
    ensures ValidMeshIds(node.meshes, |scene.meshes|)
    ensures ValidMeshIds(FlattenChildren(node, |node.children|), |scene.meshes|)
    ensures var r := BuildMeshes(scene, directory, load, cache, node.meshes);
      var s := BuildMeshes(scene, directory, load, r.cache, FlattenChildren(node, |node.children|));
      BuildNode(scene, directory, load, cache, node) == BuiltAll(r.datas + s.datas, s.cache)
  {
    FlattenChildrenValid(node, |node.children|, |scene.meshes|);
    BuildMeshesAppend(scene, directory, load, cache, node.meshes, FlattenChildren(node, |node.children|));
  }

  /** Processing the next child appends what its subtree yields. */
  lemma BuildChildrenStep(scene: AiScene, directory: string, load: string -> nat, cache: seq<Texture>, node: AiNode, c: nat)
    requires WellFormedScene(scene) && NodeRefsValid(node, |scene.meshes|) && c < |node.children|
    ensures NodeRefsValid(node.children[c], |scene.meshes|)
    ensures ValidMeshIds(FlattenChildren(node, c), |scene.meshes|)
    ensures ValidMeshIds(FlattenChildren(node, c + 1), |scene.meshes|)
    ensures var r := BuildMeshes(scene, directory, load, cache, FlattenChildren(node, c));
      var s := BuildNode(scene, directory, load, r.cache, node.children[c]);
      BuildMeshes(scene, directory, load, cache, FlattenChildren(node, c + 1)) == BuiltAll(r.datas + s.datas, s.cache)
  {
    var child := node.children[c];
    assert child in node.children;
    FlattenChildrenValid(node, c, |scene.meshes|);
    FlattenNodeValid(child, |scene.meshes|);
    BuildMeshesAppend(scene, directory, load, cache, FlattenChildren(node, c), FlattenNode(child));
  }

  // ---------------------------------------------------------------------
  // Drawing

  /** The calls drawing the first `k` meshes, in list order. */
  function ModelDrawCalls(ms: seq<Mesh>, program: nat, k: nat): seq<GlCall>
    requires k <= |ms|
  {
    if k == 0 then []
    else ModelDrawCalls(ms, program, k - 1) + DrawCalls(ms[k - 1].textures, program, ms[k - 1].vao, |ms[k - 1].indices|)
  }

  /** Drawing the model requests one indexed draw per mesh, in list order, each of its whole index list. */
  lemma {:induction false} ModelDrawCounts(ms: seq<Mesh>, program: nat, k: nat)
    requires k <= |ms|
    ensures DrawCounts(ModelDrawCalls(ms, program, k)) == seq(k, i requires 0 <= i < k => |ms[i].indices|)
  {
    if k > 0 {
      var m := ms[k - 1];
      ModelDrawCounts(ms, program, k - 1);
      DrawCountsAppend(ModelDrawCalls(ms, program, k - 1), DrawCalls(m.textures, program, m.vao, |m.indices|));
      DrawRequestsIndexCount(m.textures, program, m.vao, |m.indices|);
    }
  }

  lemma ConcatAssociative<T>(a: seq<T>, b: seq<T>, c: seq<T>)
    ensures (a + b) + c == a + (b + c)
  {
  }

  lemma MeshesDataAppend(ms: seq<Mesh>, m: Mesh)
    ensures MeshesData(ms + [m]) == MeshesData(ms) + [m.Data()]
  {
  }

  /** The values of a list of meshes. */
  function MeshesData(ms: seq<Mesh>): seq<MeshData>
  {
    seq(|ms|, i requires 0 <= i < |ms| => ms[i].Data())
  }

  // ---------------------------------------------------------------------
  // The model

  class Model {
    var texturesLoaded: seq<Texture>
    var meshes: seq<Mesh>
    var directory: string
    var gammaCorrection: bool
    /** `TextureFromFile`: the texture name the driver gives the image at a full path. */
    const textureFromFile: string -> nat
    /** The vertex array name the driver gives the `k`-th mesh this model sets up. */
    const vertexArrayNames: nat -> nat

    ghost predicate Valid()
      reads this
    {
      PathsDistinct(texturesLoaded)
    }

    /** `Model(path, gamma)`, with `imported` the importer's result for `path`. */
    constructor (path: string, gamma: bool, imported: Option<AiScene>,
                 textureFromFile: string -> nat, vertexArrayNames: nat -> nat)
      requires !ImportFailed(imported) ==> WellFormedScene(imported.value)
      ensures Valid()
      ensures gammaCorrection == gamma
      ensures this.textureFromFile == textureFromFile && this.vertexArrayNames == vertexArrayNames
      ensures ImportFailed(imported) ==> meshes == [] && texturesLoaded == [] && directory == ""
      ensures !ImportFailed(imported) ==>
        && directory == DirectoryOf(path)
        && var r := BuildNode(imported.value, DirectoryOf(path), textureFromFile, [], imported.value.rootNode.value);
           MeshesData(meshes) == r.datas && texturesLoaded == r.cache
    {
      this.gammaCorrection := gamma;
      this.textureFromFile := textureFromFile;
      this.vertexArrayNames := vertexArrayNames;
      texturesLoaded := [];
      meshes := [];
      directory := "";
      new;
      LoadModel(path, imported);
    }

    /** `loadModel`: give up on a failed import, else set the directory and walk the hierarchy. */
    method LoadModel(path: string, imported: Option<AiScene>)
      requires Valid()
      requires !ImportFailed(imported) ==> WellFormedScene(imported.value)
      modifies this`texturesLoaded, this`meshes, this`directory
      ensures Valid()
      ensures ImportFailed(imported) ==>
        meshes == old(meshes) && texturesLoaded == old(texturesLoaded) && directory == old(directory)
      ensures !ImportFailed(imported) ==>
        && directory == DirectoryOf(path)
        && var r := BuildNode(imported.value, DirectoryOf(path), textureFromFile, old(texturesLoaded), imported.value.rootNode.value);
           MeshesData(meshes) == old(MeshesData(meshes)) + r.datas && texturesLoaded == r.cache
    {
      if imported.None? || imported.value.flags & SceneFlagsIncomplete != 0 || imported.value.rootNode.None? {
        return;
      }
      directory := DirectoryOf(path);
      ProcessNode(imported.value.rootNode.value, imported.value);
    }

    /** `processNode`: this node's meshes in index order, then each child left to right. */
    method ProcessNode(node: AiNode, scene: AiScene)
      requires Valid()
      requires WellFormedScene(scene) && NodeRefsValid(node, |scene.meshes|)
      modifies this`texturesLoaded, this`meshes
      ensures Valid()
      ensures var r := BuildNode(scene, directory, textureFromFile, old(texturesLoaded), node);
        MeshesData(meshes) == old(MeshesData(meshes)) + r.datas && texturesLoaded == r.cache
      decreases node, 1
    {
      ghost var meshes0 := MeshesData(meshes);
      ghost var cache0 := texturesLoaded;
      BuildNodeSplit(scene, directory, textureFromFile, cache0, node);
      ghost var r := BuildMeshes(scene, directory, textureFromFile, cache0, node.meshes);
      ghost var s := BuildMeshes(scene, directory, textureFromFile, r.cache, FlattenChildren(node, |node.children|));
      ProcessNodeMeshes(node, scene);
      ghost var mid := MeshesData(meshes);
      assert mid == meshes0 + r.datas && texturesLoaded == r.cache;
      ProcessChildren(node, scene);
      ConcatAssociative(meshes0, r.datas, s.datas);
    }

    /** The first loop of `processNode`: the node's own meshes, in order. */
    method ProcessNodeMeshes(node: AiNode, scene: AiScene)
      requires Valid()
      requires WellFormedScene(scene) && ValidMeshIds(node.meshes, |scene.meshes|)
      modifies this`texturesLoaded, this`meshes
      ensures Valid()
      ensures var r := BuildMeshes(scene, directory, textureFromFile, old(texturesLoaded), node.meshes);
        MeshesData(meshes) == old(MeshesData(meshes)) + r.datas && texturesLoaded == r.cache
    {
      ghost var meshes0 := MeshesData(meshes);
      ghost var cache0 := texturesLoaded;
      var i := 0;
      while i < |node.meshes|
        invariant 0 <= i <= |node.meshes|
        invariant Valid()
        invariant var r := BuildMeshes(scene, directory, textureFromFile, cache0, node.meshes[..i]);
          MeshesData(meshes) == meshes0 + r.datas && texturesLoaded == r.cache
      {
        BuildMeshesStep(scene, directory, textureFromFile, cache0, node.meshes, i);
        ghost var r := BuildMeshes(scene, directory, textureFromFile, cache0, node.meshes[..i]);
        var m := ProcessMesh(scene.meshes[node.meshes[i]], scene);
        MeshesDataAppend(meshes, m);
        ConcatAssociative(meshes0, r.datas, [m.Data()]);
        meshes := meshes + [m];
        i := i + 1;
      }
      assert node.meshes[..i] == node.meshes;
    }

    /** The second loop of `processNode`: each child's subtree, left to right. */
    method ProcessChildren(node: AiNode, scene: AiScene)
      requires Valid()
      requires WellFormedScene(scene) && NodeRefsValid(node, |scene.meshes|)
      modifies this`texturesLoaded, this`meshes
      ensures Valid()
      ensures ValidMeshIds(FlattenChildren(node, |node.children|), |scene.meshes|)
      ensures var r := BuildMeshes(scene, directory, textureFromFile, old(texturesLoaded), FlattenChildren(node, |node.children|));
        MeshesData(meshes) == old(MeshesData(meshes)) + r.datas && texturesLoaded == r.cache
      decreases node, 0
    {
      ghost var meshes0 := MeshesData(meshes);
      ghost var cache0 := texturesLoaded;
      var c := 0;
      while c < |node.children|
        invariant 0 <= c <= |node.children|
        invariant Valid()
        invariant ValidMeshIds(FlattenChildren(node, c), |scene.meshes|)
        invariant var r := BuildMeshes(scene, directory, textureFromFile, cache0, FlattenChildren(node, c));
          MeshesData(meshes) == meshes0 + r.datas && texturesLoaded == r.cache
      {
        var child := node.children[c];
        assert child in node.children;
        BuildChildrenStep(scene, directory, textureFromFile, cache0, node, c);
        ghost var r := BuildMeshes(scene, directory, textureFromFile, cache0, FlattenChildren(node, c));
        ghost var s := BuildNode(scene, directory, textureFromFile, r.cache, child);
        ghost var before := MeshesData(meshes);
        ProcessNode(child, scene);
        ConcatAssociative(meshes0, r.datas, s.datas);
        c := c + 1;
      }
    }

    /** `processMesh`: copy the vertices, concatenate the face indices, gather the material's textures. */
    method ProcessMesh(mesh: AiMesh, scene: AiScene) returns (m: Mesh)
      requires Valid() && WellFormedMesh(mesh, |scene.materials|)
      modifies this`texturesLoaded
      ensures Valid() && fresh(m)
      ensures m.vao == vertexArrayNames(|meshes|)
      ensures var b := BuildMesh(scene, directory, textureFromFile, old(texturesLoaded), mesh);
        m.Data() == b.data && texturesLoaded == b.cache
    {
      var vertices: seq<Vertex> := [];
      var i := 0;
      while i < mesh.NumVertices()
        invariant 0 <= i <= |mesh.vertices|
        invariant vertices == ConvertVertices(mesh)[..i]
      {
        var position := mesh.vertices[i];
        var normal: Option<Vec3> := None;
        if mesh.HasNormals() {
          normal := Some(mesh.normals.value[i]);
        }
        var texCoords: Vec2;
        var tangent: Option<Vec3> := None;
        var bitangent: Option<Vec3> := None;
        if mesh.texCoords.Some? {
          texCoords := Vec2(mesh.texCoords.value[i].x, mesh.texCoords.value[i].y);
          tangent := Some(mesh.tangents[i]);
          bitangent := Some(mesh.bitangents[i]);
        } else {
          texCoords := Vec2(0.0, 0.0);
        }
        vertices := vertices + [Vertex(position, normal, texCoords, tangent, bitangent)];
        assert ConvertVertices(mesh)[..i + 1] == ConvertVertices(mesh)[..i] + [ConvertVertex(mesh, i)];
        i := i + 1;
      }
      assert vertices == ConvertVertices(mesh);

      var indices: seq<nat> := [];
      var f := 0;
      while f < |mesh.faces|
        invariant 0 <= f <= |mesh.faces|
        invariant indices == ConcatFaces(mesh.faces[..f])
      {
        var face := mesh.faces[f];
        var j := 0;
        while j < |face|
          invariant 0 <= j <= |face|
          invariant indices == ConcatFaces(mesh.faces[..f]) + face[..j]
        {
          indices := indices + [face[j]];
          assert face[..j + 1] == face[..j] + [face[j]];
          j := j + 1;
        }
        assert mesh.faces[..f + 1][..f] == mesh.faces[..f];
        assert face[..j] == face;
        f := f + 1;
      }
      assert mesh.faces[..f] == mesh.faces;

      var material := scene.materials[mesh.materialIndex];
      ghost var cache0 := texturesLoaded;
      var textures: seq<Texture> := [];
      var diffuseMaps := LoadMaterialTextures(material, Diffuse, DiffuseName);
      textures := textures + diffuseMaps;
      assert textures == diffuseMaps;
      var specularMaps := LoadMaterialTextures(material, Specular, SpecularName);
      textures := textures + specularMaps;
      var normalMaps := LoadMaterialTextures(material, Height, NormalName);
      textures := textures + normalMaps;
      var heightMaps := LoadMaterialTextures(material, Ambient, HeightName);
      textures := textures + heightMaps;

      m := new Mesh(vertices, indices, textures, vertexArrayNames(|meshes|));
    }

    /** `loadMaterialTextures`: the slot's textures, reusing cached paths and caching new ones. */
    method LoadMaterialTextures(mat: AiMaterial, texType: AiTextureType, typeName: string) returns (textures: seq<Texture>)
      requires Valid()
      modifies this`texturesLoaded
      ensures Valid()
      ensures Loaded(textures, texturesLoaded) ==
        LoadTextures(old(texturesLoaded), directory, textureFromFile, mat.GetTextures(texType), typeName)
    {
      ghost var cache0 := texturesLoaded;
      var paths := mat.GetTextures(texType);
      textures := [];
      var i := 0;
      while i < |paths|
        invariant 0 <= i <= |paths|
        invariant Loaded(textures, texturesLoaded) == LoadTextures(cache0, directory, textureFromFile, paths[..i], typeName)
        invariant Valid()
      {
        LoadTexturesCache(cache0, directory, textureFromFile, paths[..i + 1], typeName);
        LoadTexturesStep(cache0, directory, textureFromFile, paths, i, typeName);
        var pathStr := paths[i];
        if pathStr == [] {
          i := i + 1;
          continue;
        }
        var found := FindLoaded(pathStr);
        if found.Some? {
          textures := textures + [texturesLoaded[found.value]];
        } else {
          var fullPath := directory + "/" + pathStr;
          var texture := Texture(textureFromFile(fullPath), typeName, pathStr);
          textures := textures + [texture];
          texturesLoaded := texturesLoaded + [texture];
        }
        i := i + 1;
      }
      assert paths[..i] == paths;
    }

    /** The search of `texturesLoaded` for a path, stopping at the first match. */
    method FindLoaded(path: string) returns (found: Option<nat>)
      ensures found == FindPath(texturesLoaded, path)
    {
      var j := 0;
      while j < |texturesLoaded|
        invariant 0 <= j <= |texturesLoaded|
        invariant forall k :: 0 <= k < j ==> texturesLoaded[k].path != path
      {
        if texturesLoaded[j].path == path {
          return Some(j);
        }
        j := j + 1;
      }
      return None;
    }

    /** `Draw`: every mesh, in list order. */
    method Draw(program: nat) returns (calls: seq<GlCall>)
      ensures calls == ModelDrawCalls(meshes, program, |meshes|)
    {
      calls := [];
      var i := 0;
      while i < |meshes|
        invariant 0 <= i <= |meshes|
        invariant calls == ModelDrawCalls(meshes, program, i)
      {
        var meshCalls := meshes[i].Draw(program);
        calls := calls + meshCalls;
        i := i + 1;
      }
    }
  }
}
