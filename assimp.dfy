/**
 * The imported scene, as the model loader reads it. The importer itself
 * (file parsing and post-processing) is not part of this model: its result
 * is an input value.
 */
module Assimp {
  import opened Geometry
  import opened Wrappers

  /** The material texture slots the loader consults. */
  datatype AiTextureType = Diffuse | Specular | Height | Ambient

  /** The texture file paths a material lists per slot (`GetTextureCount`, `GetTexture`). */
  datatype AiMaterial = AiMaterial(textures: map<AiTextureType, seq<string>>)
  {
    /** A slot the material does not list has no textures. */
    function GetTextures(t: AiTextureType): seq<string>
    {
      if t in textures then textures[t] else []
    }
  }

  /**
   * One imported mesh. `normals` is None when the mesh has no normals and
   * `texCoords` (channel 0) is None when it has no texture coordinates.
   */
  datatype AiMesh = AiMesh(
    vertices: seq<Vec3>,
    normals: Option<seq<Vec3>>,
    texCoords: Option<seq<Vec3>>,
    tangents: seq<Vec3>,
    bitangents: seq<Vec3>,
    faces: seq<seq<nat>>,
    materialIndex: nat)
  {
    function NumVertices(): nat
    {
      |vertices|
    }

    /** `HasNormals()`: a normal array is present and there is a vertex. */
    predicate HasNormals()
    {
      normals.Some? && |vertices| > 0
    }
  }

  /** A node of the scene hierarchy: indices into the scene's meshes, then the children. */
  datatype AiNode = AiNode(meshes: seq<nat>, children: seq<AiNode>)

  datatype AiScene = AiScene(
    flags: bv32,
    rootNode: Option<AiNode>,
    meshes: seq<AiMesh>,
    materials: seq<AiMaterial>)

  /** AI_SCENE_FLAGS_INCOMPLETE. */
  const SceneFlagsIncomplete: bv32 := 0x1

  /**
   * The per-vertex arrays the loader indexes are long enough: normals when
   * present, and texture coordinates, tangents and bitangents together, as
   * the importer produces them with tangent-space calculation on.
   */
  predicate WellFormedMesh(m: AiMesh, materialCount: nat)
  {
    && (m.normals.Some? ==> |m.normals.value| >= |m.vertices|)
    && (m.texCoords.Some? ==>
          |m.texCoords.value| >= |m.vertices| && |m.tangents| >= |m.vertices| && |m.bitangents| >= |m.vertices|)
    && m.materialIndex < materialCount
  }

  /** Every index in `ids` names one of `meshCount` meshes. */
  predicate ValidMeshIds(ids: seq<nat>, meshCount: nat)
  {
    forall i :: 0 <= i < |ids| ==> ids[i] < meshCount
  }

  /** Every mesh index in the subtree names a mesh of the scene. */
  predicate NodeRefsValid(n: AiNode, meshCount: nat)
  {
    && ValidMeshIds(n.meshes, meshCount)
    && (forall c :: c in n.children ==> NodeRefsValid(c, meshCount))
  }

  predicate WellFormedScene(s: AiScene)
  {
    && (forall i :: 0 <= i < |s.meshes| ==> WellFormedMesh(s.meshes[i], |s.materials|))
    && (s.rootNode.Some? ==> NodeRefsValid(s.rootNode.value, |s.meshes|))
  }

  /** The loader's failure test: no scene, the incomplete flag, or no root node. */
  predicate ImportFailed(scene: Option<AiScene>)
  {
    scene.None? || scene.value.flags & SceneFlagsIncomplete != 0 || scene.value.rootNode.None?
  }

  /** The scene's mesh indices in the order a pre-order walk of `n` visits them. */
  function FlattenNode(n: AiNode): seq<nat>
    decreases n, |n.children| + 1
  {
    n.meshes + FlattenChildren(n, |n.children|)
  }

  /** The pre-order mesh indices of the first `k` children of `n`, left to right. */
  function FlattenChildren(n: AiNode, k: nat): seq<nat>
    requires k <= |n.children|
    decreases n, k
  {
    if k == 0 then [] else FlattenChildren(n, k - 1) + FlattenNode(n.children[k - 1])
  }

  /** `mNumMeshes` summed over the subtree rooted at `n`. */
  function SubtreeMeshCount(n: AiNode): nat
    decreases n, |n.children| + 1
  {
    |n.meshes| + ChildrenMeshCount(n, |n.children|)
  }

  function ChildrenMeshCount(n: AiNode, k: nat): nat
    requires k <= |n.children|
    decreases n, k
  {
    if k == 0 then 0 else ChildrenMeshCount(n, k - 1) + SubtreeMeshCount(n.children[k - 1])
  }

  /** The walk lists exactly as many meshes as the subtree's nodes name. */
  lemma {:induction false} FlattenNodeCount(n: AiNode)
    ensures |FlattenNode(n)| == SubtreeMeshCount(n)
    decreases n, |n.children| + 1
  {
    FlattenChildrenCount(n, |n.children|);
  }

  lemma {:induction false} FlattenChildrenCount(n: AiNode, k: nat)
    requires k <= |n.children|
    ensures |FlattenChildren(n, k)| == ChildrenMeshCount(n, k)
    decreases n, k
  {
    if k > 0 {
      FlattenChildrenCount(n, k - 1);
      FlattenNodeCount(n.children[k - 1]);
    }
  }

  /** Every index the walk lists is valid when the subtree's references are. */
  lemma {:induction false} FlattenNodeValid(n: AiNode, meshCount: nat)
    requires NodeRefsValid(n, meshCount)
    ensures ValidMeshIds(FlattenNode(n), meshCount)
    decreases n, |n.children| + 1
  {
    FlattenChildrenValid(n, |n.children|, meshCount);
  }

  lemma {:induction false} FlattenChildrenValid(n: AiNode, k: nat, meshCount: nat)
    requires k <= |n.children| && NodeRefsValid(n, meshCount)
    ensures ValidMeshIds(FlattenChildren(n, k), meshCount)
    decreases n, k
  {
    if k > 0 {
      FlattenChildrenValid(n, k - 1, meshCount);
      assert n.children[k - 1] in n.children;
      FlattenNodeValid(n.children[k - 1], meshCount);
    }
  }
}
