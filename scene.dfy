/**
 * The parts of an imported scene (an aiScene) that mesh ingestion reads: a tree of nodes that
 * refer to meshes by index, the meshes with their vertices, optional first texture-coordinate
 * channel and faces, and the materials with their diffuse texture.
 */
module Scene {
  import opened VkTypes
  import opened Wrappers

  /** aiString keeps its characters in a fixed buffer of MAXLEN bytes, terminator included. */
  const AI_MAXLEN: nat := 1024

  type AiString = s: string | |s| < AI_MAXLEN

  datatype AiFace = AiFace(indices: seq<u32>)

  /**
   * mVertices, mTextureCoords[0] (None when the channel is absent), mFaces and mMaterialIndex.
   * Texture coordinates are three-component; only x and y are used.
   */
  datatype AiMesh = AiMesh(
    vertices: seq<Vec3>,
    textureCoords0: Option<seq<Vec3>>,
    faces: seq<AiFace>,
    materialIndex: u32)

  /**
   * A material as seen through GetTextureCount(aiTextureType_DIFFUSE) and
   * GetTexture(aiTextureType_DIFFUSE, 0, &path): the number of diffuse textures, and the path
   * of the first one when that call returns aiReturn_SUCCESS.
   */
  datatype AiMaterial = AiMaterial(diffuseTextureCount: nat, firstDiffusePath: Option<AiString>)

  /** mMeshes (indices into the scene's meshes) and mChildren. */
  datatype AiNode = AiNode(meshes: seq<nat>, children: seq<AiNode>)

  datatype AiScene = AiScene(meshes: seq<AiMesh>, materials: seq<AiMaterial>, rootNode: AiNode)

  /** What the importer guarantees of a mesh: a present channel has a coordinate per vertex. */
  predicate WellFormedMesh(mesh: AiMesh) {
    mesh.textureCoords0.Some? ==> |mesh.textureCoords0.value| >= |mesh.vertices|
  }
}
