/**
 * Mesh ingestion from an imported scene and the MeshModel that holds the result: the
 * material-to-texture-file table, the pre-order flattening of the node tree into a mesh list,
 * the conversion of one scene mesh into vertex and index arrays, and the model's accessors.
 */
module MeshModels {
  import opened VkTypes
  import opened Wrappers
  import opened Scene
  import opened DeviceMemory
  import opened Meshes

  /** std::string::npos, the largest size_t. */
  const NPOS: nat := 0xFFFF_FFFF_FFFF_FFFF
  /** size_t arithmetic wraps modulo 2^64. */
  const SIZE_LIMIT: nat := 0x1_0000_0000_0000_0000

  // ---------------------------------------------------------------- materials

  /** std::string::rfind(c): the position of the last c, or npos when there is none. */
  function RFind(s: AiString, c: char): (idx: nat)
    ensures idx == NPOS || idx < |s|
    ensures idx == NPOS <==> c !in s
    ensures idx != NPOS ==> s[idx] == c && forall j :: idx < j < |s| ==> s[j] != c
  {
    if |s| == 0 then NPOS
    else if s[|s| - 1] == c then |s| - 1
    else RFind(s[..|s| - 1], c)
  }

  /**
   * The file name load_materials keeps: substr(rfind('\\') + 1), where npos + 1 wraps to 0,
   * so a path without a backslash is kept whole. It is the longest suffix of the path that
   * holds no backslash; forward slashes are not separators here.
   */
  function BaseName(path: AiString): (name: string)
    ensures '\\' !in name
    ensures |name| <= |path| && name == path[|path| - |name|..]
    ensures |name| < |path| ==> path[|path| - |name| - 1] == '\\'
    ensures '\\' !in path ==> name == path
  {
    var idx := RFind(path, '\\');
    path[(idx + 1) % SIZE_LIMIT..]
  }

  /** The entry load_materials writes for one material. */
  function TextureFileName(material: AiMaterial): string {
    if material.diffuseTextureCount > 0 && material.firstDiffusePath.Some?
    then BaseName(material.firstDiffusePath.value)
    else ""
  }

  /**
   * load_materials: one entry per material, "" unless the material has a diffuse texture
   * whose path could be read, in which case the entry is that path's file name.
   */
  method LoadMaterials(scene: AiScene) returns (textureList: seq<string>)
    ensures |textureList| == |scene.materials|
    ensures forall i :: 0 <= i < |textureList| ==>
              var material := scene.materials[i];
              if material.diffuseTextureCount > 0 && material.firstDiffusePath.Some?
              then textureList[i] == BaseName(material.firstDiffusePath.value)
              else textureList[i] == ""
    ensures forall i :: 0 <= i < |textureList| && textureList[i] != "" ==>
              scene.materials[i].diffuseTextureCount > 0 && scene.materials[i].firstDiffusePath.Some?
  {
    var list := new string[|scene.materials|](_ => "");
    ghost var expected := seq(|scene.materials|, k requires 0 <= k < |scene.materials| =>
                                TextureFileName(scene.materials[k]));
    for i := 0 to |scene.materials|
      invariant forall k :: 0 <= k < i ==> list[k] == expected[k]
    {
      var material := scene.materials[i];
      var fileName := "";
      if material.diffuseTextureCount > 0 {
        match material.firstDiffusePath
        case Some(path) =>
          fileName := BaseName(path);
        case None =>
      }
      assert fileName == expected[i];
      list[i] := fileName;
    }
    textureList := list[..];
    assert forall i :: 0 <= i < |textureList| ==> textureList[i] == TextureFileName(scene.materials[i]);
  }

  // ---------------------------------------------------------------- node tree

  /** The mesh indices of a subtree in load_node's order: the node's own, then each child's in turn. */
  function FlattenNode(node: AiNode): seq<nat>
    decreases node, 1
  {
    node.meshes + FlattenChildren(node, |node.children|)
  }

  /** The flattened lists of the first k children of parent, one after the other. */
  function FlattenChildren(parent: AiNode, k: nat): seq<nat>
    requires k <= |parent.children|
    decreases parent, 0, k
  {
    if k == 0 then [] else FlattenChildren(parent, k - 1) + FlattenNode(parent.children[k - 1])
  }

  /** The number of mesh references in a subtree, summed node by node. */
  function SubtreeMeshCount(node: AiNode): nat
    decreases node, 1
  {
    |node.meshes| + ChildrenMeshCount(node, |node.children|)
  }

  function ChildrenMeshCount(parent: AiNode, k: nat): nat
    requires k <= |parent.children|
    decreases parent, 0, k
  {
    if k == 0 then 0 else ChildrenMeshCount(parent, k - 1) + SubtreeMeshCount(parent.children[k - 1])
  }

  /** Some node of the subtree lists mesh x. */
  ghost predicate Refers(node: AiNode, x: nat)
    decreases node
  {
    x in node.meshes || exists i :: 0 <= i < |node.children| && Refers(node.children[i], x)
  }

  /** The flattened list is as long as the subtree has mesh references. */
  lemma {:induction false} FlattenNodeLength(node: AiNode)
    ensures |FlattenNode(node)| == SubtreeMeshCount(node)
    decreases node, 1
  {
    FlattenChildrenLength(node, |node.children|);
  }

  lemma {:induction false} FlattenChildrenLength(parent: AiNode, k: nat)
    requires k <= |parent.children|
    ensures |FlattenChildren(parent, k)| == ChildrenMeshCount(parent, k)
    decreases parent, 0, k
  {
    if k > 0 {
      FlattenChildrenLength(parent, k - 1);
      FlattenNodeLength(parent.children[k - 1]);
    }
  }

  /** A mesh index occurs in the flattened list exactly when some node of the subtree lists it. */
  lemma {:induction false} FlattenNodeMembers(node: AiNode, x: nat)
    ensures x in FlattenNode(node) <==> Refers(node, x)
    decreases node, 1
  {
    FlattenChildrenMembers(node, |node.children|, x);
  }

  lemma {:induction false} FlattenChildrenMembers(parent: AiNode, k: nat, x: nat)
    requires k <= |parent.children|
    ensures x in FlattenChildren(parent, k) <==> exists i :: 0 <= i < k && Refers(parent.children[i], x)
    decreases parent, 0, k
  {
    if k > 0 {
      FlattenChildrenMembers(parent, k - 1, x);
      FlattenNodeMembers(parent.children[k - 1], x);
    }
  }

  /** Everything a child's subtree lists is in its parent's flattened list. */
  lemma ChildFlattenIncluded(parent: AiNode, k: nat)
    requires k < |parent.children|
    ensures forall x :: x in FlattenNode(parent.children[k]) ==> x in FlattenNode(parent)
  {
    forall x | x in FlattenNode(parent.children[k])
      ensures x in FlattenNode(parent)
    {
      FlattenNodeMembers(parent.children[k], x);
      FlattenNodeMembers(parent, x);
    }
  }

  /** A root with one mesh and one child with two meshes gives three meshes, the root's first. */
  lemma TwoLevelTreeFlattening(a: nat, b: nat, c: nat)
    ensures FlattenNode(AiNode([a], [AiNode([b, c], [])])) == [a, b, c]
  {
    var child := AiNode([b, c], []);
    var root := AiNode([a], [child]);
    assert FlattenNode(child) == [b, c];
    assert FlattenChildren(root, 1) == FlattenChildren(root, 0) + FlattenNode(child);
  }

  // ---------------------------------------------------------------- one mesh

  /** The index lists of the faces, one after the other. */
  function FaceIndices(faces: seq<AiFace>): seq<u32>
  {
    if |faces| == 0 then [] else FaceIndices(faces[..|faces| - 1]) + faces[|faces| - 1].indices
  }

  /** The sum of the faces' mNumIndices. */
  function TotalIndexCount(faces: seq<AiFace>): nat
  {
    if |faces| == 0 then 0 else TotalIndexCount(faces[..|faces| - 1]) + |faces[|faces| - 1].indices|
  }

  lemma {:induction false} FaceIndicesLength(faces: seq<AiFace>)
    ensures |FaceIndices(faces)| == TotalIndexCount(faces)
  {
    if |faces| > 0 {
      FaceIndicesLength(faces[..|faces| - 1]);
    }
  }

  /** Index j of face k sits after all the indices of the faces before it. */
  lemma {:induction false} FaceIndicesAt(faces: seq<AiFace>, k: nat, j: nat)
    requires k < |faces| && j < |faces[k].indices|
    ensures TotalIndexCount(faces[..k]) + j < |FaceIndices(faces)|
    ensures FaceIndices(faces)[TotalIndexCount(faces[..k]) + j] == faces[k].indices[j]
  {
    var n := |faces| - 1;
    assert faces[..n] == faces[..|faces| - 1];
    FaceIndicesLength(faces[..n]);
    if k < n {
      assert faces[..n][..k] == faces[..k];
      FaceIndicesAt(faces[..n], k, j);
    } else {
      assert faces[..k] == faces[..n];
    }
  }

  /** What load_mesh needs of a scene mesh: a well-formed mesh whose material has a texture entry. */
  predicate Ingestible(mesh: AiMesh, materialsToTextures: seq<nat>) {
    WellFormedMesh(mesh) && mesh.materialIndex < |materialsToTextures|
  }

  /**
   * The copying half of load_mesh: one vertex per scene vertex, with its position and the first
   * texture-coordinate channel's x and y, or (0, 0) when the mesh has no such channel; the
   * indices of all faces in face order; and the texture id its material maps to.
   */
  method CopyGeometry(mesh: AiMesh, materialsToTextures: seq<nat>)
    returns (vertices: seq<Vertex>, indices: seq<u32>, textureId: nat)
    requires Ingestible(mesh, materialsToTextures)
    ensures |vertices| == |mesh.vertices|
    ensures forall i :: 0 <= i < |vertices| ==> vertices[i].position == mesh.vertices[i]
    ensures mesh.textureCoords0.Some? ==>
              forall i :: 0 <= i < |vertices| ==>
                vertices[i].texCoords == Vec2(mesh.textureCoords0.value[i].x, mesh.textureCoords0.value[i].y)
    ensures mesh.textureCoords0.None? ==>
              forall i :: 0 <= i < |vertices| ==> vertices[i].texCoords == Vec2(ZERO, ZERO)
    ensures indices == FaceIndices(mesh.faces)
    ensures |indices| == TotalIndexCount(mesh.faces)
    ensures textureId == materialsToTextures[mesh.materialIndex]
  {
    var n := |mesh.vertices|;
    var buffer := new Vertex[n](_ => Vertex(Vec3(ZERO, ZERO, ZERO), Vec2(ZERO, ZERO)));
    for i := 0 to n
      invariant forall k :: 0 <= k < i ==> buffer[k].position == mesh.vertices[k]
      invariant mesh.textureCoords0.Some? ==>
                  forall k :: 0 <= k < i ==>
                    buffer[k].texCoords == Vec2(mesh.textureCoords0.value[k].x, mesh.textureCoords0.value[k].y)
      invariant mesh.textureCoords0.None? ==>
                  forall k :: 0 <= k < i ==> buffer[k].texCoords == Vec2(ZERO, ZERO)
    {
      var position := Vec3(mesh.vertices[i].x, mesh.vertices[i].y, mesh.vertices[i].z);
      var texCoords := Vec2(ZERO, ZERO);
      if mesh.textureCoords0.Some? {
        texCoords := Vec2(mesh.textureCoords0.value[i].x, mesh.textureCoords0.value[i].y);
      }
      buffer[i] := Vertex(position, texCoords);
    }
    vertices := buffer[..];

    indices := [];
    for i := 0 to |mesh.faces|
      invariant indices == FaceIndices(mesh.faces[..i])
    {
      var face := mesh.faces[i];
      for j := 0 to |face.indices|
        invariant indices == FaceIndices(mesh.faces[..i]) + face.indices[..j]
      {
        indices := indices + [face.indices[j]];
      }
      assert mesh.faces[..i + 1][..i] == mesh.faces[..i];
    }
    assert mesh.faces[..|mesh.faces|] == mesh.faces;
    FaceIndicesLength(mesh.faces);
    textureId := materialsToTextures[mesh.materialIndex];
  }

  // ---------------------------------------------------------------- meshes on the device

  /** What the loading proofs need to know of one Mesh object, as a value. */
  datatype MeshRecord = MeshRecord(device: Device, vertexCount: u32, indexCount: u32, buffers: MeshBuffers)

  function RecordOf(mesh: Mesh): MeshRecord
  {
    MeshRecord(mesh.device, mesh.vertexCount, mesh.indexCount, mesh.Buffers())
  }

  /** The records of a list of meshes, the only view of the list the loading proofs read. */
  function Records(meshes: seq<Mesh>): (records: seq<MeshRecord>)
    ensures |records| == |meshes|
    ensures forall i :: 0 <= i < |meshes| ==> records[i] == RecordOf(meshes[i])
  {
    if |meshes| == 0 then [] else Records(meshes[..|meshes| - 1]) + [RecordOf(meshes[|meshes| - 1])]
  }

  lemma RecordsConcat(a: seq<Mesh>, b: seq<Mesh>)
    ensures Records(a + b) == Records(a) + Records(b)
  {
    assert forall i :: 0 <= i < |a + b| ==> Records(a + b)[i] == (Records(a) + Records(b))[i] by {
      forall i | 0 <= i < |a + b|
        ensures Records(a + b)[i] == (Records(a) + Records(b))[i]
      {
        if i < |a| { assert (a + b)[i] == a[i]; } else { assert (a + b)[i] == b[i - |a|]; }
      }
    }
  }

  /** The meshes were loaded, in order, from the scene meshes refs names. */
  predicate LoadedFrom(records: seq<MeshRecord>, refs: seq<nat>, scene: AiScene) {
    && |records| == |refs|
    && forall i :: 0 <= i < |refs| ==>
         && refs[i] < |scene.meshes|
         && records[i].vertexCount == ToU32(|scene.meshes[refs[i]].vertices|)
         && records[i].indexCount == ToU32(TotalIndexCount(scene.meshes[refs[i]].faces))
  }

  /** All handles the meshes own. */
  function AllHandles(records: seq<MeshRecord>): set<Handle> {
    if |records| == 0 then {} else AllHandles(records[..|records| - 1]) + records[|records| - 1].buffers.Handles()
  }

  /** All handles lie in [lo, hi), and a later mesh's handles come after an earlier one's. */
  predicate Ordered(records: seq<MeshRecord>, lo: nat, hi: nat) {
    && (forall i :: 0 <= i < |records| ==>
          records[i].buffers.InOrder() && lo <= records[i].buffers.vertexBuffer && records[i].buffers.indexBufferMemory < hi)
    && (forall i, j :: 0 <= i < j < |records| ==>
          records[i].buffers.indexBufferMemory < records[j].buffers.vertexBuffer)
  }

  /** Every mesh belongs to device and owns its buffers in the ledger live. */
  predicate AllOwnedIn(records: seq<MeshRecord>, device: Device, live: map<Handle, Resource>) {
    forall i :: 0 <= i < |records| ==> records[i].device == device && records[i].buffers.OwnedIn(live)
  }

  /** The ledger after keeps every entry of the ledger before. */
  predicate Extends(after: map<Handle, Resource>, before: map<Handle, Resource>) {
    forall h :: h in before ==> h in after && after[h] == before[h]
  }

  lemma {:induction false} AllHandlesConcat(a: seq<MeshRecord>, b: seq<MeshRecord>)
    ensures AllHandles(a + b) == AllHandles(a) + AllHandles(b)
  {
    if |b| > 0 {
      var last := |b| - 1;
      assert (a + b)[..|a + b| - 1] == a + b[..last];
      AllHandlesConcat(a, b[..last]);
    } else {
      assert a + b == a;
    }
  }

  /** The handles of ordered meshes lie in their range. */
  lemma {:induction false} AllHandlesInRange(records: seq<MeshRecord>, lo: nat, hi: nat)
    requires Ordered(records, lo, hi)
    ensures forall h :: h in AllHandles(records) ==> lo <= h < hi
  {
    if |records| > 0 {
      var last := |records| - 1;
      assert Ordered(records[..last], lo, hi);
      AllHandlesInRange(records[..last], lo, hi);
    }
  }

  /** No two meshes share a handle. */
  predicate Disjoint(records: seq<MeshRecord>) {
    forall i, j :: 0 <= i < j < |records| ==> records[i].buffers.Handles() !! records[j].buffers.Handles()
  }

  /** Meshes loaded one after the other never share a handle. */
  lemma OrderedIsDisjoint(records: seq<MeshRecord>, lo: nat, hi: nat)
    requires Ordered(records, lo, hi)
    ensures Disjoint(records)
  {
    forall i, j | 0 <= i < j < |records|
      ensures records[i].buffers.Handles() !! records[j].buffers.Handles()
    {
      assert records[i].buffers.indexBufferMemory < records[j].buffers.vertexBuffer;
    }
  }

  /** Disjointness does not depend on the order of the list: two meshes may come in either order. */
  lemma DisjointInEitherOrder(a: MeshRecord, b: MeshRecord)
    ensures Disjoint([a, b]) <==> Disjoint([b, a])
    ensures Disjoint([a, b]) <==> a.buffers.Handles() !! b.buffers.Handles()
  {
    assert [a, b][0] == a && [a, b][1] == b;
    assert [b, a][0] == b && [b, a][1] == a;
  }

  /** The meshes before mesh i own none of mesh i's handles. */
  lemma {:induction false} PrefixHandlesAvoid(records: seq<MeshRecord>, i: nat, k: nat)
    requires Disjoint(records) && k <= i < |records|
    ensures AllHandles(records[..k]) !! records[i].buffers.Handles()
  {
    if k > 0 {
      PrefixHandlesAvoid(records, i, k - 1);
      assert records[..k][..k - 1] == records[..k - 1];
      assert records[..k][k - 1] == records[k - 1];
    }
  }

  /**
   * While destroy_mesh_model walks the list, the next mesh still owns its buffers, and
   * releasing them removes exactly the handles of one more mesh.
   */
  lemma DestroyNextStillOwned(records: seq<MeshRecord>, device: Device, i: nat,
                              live0: map<Handle, Resource>, live: map<Handle, Resource>)
    requires Disjoint(records) && AllOwnedIn(records, device, live0) && i < |records|
    requires live == live0 - AllHandles(records[..i])
    ensures records[i].buffers.OwnedIn(live) && records[i].device == device
    ensures live - records[i].buffers.Handles() == live0 - AllHandles(records[..i + 1])
  {
    PrefixHandlesAvoid(records, i, i);
    assert records[..i + 1][..i] == records[..i];
  }

  /**
   * Releasing every handle of freshly loaded meshes gives back the ledger as it was before
   * loading, when loading drew its handles above every handle already in use.
   */
  lemma DestroyUndoesLoad(records: seq<MeshRecord>, refs: seq<nat>, scene: AiScene, device: Device,
                          live: map<Handle, Resource>, next: nat, lo: nat, before: map<Handle, Resource>)
    requires LoadedInto(records, refs, scene, device, live, next, lo, before)
    requires forall h :: h in before ==> h < lo
    ensures live - AllHandles(records) == before
  {
    AllHandlesInRange(records, lo, next);
    assert (live - AllHandles(records)).Keys == before.Keys;
  }

  /** Ownership survives a ledger that only grows. */
  lemma OwnershipExtends(records: seq<MeshRecord>, device: Device, before: map<Handle, Resource>, after: map<Handle, Resource>)
    requires AllOwnedIn(records, device, before) && Extends(after, before)
    ensures AllOwnedIn(records, device, after)
  {
  }

  /** Two ordered runs of meshes, the second after the first, make one ordered run. */
  lemma OrderedConcat(a: seq<MeshRecord>, b: seq<MeshRecord>, lo: nat, mid: nat, hi: nat)
    requires lo <= mid <= hi
    requires Ordered(a, lo, mid) && Ordered(b, mid, hi)
    ensures Ordered(a + b, lo, hi)
  {
    var ab := a + b;
    forall i, j | 0 <= i < j < |ab|
      ensures ab[i].buffers.indexBufferMemory < ab[j].buffers.vertexBuffer
    {
      if j < |a| {
        assert ab[i] == a[i] && ab[j] == a[j];
      } else if i < |a| {
        assert ab[i] == a[i] && ab[j] == b[j - |a|];
      } else {
        assert ab[i] == b[i - |a|] && ab[j] == b[j - |a|];
      }
    }
  }

  lemma LoadedFromConcat(a: seq<MeshRecord>, ra: seq<nat>, b: seq<MeshRecord>, rb: seq<nat>, scene: AiScene)
    requires LoadedFrom(a, ra, scene) && LoadedFrom(b, rb, scene)
    ensures LoadedFrom(a + b, ra + rb, scene)
  {
    var ab, r := a + b, ra + rb;
    forall i | 0 <= i < |r|
      ensures && r[i] < |scene.meshes|
              && ab[i].vertexCount == ToU32(|scene.meshes[r[i]].vertices|)
              && ab[i].indexCount == ToU32(TotalIndexCount(scene.meshes[r[i]].faces))
    {
      if i < |a| {
        assert ab[i] == a[i] && r[i] == ra[i];
      } else {
        assert ab[i] == b[i - |a|] && r[i] == rb[i - |a|];
      }
    }
  }

  /**
   * What loading a list of meshes on device leaves behind, with the ledger live and the next
   * handle next after loading: the meshes stand, in order, for the scene meshes refs names,
   * they own their buffers in order with every handle drawn in [lo, next), and the ledger is
   * the one before loading plus exactly those handles.
   */
  predicate LoadedInto(records: seq<MeshRecord>, refs: seq<nat>, scene: AiScene, device: Device,
                       live: map<Handle, Resource>, next: nat, lo: nat, before: map<Handle, Resource>)
  {
    && LoadedFrom(records, refs, scene)
    && (forall h :: h in live ==> h < next)
    && lo <= next
    && Ordered(records, lo, next)
    && AllOwnedIn(records, device, live)
    && live.Keys == before.Keys + AllHandles(records)
    && Extends(live, before)
  }

  /** Loading two lists one after the other loads their concatenation. */
  lemma LoadedConcat(a: seq<MeshRecord>, ra: seq<nat>, b: seq<MeshRecord>, rb: seq<nat>, scene: AiScene,
                     device: Device, lo: nat, mid: nat, hi: nat,
                     live0: map<Handle, Resource>, live1: map<Handle, Resource>, live2: map<Handle, Resource>)
    requires LoadedInto(a, ra, scene, device, live1, mid, lo, live0)
    requires LoadedInto(b, rb, scene, device, live2, hi, mid, live1)
    ensures LoadedInto(a + b, ra + rb, scene, device, live2, hi, lo, live0)
  {
    LoadedFromConcat(a, ra, b, rb, scene);
    OrderedConcat(a, b, lo, mid, hi);
    OwnershipExtends(a, device, live1, live2);
    AllHandlesConcat(a, b);
  }

  /** One more mesh loaded in load_node's first loop. */
  lemma LoadedNextRef(a: seq<MeshRecord>, refs: seq<nat>, i: nat, r: MeshRecord, scene: AiScene,
                      device: Device, lo: nat, mid: nat, hi: nat,
                      live0: map<Handle, Resource>, live1: map<Handle, Resource>, live2: map<Handle, Resource>)
    requires i < |refs|
    requires LoadedInto(a, refs[..i], scene, device, live1, mid, lo, live0)
    requires LoadedInto([r], [refs[i]], scene, device, live2, hi, mid, live1)
    ensures LoadedInto(a + [r], refs[..i + 1], scene, device, live2, hi, lo, live0)
  {
    assert refs[..i + 1] == refs[..i] + [refs[i]];
    LoadedConcat(a, refs[..i], [r], [refs[i]], scene, device, lo, mid, hi, live0, live1, live2);
  }

  /** One more child loaded in load_node's second loop. */
  lemma LoadedNextChild(a: seq<MeshRecord>, parent: AiNode, k: nat, b: seq<MeshRecord>, scene: AiScene,
                        device: Device, lo: nat, mid: nat, hi: nat,
                        live0: map<Handle, Resource>, live1: map<Handle, Resource>, live2: map<Handle, Resource>)
    requires k < |parent.children|
    requires LoadedInto(a, FlattenChildren(parent, k), scene, device, live1, mid, lo, live0)
    requires LoadedInto(b, FlattenNode(parent.children[k]), scene, device, live2, hi, mid, live1)
    ensures LoadedInto(a + b, FlattenChildren(parent, k + 1), scene, device, live2, hi, lo, live0)
  {
    LoadedConcat(a, FlattenChildren(parent, k), b, FlattenNode(parent.children[k]), scene,
                 device, lo, mid, hi, live0, live1, live2);
  }

  /** load_mesh: copies the geometry, then uploads it as a new Mesh on device. */
  method LoadMesh(device: Device, vertexSize: nat, scene: AiScene, x: nat, materialsToTextures: seq<nat>)
    returns (mesh: Mesh)
    requires device.Valid()
    requires x < |scene.meshes| && Ingestible(scene.meshes[x], materialsToTextures)
    modifies device
    ensures fresh(mesh)
    ensures LoadedInto([RecordOf(mesh)], [x], scene, device, device.live, device.nextHandle,
                       old(device.nextHandle), old(device.live))
  {
    var vertices, indices, textureId := CopyGeometry(scene.meshes[x], materialsToTextures);
    mesh := new Mesh(device, vertexSize, vertices, indices);
    assert [RecordOf(mesh)][..0] == [];
  }

  /**
   * The loop over mMeshes in load_node: each listed scene mesh is loaded by load_mesh, in
   * list order.
   */
  method LoadMeshes(device: Device, vertexSize: nat, refs: seq<nat>, scene: AiScene, materialsToTextures: seq<nat>)
    returns (meshes: seq<Mesh>)
    requires device.Valid()
    requires forall x :: x in refs ==> x < |scene.meshes| && Ingestible(scene.meshes[x], materialsToTextures)
    modifies device
    ensures device.Valid()
    ensures LoadedInto(Records(meshes), refs, scene, device, device.live, device.nextHandle,
                       old(device.nextHandle), old(device.live))
  {
    meshes := [];
    ghost var records: seq<MeshRecord> := [];
    for i := 0 to |refs|
      invariant records == Records(meshes)
      invariant LoadedInto(records, refs[..i], scene, device, device.live, device.nextHandle,
                           old(device.nextHandle), old(device.live))
    {
      assert refs[i] in refs;
      ghost var mid, live1 := device.nextHandle, device.live;
      var mesh := LoadMesh(device, vertexSize, scene, refs[i], materialsToTextures);
      LoadedNextRef(records, refs, i, RecordOf(mesh), scene, device,
                    old(device.nextHandle), mid, device.nextHandle, old(device.live), live1, device.live);
      RecordsConcat(meshes, [mesh]);
      meshes, records := meshes + [mesh], records + [RecordOf(mesh)];
    }
    assert refs[..|refs|] == refs;
  }

  /**
   * load_node: loads the node's own meshes in mMeshes order, then appends each child's list
   * in child order. The result is the flattened subtree, each mesh uploaded from the scene
   * mesh it stands for and owning four new handles.
   */
  method LoadNode(device: Device, vertexSize: nat, node: AiNode, scene: AiScene, materialsToTextures: seq<nat>)
    returns (meshes: seq<Mesh>)
    requires device.Valid()
    requires forall x :: x in FlattenNode(node) ==>
               x < |scene.meshes| && Ingestible(scene.meshes[x], materialsToTextures)
    modifies device
    decreases node, 1
    ensures device.Valid()
    ensures LoadedInto(Records(meshes), FlattenNode(node), scene, device, device.live, device.nextHandle,
                       old(device.nextHandle), old(device.live))
  {
    assert forall x :: x in node.meshes ==> x in FlattenNode(node);
    var own := LoadMeshes(device, vertexSize, node.meshes, scene, materialsToTextures);
    ghost var live1, mid := device.live, device.nextHandle;
    var children := LoadChildren(device, vertexSize, node, scene, materialsToTextures);
    LoadedConcat(Records(own), node.meshes, Records(children), FlattenChildren(node, |node.children|), scene,
                 device, old(device.nextHandle), mid, device.nextHandle, old(device.live), live1, device.live);
    RecordsConcat(own, children);
    meshes := own + children;
  }

  /** The loop over mChildren in load_node: each child's list is appended in child order. */
  method LoadChildren(device: Device, vertexSize: nat, parent: AiNode, scene: AiScene, materialsToTextures: seq<nat>)
    returns (meshes: seq<Mesh>)
    requires device.Valid()
    requires forall x :: x in FlattenNode(parent) ==>
               x < |scene.meshes| && Ingestible(scene.meshes[x], materialsToTextures)
    modifies device
    decreases parent, 0, 1
    ensures device.Valid()
    ensures LoadedInto(Records(meshes), FlattenChildren(parent, |parent.children|), scene, device, device.live,
                       device.nextHandle, old(device.nextHandle), old(device.live))
  {
    meshes := [];
    for k := 0 to |parent.children|
      invariant device.Valid()
      invariant LoadedInto(Records(meshes), FlattenChildren(parent, k), scene, device, device.live,
                           device.nextHandle, old(device.nextHandle), old(device.live))
    {
      meshes := LoadChild(device, vertexSize, parent, k, meshes, scene, materialsToTextures,
                          old(device.nextHandle), old(device.live));
    }
  }

  /** One turn of the mChildren loop: the k-th child's list appended to what came before. */
  method LoadChild(device: Device, vertexSize: nat, parent: AiNode, k: nat, meshes: seq<Mesh>,
                   scene: AiScene, materialsToTextures: seq<nat>, ghost lo: nat, ghost before: map<Handle, Resource>)
    returns (extended: seq<Mesh>)
    requires k < |parent.children|
    requires device.Valid()
    requires forall x :: x in FlattenNode(parent) ==>
               x < |scene.meshes| && Ingestible(scene.meshes[x], materialsToTextures)
    requires LoadedInto(Records(meshes), FlattenChildren(parent, k), scene, device, device.live,
                        device.nextHandle, lo, before)
    modifies device
    decreases parent, 0, 0
    ensures device.Valid()
    ensures LoadedInto(Records(extended), FlattenChildren(parent, k + 1), scene, device, device.live,
                       device.nextHandle, lo, before)
  {
    ChildFlattenIncluded(parent, k);
    ghost var mid, live1 := device.nextHandle, device.live;
    var childMeshes := LoadNode(device, vertexSize, parent.children[k], scene, materialsToTextures);
    LoadedNextChild(Records(meshes), parent, k, Records(childMeshes), scene, device,
                    lo, mid, device.nextHandle, before, live1, device.live);
    RecordsConcat(meshes, childMeshes);
    extended := meshes + childMeshes;
  }

  // ---------------------------------------------------------------- the model

  class MeshModel {
    var meshes: seq<Mesh>
    var model: Mat4

    /** Keeps the given meshes and starts from the identity model matrix. */
    constructor (meshList: seq<Mesh>)
      ensures meshes == meshList && model == Identity()
    {
      meshes := meshList;
      model := Identity();
    }

    method GetMeshCount() returns (count: nat)
      ensures count == |meshes|
    {
      return |meshes|;
    }

    /** get_mesh: the mesh at index, or the "invalid mesh index" error past the end. */
    method GetMesh(index: nat) returns (r: Result<Mesh>)
      ensures r.Err? <==> index >= |meshes|
      ensures r.Ok? ==> r.value == meshes[index]
    {
      if index >= |meshes| {
        return Err("Attempted to access invalid mesh index!");
      }
      return Ok(meshes[index]);
    }

    method GetModelMatrix() returns (m: Mat4)
      ensures m == model
    {
      return model;
    }

    /** set_model: replaces the model matrix; the meshes stay as they are. */
    method SetModel(m: Mat4)
      modifies this`model
      ensures model == m
    {
      model := m;
    }

    /**
     * destroy_mesh_model: every mesh releases its buffers, so the device ends up owning exactly
     * what it owned before minus the handles of the model's meshes.
     */
    method DestroyMeshModel(ghost device: Device)
      requires device.Valid()
      requires Disjoint(Records(meshes)) && AllOwnedIn(Records(meshes), device, device.live)
      modifies device
      ensures device.Valid()
      ensures device.live == old(device.live) - AllHandles(Records(meshes))
    {
      ghost var records := Records(meshes);
      for i := 0 to |meshes|
        invariant device.Valid()
        invariant device.live == old(device.live) - AllHandles(records[..i])
      {
        DestroyNextStillOwned(records, device, i, old(device.live), device.live);
        meshes[i].DestroyBuffers();
      }
      assert records[..|records|] == records;
    }
  }

  /** set_model followed by get_model_matrix on a MeshModel gives back the matrix; the meshes stay. */
  method ModelSetThenGet(model: MeshModel, m: Mat4) returns (r: Mat4)
    modifies model
    ensures r == m && model.meshes == old(model.meshes)
  {
    model.SetModel(m);
    r := model.GetModelMatrix();
  }

  /**
   * Loading a scene's node tree into a MeshModel and destroying the model leaves the device
   * owning exactly what it owned before: every buffer and allocation made while loading is
   * released, and nothing else is.
   */
  method LoadThenDestroy(device: Device, vertexSize: nat, root: AiNode, scene: AiScene, materialsToTextures: seq<nat>)
    returns (model: MeshModel)
    requires device.Valid()
    requires forall x :: x in FlattenNode(root) ==>
               x < |scene.meshes| && Ingestible(scene.meshes[x], materialsToTextures)
    modifies device
    ensures device.Valid()
    ensures device.live == old(device.live)
    ensures |model.meshes| == SubtreeMeshCount(root)
  {
    var meshes := LoadNode(device, vertexSize, root, scene, materialsToTextures);
    ghost var records := Records(meshes);
    DestroyUndoesLoad(records, FlattenNode(root), scene, device, device.live, device.nextHandle,
                      old(device.nextHandle), old(device.live));
    FlattenNodeLength(root);
    model := new MeshModel(meshes);
    OrderedIsDisjoint(records, old(device.nextHandle), device.nextHandle);
    model.DestroyMeshModel(device);
  }
}
