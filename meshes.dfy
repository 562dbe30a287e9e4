/**
 * A mesh uploaded to the GPU: its vertex and index counts, its per-instance model matrix and
 * the device-local vertex and index buffers it owns. Uploading goes through a staging buffer
 * that is created and released inside the upload, so that afterwards the mesh owns exactly
 * one buffer and one allocation per array.
 */
module Meshes {
  import opened VkTypes
  import opened DeviceMemory

  /** The vertex format the geometry pass reads. */
  datatype Vertex = Vertex(position: Vec3, texCoords: Vec2)

  /** The model matrix as the mesh keeps it (the UboModel record). */
  datatype UboModel = UboModel(model: Mat4)

  /** sizeof(uint32_t), the size of one index. */
  const INDEX_SIZE: nat := 4

  /** The buffers and allocations of a mesh, in the order they are created. */
  datatype MeshBuffers = MeshBuffers(vertexBuffer: Handle, vertexBufferMemory: Handle,
                                     indexBuffer: Handle, indexBufferMemory: Handle)
  {
    function Handles(): set<Handle> {
      {vertexBuffer, vertexBufferMemory, indexBuffer, indexBufferMemory}
    }

    predicate InOrder() {
      vertexBuffer < vertexBufferMemory < indexBuffer < indexBufferMemory
    }

    /** Four distinct handles, each live in the ledger as the right kind of resource. */
    predicate OwnedIn(live: map<Handle, Resource>) {
      && InOrder()
      && vertexBuffer in live && live[vertexBuffer].Buffer?
      && vertexBufferMemory in live && live[vertexBufferMemory].Memory?
      && indexBuffer in live && live[indexBuffer].Buffer?
      && indexBufferMemory in live && live[indexBufferMemory].Memory?
    }
  }

  /**
   * The staging protocol's effect on the ledger: creating the staging pair, then the
   * destination pair, then releasing the staging pair leaves only the destination pair added.
   */
  lemma StagingLeavesDestination(live: map<Handle, Resource>, staging: Handle, stagingMemory: Handle,
                                 destination: Handle, destinationMemory: Handle,
                                 a: Resource, b: Resource, c: Resource, d: Resource)
    requires staging !in live && stagingMemory !in live && staging != stagingMemory
    requires staging < destination && stagingMemory < destination && destination < destinationMemory
    ensures live[staging := a][stagingMemory := b][destination := c][destinationMemory := d]
              - {staging} - {stagingMemory}
            == live[destination := c][destinationMemory := d]
  {
  }

  class Mesh {
    // Set once by the constructor and never reassigned afterwards.
    const vertexCount: u32
    const vertexBuffer: Handle
    const vertexBufferMemory: Handle
    const indexCount: u32
    const indexBuffer: Handle
    const indexBufferMemory: Handle
    /** The logical device the buffers belong to. */
    const device: Device
    /** The only state a mesh updates after construction. */
    var uboModel: UboModel

    /** The four handles the mesh owns. */
    function Buffers(): MeshBuffers
    {
      MeshBuffers(vertexBuffer, vertexBufferMemory, indexBuffer, indexBufferMemory)
    }

    function Handles(): set<Handle>
    {
      Buffers().Handles()
    }

    /** The mesh owns four distinct live handles of the right kinds on its device. */
    ghost predicate OwnsBuffers()
      reads device
    {
      device.Valid() && Buffers().OwnedIn(device.live)
    }

    /**
     * Records the counts (as uint32_t), uploads both arrays and starts from the identity
     * model matrix. vertexSize is sizeof(Vertex).
     */
    constructor (device: Device, vertexSize: nat, vertices: seq<Vertex>, indices: seq<u32>)
      requires device.Valid()
      modifies device
      ensures this.device == device && OwnsBuffers()
      ensures vertexCount == ToU32(|vertices|) && indexCount == ToU32(|indices|)
      ensures uboModel == UboModel(Identity())
      ensures old(device.nextHandle) <= vertexBuffer && indexBufferMemory < device.nextHandle
      ensures device.live == old(device.live)
        [vertexBuffer := Buffer(vertexSize * |vertices|, BUFFER_USAGE_TRANSFER_DST_BIT | BUFFER_USAGE_VERTEX_BUFFER_BIT)]
        [vertexBufferMemory := Memory(MEMORY_PROPERTY_DEVICE_LOCAL_BIT)]
        [indexBuffer := Buffer(INDEX_SIZE * |indices|, BUFFER_USAGE_TRANSFER_DST_BIT | BUFFER_USAGE_INDEX_BUFFER_BIT)]
        [indexBufferMemory := Memory(MEMORY_PROPERTY_DEVICE_LOCAL_BIT)]
    {
      vertexCount := ToU32(|vertices|);
      indexCount := ToU32(|indices|);
      this.device := device;
      var vb, vbm := CreateVertexBuffer(device, vertexSize, vertices);
      var ib, ibm := CreateIndexBuffer(device, indices);
      vertexBuffer, vertexBufferMemory, indexBuffer, indexBufferMemory := vb, vbm, ib, ibm;
      uboModel := UboModel(Identity());
    }

    /**
     * create_vertex_buffer: a host-visible staging buffer of sizeof(Vertex) * count bytes,
     * then the device-local vertex buffer the data is copied into, then the staging buffer
     * and its memory are released.
     */
    static method CreateVertexBuffer(device: Device, vertexSize: nat, vertices: seq<Vertex>)
      returns (vertexBuffer: Handle, vertexBufferMemory: Handle)
      requires device.Valid()
      modifies device
      ensures device.Valid()
      ensures old(device.nextHandle) <= vertexBuffer < vertexBufferMemory < device.nextHandle
      ensures device.live == old(device.live)
        [vertexBuffer := Buffer(vertexSize * |vertices|, BUFFER_USAGE_TRANSFER_DST_BIT | BUFFER_USAGE_VERTEX_BUFFER_BIT)]
        [vertexBufferMemory := Memory(MEMORY_PROPERTY_DEVICE_LOCAL_BIT)]
    {
      ghost var live0 := device.live;
      var bufferSize := vertexSize * |vertices|;
      var stagingBuffer, stagingBufferMemory := device.CreateBuffer(bufferSize, BUFFER_USAGE_TRANSFER_SRC_BIT,
        MEMORY_PROPERTY_HOST_VISIBLE_BIT | MEMORY_PROPERTY_HOST_COHERENT_BIT);
      // Mapping the staging memory and copying the vertices into it moves bytes only.
      vertexBuffer, vertexBufferMemory := device.CreateBuffer(bufferSize,
        BUFFER_USAGE_TRANSFER_DST_BIT | BUFFER_USAGE_VERTEX_BUFFER_BIT, MEMORY_PROPERTY_DEVICE_LOCAL_BIT);
      // copy_buffer moves bytes only.
      device.DestroyBuffer(stagingBuffer);
      device.FreeMemory(stagingBufferMemory);
      StagingLeavesDestination(live0, stagingBuffer, stagingBufferMemory, vertexBuffer, vertexBufferMemory,
                               Buffer(bufferSize, BUFFER_USAGE_TRANSFER_SRC_BIT),
                               Memory(MEMORY_PROPERTY_HOST_VISIBLE_BIT | MEMORY_PROPERTY_HOST_COHERENT_BIT),
                               Buffer(bufferSize, BUFFER_USAGE_TRANSFER_DST_BIT | BUFFER_USAGE_VERTEX_BUFFER_BIT),
                               Memory(MEMORY_PROPERTY_DEVICE_LOCAL_BIT));
    }

    /** create_index_buffer: the same protocol for 4 * count bytes of uint32_t indices. */
    static method CreateIndexBuffer(device: Device, indices: seq<u32>)
      returns (indexBuffer: Handle, indexBufferMemory: Handle)
      requires device.Valid()
      modifies device
      ensures device.Valid()
      ensures old(device.nextHandle) <= indexBuffer < indexBufferMemory < device.nextHandle
      ensures device.live == old(device.live)
        [indexBuffer := Buffer(INDEX_SIZE * |indices|, BUFFER_USAGE_TRANSFER_DST_BIT | BUFFER_USAGE_INDEX_BUFFER_BIT)]
        [indexBufferMemory := Memory(MEMORY_PROPERTY_DEVICE_LOCAL_BIT)]
    {
      ghost var live0 := device.live;
      var bufferSize := INDEX_SIZE * |indices|;
      var stagingBuffer, stagingBufferMemory := device.CreateBuffer(bufferSize, BUFFER_USAGE_TRANSFER_SRC_BIT,
        MEMORY_PROPERTY_HOST_VISIBLE_BIT | MEMORY_PROPERTY_HOST_COHERENT_BIT);
      indexBuffer, indexBufferMemory := device.CreateBuffer(bufferSize,
        BUFFER_USAGE_TRANSFER_DST_BIT | BUFFER_USAGE_INDEX_BUFFER_BIT, MEMORY_PROPERTY_DEVICE_LOCAL_BIT);
      device.DestroyBuffer(stagingBuffer);
      device.FreeMemory(stagingBufferMemory);
      StagingLeavesDestination(live0, stagingBuffer, stagingBufferMemory, indexBuffer, indexBufferMemory,
                               Buffer(bufferSize, BUFFER_USAGE_TRANSFER_SRC_BIT),
                               Memory(MEMORY_PROPERTY_HOST_VISIBLE_BIT | MEMORY_PROPERTY_HOST_COHERENT_BIT),
                               Buffer(bufferSize, BUFFER_USAGE_TRANSFER_DST_BIT | BUFFER_USAGE_INDEX_BUFFER_BIT),
                               Memory(MEMORY_PROPERTY_DEVICE_LOCAL_BIT));
    }

    /** destroy_buffers: releases exactly the four handles the mesh owns. */
    method DestroyBuffers()
      requires OwnsBuffers()
      modifies device
      ensures device.Valid() && device.nextHandle == old(device.nextHandle)
      ensures device.live == old(device.live) - Handles()
    {
      device.DestroyBuffer(vertexBuffer);
      device.FreeMemory(vertexBufferMemory);
      device.DestroyBuffer(indexBuffer);
      device.FreeMemory(indexBufferMemory);
    }

    method GetVertexCount() returns (count: u32)
      ensures count == vertexCount
    {
      return vertexCount;
    }

    method GetIndexCount() returns (count: u32)
      ensures count == indexCount
    {
      return indexCount;
    }

    method GetVertexBuffer() returns (buffer: Handle)
      ensures buffer == vertexBuffer
    {
      return vertexBuffer;
    }

    method GetIndexBuffer() returns (buffer: Handle)
      ensures buffer == indexBuffer
    {
      return indexBuffer;
    }

    /** set_model: replaces the model matrix and nothing else. */
    method SetModel(modelMatrix: Mat4)
      modifies this`uboModel
      ensures uboModel == UboModel(modelMatrix)
    {
      uboModel := uboModel.(model := modelMatrix);
    }

    method GetModelMatrix() returns (ubo: UboModel)
      ensures ubo == uboModel
    {
      return uboModel;
    }
  }

  /** set_model followed by get_model_matrix gives back the matrix; counts and buffers are constants. */
  method MeshSetThenGet(mesh: Mesh, m: Mat4) returns (r: UboModel)
    modifies mesh
    ensures r == UboModel(m)
  {
    mesh.SetModel(m);
    r := mesh.GetModelMatrix();
  }
}
