/**
 * An abstract ledger of the buffers and memory allocations a logical device owns. It stands
 * for vkCreateBuffer/vkAllocateMemory (through the create_buffer helper) and
 * vkDestroyBuffer/vkFreeMemory: each creation hands out handles never seen before, each
 * destruction releases exactly one live handle. No bytes are modelled.
 */
module DeviceMemory {
  import opened VkTypes

  // VkBufferUsageFlagBits
  const BUFFER_USAGE_TRANSFER_SRC_BIT: bv32 := 0x0000_0001
  const BUFFER_USAGE_TRANSFER_DST_BIT: bv32 := 0x0000_0002
  const BUFFER_USAGE_INDEX_BUFFER_BIT: bv32 := 0x0000_0040
  const BUFFER_USAGE_VERTEX_BUFFER_BIT: bv32 := 0x0000_0080

  // VkMemoryPropertyFlagBits
  const MEMORY_PROPERTY_DEVICE_LOCAL_BIT: bv32 := 0x0000_0001
  const MEMORY_PROPERTY_HOST_VISIBLE_BIT: bv32 := 0x0000_0002
  const MEMORY_PROPERTY_HOST_COHERENT_BIT: bv32 := 0x0000_0004

  /** What a live handle names: a buffer of some size and usage, or a memory allocation. */
  datatype Resource = Buffer(size: nat, usage: bv32) | Memory(properties: bv32)

  class Device {
    /** Every handle the device currently owns, with what it names. */
    var live: map<Handle, Resource>
    /** Handles below this one have been handed out already. */
    var nextHandle: Handle

    ghost predicate Valid()
      reads this
    {
      forall h :: h in live ==> h < nextHandle
    }

    constructor ()
      ensures Valid() && live == map[]
    {
      live := map[];
      nextHandle := 0;
    }

    /**
     * create_buffer: a new buffer of the given size and usage, and a new memory allocation
     * with the given properties bound to it.
     */
    method CreateBuffer(size: nat, usage: bv32, properties: bv32) returns (buffer: Handle, memory: Handle)
      requires Valid()
      modifies this
      ensures Valid()
      ensures old(nextHandle) <= buffer < memory < nextHandle
      ensures live == old(live)[buffer := Buffer(size, usage)][memory := Memory(properties)]
    {
      buffer := nextHandle;
      memory := nextHandle + 1;
      nextHandle := nextHandle + 2;
      live := live[buffer := Buffer(size, usage)][memory := Memory(properties)];
    }

    /** vkDestroyBuffer on a live buffer. */
    method DestroyBuffer(buffer: Handle)
      requires Valid() && buffer in live && live[buffer].Buffer?
      modifies this
      ensures Valid() && nextHandle == old(nextHandle)
      ensures live == old(live) - {buffer}
    {
      live := live - {buffer};
    }

    /** vkFreeMemory on a live allocation. */
    method FreeMemory(memory: Handle)
      requires Valid() && memory in live && live[memory].Memory?
      modifies this
      ensures Valid() && nextHandle == old(nextHandle)
      ensures live == old(live) - {memory}
    {
      live := live - {memory};
    }
  }
}
