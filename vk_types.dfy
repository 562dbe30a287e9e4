/**
 * The parts of the Vulkan and glm vocabulary that the renderer's decisions look at.
 * Enumerants keep the numeric values the Vulkan headers give them; handles are plain
 * numbers with no meaning beyond identity; floating-point values are kept as their
 * 32-bit patterns, on which nothing computes.
 */
module VkTypes {

  const U32_LIMIT: int := 0x1_0000_0000
  /** std::numeric_limits<uint32_t>::max(), the "extent decided by the swapchain" sentinel. */
  const U32_MAX: int := 0xFFFF_FFFF

  type u32 = x: int | 0 <= x < U32_LIMIT

  /** static_cast<uint32_t> of an integer: wrap-around modulo 2^32. */
  function ToU32(x: int): (r: u32)
    ensures 0 <= x < U32_LIMIT ==> r == x
    ensures -U32_LIMIT <= x < 0 ==> r == x + U32_LIMIT
  {
    x % U32_LIMIT
  }

  // VkFormat
  type Format = int
  const FORMAT_UNDEFINED: Format := 0
  const FORMAT_R8G8B8A8_UNORM: Format := 37
  const FORMAT_B8G8R8A8_UNORM: Format := 44

  // VkColorSpaceKHR
  type ColorSpace = int
  const COLOR_SPACE_SRGB_NONLINEAR: ColorSpace := 0

  // VkPresentModeKHR
  type PresentMode = int
  const PRESENT_MODE_IMMEDIATE: PresentMode := 0
  const PRESENT_MODE_MAILBOX: PresentMode := 1
  const PRESENT_MODE_FIFO: PresentMode := 2
  const PRESENT_MODE_FIFO_RELAXED: PresentMode := 3

  // VkQueueFlags
  const QUEUE_GRAPHICS_BIT: bv32 := 1

  datatype SurfaceFormat = SurfaceFormat(format: Format, colorSpace: ColorSpace)

  datatype Extent2D = Extent2D(width: u32, height: u32)

  /** The fields of VkSurfaceCapabilitiesKHR that the swapchain set-up reads. */
  datatype SurfaceCapabilities = SurfaceCapabilities(
    minImageCount: u32,
    maxImageCount: u32,
    currentExtent: Extent2D,
    minImageExtent: Extent2D,
    maxImageExtent: Extent2D,
    currentTransform: u32)

  datatype QueueFamilyProperties = QueueFamilyProperties(queueFlags: bv32, queueCount: u32)

  /** An opaque Vulkan handle (VkImage, VkImageView, VkBuffer, VkDeviceMemory, ...). */
  type Handle = nat

  /** A 32-bit float, kept as its bit pattern. */
  datatype Float = Float(bits: bv32)

  const ZERO: Float := Float(0x0000_0000)
  const ONE: Float := Float(0x3F80_0000)

  datatype Vec2 = Vec2(x: Float, y: Float)
  datatype Vec3 = Vec3(x: Float, y: Float, z: Float)

  /** glm::mat4, column by column. */
  datatype Mat4 = Mat4(columns: seq<seq<Float>>)

  /** glm::mat4(1.f): ones on the diagonal, zeros elsewhere. */
  function Identity(): (m: Mat4)
    ensures |m.columns| == 4
    ensures forall c :: 0 <= c < 4 ==> |m.columns[c]| == 4
    ensures forall c, r :: 0 <= c < 4 && 0 <= r < 4 ==>
              m.columns[c][r] == (if c == r then ONE else ZERO)
  {
    Mat4([[ONE, ZERO, ZERO, ZERO],
          [ZERO, ONE, ZERO, ZERO],
          [ZERO, ZERO, ONE, ZERO],
          [ZERO, ZERO, ZERO, ONE]])
  }
}
