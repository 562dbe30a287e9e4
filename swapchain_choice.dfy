/**
 * The swapchain parameters picked by VulkanRenderer: surface format, present mode,
 * extent, image count and image sharing mode. These are the decision rules of the
 * Window System Integration chapter of the Vulkan 1.3 specification as the renderer
 * applies them.
 */
module SwapchainChoice {
  import opened VkTypes
  import opened Utilities

  /** The surface formats the renderer prefers: 8-bit RGBA or BGRA, sRGB non-linear. */
  predicate IsPreferredFormat(f: SurfaceFormat) {
    (f.format == FORMAT_R8G8B8A8_UNORM || f.format == FORMAT_B8G8R8A8_UNORM)
    && f.colorSpace == COLOR_SPACE_SRGB_NONLINEAR
  }

  /** The position of the first preferred format in the list, if there is one. */
  function FirstPreferredFormat(formats: seq<SurfaceFormat>): (k: int)
    ensures -1 <= k < |formats|
    ensures k >= 0 ==> IsPreferredFormat(formats[k])
    ensures k >= 0 ==> forall j :: 0 <= j < k ==> !IsPreferredFormat(formats[j])
    ensures k == -1 ==> forall j :: 0 <= j < |formats| ==> !IsPreferredFormat(formats[j])
  {
    if |formats| == 0 then -1
    else if IsPreferredFormat(formats[0]) then 0
    else
      var k := FirstPreferredFormat(formats[1..]);
      if k == -1 then -1 else k + 1
  }

  /**
   * choose_surface_format: a single UNDEFINED entry means every format is allowed, so the
   * renderer takes R8G8B8A8_UNORM with sRGB non-linear; otherwise the first preferred entry;
   * otherwise the first entry. The list is non-empty on every device that passed
   * device_supports_requirements.
   */
  function ChooseSurfaceFormat(formats: seq<SurfaceFormat>): (r: SurfaceFormat)
    requires |formats| > 0
    ensures |formats| == 1 && formats[0].format == FORMAT_UNDEFINED ==>
              r == SurfaceFormat(FORMAT_R8G8B8A8_UNORM, COLOR_SPACE_SRGB_NONLINEAR)
    ensures !(|formats| == 1 && formats[0].format == FORMAT_UNDEFINED) ==> r in formats
    ensures !(|formats| == 1 && formats[0].format == FORMAT_UNDEFINED) ==>
              forall k :: 0 <= k < |formats| && IsPreferredFormat(formats[k])
                          && (forall j :: 0 <= j < k ==> !IsPreferredFormat(formats[j]))
                          ==> r == formats[k]
    ensures !(|formats| == 1 && formats[0].format == FORMAT_UNDEFINED)
            && (forall j :: 0 <= j < |formats| ==> !IsPreferredFormat(formats[j]))
            ==> r == formats[0]
  {
    if |formats| == 1 && formats[0].format == FORMAT_UNDEFINED then
      SurfaceFormat(FORMAT_R8G8B8A8_UNORM, COLOR_SPACE_SRGB_NONLINEAR)
    else
      var k := FirstPreferredFormat(formats);
      if k >= 0 then formats[k] else formats[0]
  }

  /** Whenever the list holds a preferred format, the choice is a preferred format. */
  lemma ChosenFormatIsPreferredWhenOffered(formats: seq<SurfaceFormat>, i: nat)
    requires i < |formats| && IsPreferredFormat(formats[i])
    ensures IsPreferredFormat(ChooseSurfaceFormat(formats))
  {
    var k := FirstPreferredFormat(formats);
    assert k >= 0;
  }

  /**
   * choose_presentation_mode: MAILBOX when the surface offers it, otherwise FIFO, the one
   * mode every implementation must support.
   */
  function ChoosePresentationMode(modes: seq<PresentMode>): (r: PresentMode)
    ensures r == PRESENT_MODE_MAILBOX <==> PRESENT_MODE_MAILBOX in modes
    ensures r == PRESENT_MODE_MAILBOX || r == PRESENT_MODE_FIFO
  {
    if |modes| == 0 then PRESENT_MODE_FIFO
    else if modes[0] == PRESENT_MODE_MAILBOX then modes[0]
    else
      var r := ChoosePresentationMode(modes[1..]);
      assert modes == [modes[0]] + modes[1..];
      r
  }

  /** std::clamp(v, lo, hi) as libstdc++ writes it: (v < lo) ? lo : (hi < v) ? hi : v. */
  function Clamp(v: u32, lo: u32, hi: u32): (r: u32)
    ensures lo <= hi ==> lo <= r <= hi
    ensures lo <= v <= hi ==> r == v
    ensures v < lo ==> r == lo
    ensures lo <= v && hi < v ==> r == hi
  {
    if v < lo then lo else if hi < v then hi else v
  }

  /**
   * choose_swapchain_extent: the surface's current extent unless its width is the
   * UINT32_MAX sentinel; then the framebuffer size (GLFW reports it as two ints, cast to
   * uint32_t) clamped into the surface's minimum and maximum extent.
   */
  function ChooseSwapchainExtent(caps: SurfaceCapabilities, framebufferWidth: int, framebufferHeight: int)
    : (r: Extent2D)
    ensures caps.currentExtent.width != U32_MAX ==> r == caps.currentExtent
    ensures caps.currentExtent.width == U32_MAX ==>
              (caps.minImageExtent.width <= caps.maxImageExtent.width ==>
                 caps.minImageExtent.width <= r.width <= caps.maxImageExtent.width)
              && (caps.minImageExtent.height <= caps.maxImageExtent.height ==>
                 caps.minImageExtent.height <= r.height <= caps.maxImageExtent.height)
    ensures caps.currentExtent.width == U32_MAX && 0 <= framebufferWidth < U32_LIMIT
            && caps.minImageExtent.width <= framebufferWidth <= caps.maxImageExtent.width
            ==> r.width == framebufferWidth
    ensures caps.currentExtent.width == U32_MAX && 0 <= framebufferHeight < U32_LIMIT
            && caps.minImageExtent.height <= framebufferHeight <= caps.maxImageExtent.height
            ==> r.height == framebufferHeight
    ensures caps.currentExtent.width == U32_MAX ==>
              && r.width == Clamp(ToU32(framebufferWidth), caps.minImageExtent.width, caps.maxImageExtent.width)
              && r.height == Clamp(ToU32(framebufferHeight), caps.minImageExtent.height, caps.maxImageExtent.height)
  {
    if caps.currentExtent.width != U32_MAX then caps.currentExtent
    else
      var newExtent := Extent2D(ToU32(framebufferWidth), ToU32(framebufferHeight));
      Extent2D(Clamp(newExtent.width, caps.minImageExtent.width, caps.maxImageExtent.width),
               Clamp(newExtent.height, caps.minImageExtent.height, caps.maxImageExtent.height))
  }

  /**
   * With the sentinel width, a framebuffer larger than the surface allows on both sides gets
   * the surface's maximum extent, and one smaller on both sides gets the minimum.
   */
  lemma FramebufferOutsideLimitsGetsNearestLimit(caps: SurfaceCapabilities, framebufferWidth: int, framebufferHeight: int)
    requires caps.currentExtent.width == U32_MAX
    requires caps.minImageExtent.width <= caps.maxImageExtent.width
    requires caps.minImageExtent.height <= caps.maxImageExtent.height
    requires 0 <= framebufferWidth < U32_LIMIT && 0 <= framebufferHeight < U32_LIMIT
    ensures caps.maxImageExtent.width < framebufferWidth && caps.maxImageExtent.height < framebufferHeight
            ==> ChooseSwapchainExtent(caps, framebufferWidth, framebufferHeight) == caps.maxImageExtent
    ensures framebufferWidth < caps.minImageExtent.width && framebufferHeight < caps.minImageExtent.height
            ==> ChooseSwapchainExtent(caps, framebufferWidth, framebufferHeight) == caps.minImageExtent
  {
  }

  /** A 1200 x 675 framebuffer on a surface limited to 100 x 100 .. 800 x 600 gets 800 x 600. */
  lemma LargeFramebufferGetsMaximumExtent()
    ensures ChooseSwapchainExtent(SurfaceCapabilities(2, 0, Extent2D(U32_MAX, U32_MAX), Extent2D(100, 100),
                                                      Extent2D(800, 600), 1), 1200, 675)
            == Extent2D(800, 600)
  {
  }

  /**
   * The image count requested in create_swapchain: one more than the surface's minimum
   * (a uint32_t sum, so a minimum of UINT32_MAX wraps to 0), lowered to the maximum only when
   * that maximum is non-zero (zero means "no limit") and smaller.
   */
  function SwapchainImageCount(caps: SurfaceCapabilities): (r: u32)
    ensures caps.minImageCount < U32_MAX && (caps.maxImageCount == 0 || caps.maxImageCount > caps.minImageCount)
            ==> r == caps.minImageCount + 1
    ensures 0 < caps.maxImageCount < ToU32(caps.minImageCount + 1) ==> r == caps.maxImageCount
    ensures caps.maxImageCount > 0 ==> r <= caps.maxImageCount
    ensures caps.minImageCount == U32_MAX ==> r == 0
  {
    var imageCount := ToU32(caps.minImageCount + 1);
    if caps.maxImageCount > 0 && caps.maxImageCount < imageCount then caps.maxImageCount else imageCount
  }

  /**
   * On a surface that obeys the Vulkan rules (at least one image, a maximum that is zero or
   * at least the minimum), the request is at least the minimum and within the maximum.
   */
  lemma ImageCountWithinSurfaceLimits(caps: SurfaceCapabilities)
    requires 1 <= caps.minImageCount < U32_MAX
    requires caps.maxImageCount == 0 || caps.maxImageCount >= caps.minImageCount
    ensures caps.minImageCount <= SwapchainImageCount(caps)
    ensures caps.maxImageCount > 0 ==> SwapchainImageCount(caps) <= caps.maxImageCount
    ensures SwapchainImageCount(caps) <= caps.minImageCount + 1
  {
  }

  /** A reported minimum of 1 with no maximum gives exactly two images. */
  lemma UnboundedSurfaceGetsTwoImages(caps: SurfaceCapabilities)
    requires caps.minImageCount == 1 && caps.maxImageCount == 0
    ensures SwapchainImageCount(caps) == 2
  {
  }

  /** VkSharingMode, with the family indices a concurrent swapchain is shared between. */
  datatype SharingMode = Exclusive | Concurrent(queueFamilyIndices: seq<u32>)

  /**
   * The sharing decision of create_swapchain: exclusive when graphics and presentation use
   * the same family, otherwise concurrent between both (each index cast to uint32_t).
   */
  function ChooseSharingMode(indices: QueueFamilyIndices): (r: SharingMode)
    ensures r.Exclusive? <==> indices.graphicsFamily == indices.presentationFamily
    ensures r.Concurrent? ==> |r.queueFamilyIndices| == 2
    ensures r.Concurrent? && indices.AreAllValid() && indices.graphicsFamily < U32_LIMIT
            && indices.presentationFamily < U32_LIMIT ==>
              r.queueFamilyIndices[0] == indices.graphicsFamily
              && r.queueFamilyIndices[1] == indices.presentationFamily
              && r.queueFamilyIndices[0] != r.queueFamilyIndices[1]
  {
    if indices.graphicsFamily != indices.presentationFamily then
      Concurrent([ToU32(indices.graphicsFamily), ToU32(indices.presentationFamily)])
    else
      Exclusive
  }
}
