/**
 * The set-up and tear-down of VulkanRenderer: instance checks, the choice of a physical
 * device, the logical device's queues, the swapchain and its image views, and the order in
 * which free() destroys what init() created. Every Vulkan call becomes either an input (the
 * answers of queries) or an entry in a log of created and destroyed objects.
 */
module Renderer {
  import opened VkTypes
  import opened Wrappers
  import opened Utilities
  import opened SwapchainChoice
  import opened Capabilities

  /** The validation layers requested when validation is enabled. */
  const REQUESTED_VALIDATION_LAYER_NAMES: seq<string> := ["VK_LAYER_KHRONOS_validation"]

  const EXIT_SUCCESS: int := 0
  const EXIT_FAILURE: int := 1

  // ---------------------------------------------------------------- object lifetimes

  /** The Vulkan objects the renderer creates and destroys itself. */
  datatype VkObject = Instance | Surface | LogicalDevice | Swapchain | ImageView(handle: Handle)

  /**
   * Vulkan's lifetime rules between these objects: parent must outlive child. A surface and a
   * logical device (through its physical device) come from the instance, a swapchain is made
   * on the device for the surface, and an image view is made on the device for an image the
   * swapchain owns.
   */
  predicate IsParentOf(parent: VkObject, child: VkObject) {
    match child
    case Instance => false
    case Surface => parent.Instance?
    case LogicalDevice => parent.Instance?
    case Swapchain => parent.LogicalDevice? || parent.Surface?
    case ImageView(_) => parent.LogicalDevice? || parent.Swapchain?
  }

  /** No object is destroyed before one of its children. */
  predicate ChildrenBeforeParents(order: seq<VkObject>) {
    forall i, j :: 0 <= i < j < |order| ==> !IsParentOf(order[i], order[j])
  }

  /** No object is created after one of its children. */
  predicate ParentsBeforeChildren(order: seq<VkObject>) {
    forall i, j :: 0 <= i < j < |order| ==> !IsParentOf(order[j], order[i])
  }

  /** A swapchain image with the view the renderer made for it. */
  datatype SwapchainImage = SwapchainImage(image: Handle, imageView: Handle)

  /** The image views of the images, in order. */
  function ViewObjects(images: seq<SwapchainImage>): (views: seq<VkObject>)
    ensures |views| == |images|
    ensures forall i :: 0 <= i < |images| ==> views[i] == ImageView(images[i].imageView)
  {
    if |images| == 0 then [] else ViewObjects(images[..|images| - 1]) + [ImageView(images[|images| - 1].imageView)]
  }

  /** The images the swapchain returned, paired with views numbered from first on. */
  function NewImages(images: seq<Handle>, first: Handle): (r: seq<SwapchainImage>)
    ensures |r| == |images|
    ensures forall i :: 0 <= i < |images| ==> r[i] == SwapchainImage(images[i], first + i)
  {
    seq(|images|, i requires 0 <= i < |images| => SwapchainImage(images[i], first + i))
  }

  /** One more returned image: one more stored image and one more created view, at the end. */
  lemma AddImageStep(images: seq<Handle>, i: nat, first: Handle, stored: seq<SwapchainImage>, created: seq<VkObject>)
    requires i < |images|
    ensures stored + NewImages(images[..i + 1], first)
            == stored + NewImages(images[..i], first) + [SwapchainImage(images[i], first + i)]
    ensures created + ViewObjects(NewImages(images[..i + 1], first))
            == created + ViewObjects(NewImages(images[..i], first)) + [ImageView(first + i)]
  {
    var before, after := NewImages(images[..i], first), NewImages(images[..i + 1], first);
    assert after == before + [SwapchainImage(images[i], first + i)];
    assert after[..|before|] == before;
  }

  /** The order init() creates objects in. */
  function CreationOrder(images: seq<SwapchainImage>): seq<VkObject> {
    [Instance, Surface, LogicalDevice, Swapchain] + ViewObjects(images)
  }

  lemma CreationOrderAfterSwapchain(images: seq<SwapchainImage>)
    ensures CreationOrder(images) == [Instance, Surface] + [LogicalDevice] + [Swapchain] + ViewObjects(images)
  {
  }

  /** The order free() destroys them in. */
  function DestructionOrder(images: seq<SwapchainImage>): seq<VkObject> {
    ViewObjects(images) + [Swapchain, Surface, LogicalDevice, Instance]
  }

  function Reverse<T>(s: seq<T>): (r: seq<T>)
    ensures |r| == |s|
    ensures forall i :: 0 <= i < |s| ==> r[i] == s[|s| - 1 - i]
  {
    if |s| == 0 then [] else [s[|s| - 1]] + Reverse(s[..|s| - 1])
  }

  /** init() creates every parent before its children. */
  lemma CreationRespectsLifetimes(images: seq<SwapchainImage>)
    ensures ParentsBeforeChildren(CreationOrder(images))
  {
    var order := CreationOrder(images);
    forall i, j | 0 <= i < j < |order|
      ensures !IsParentOf(order[j], order[i])
    {
      if j >= 4 {
        assert order[j] == ImageView(images[j - 4].imageView);
      }
    }
  }

  /** free() destroys every child before its parents. */
  lemma DestructionRespectsLifetimes(images: seq<SwapchainImage>)
    ensures ChildrenBeforeParents(DestructionOrder(images))
  {
    var order := DestructionOrder(images);
    var n := |images|;
    forall i, j | 0 <= i < j < |order|
      ensures !IsParentOf(order[i], order[j])
    {
      if i < n {
        assert order[i].ImageView?;
      } else {
        assert order[n] == Swapchain && order[n + 1] == Surface;
        assert order[n + 2] == LogicalDevice && order[n + 3] == Instance;
      }
    }
  }

  /** free() destroys exactly what init() created, each object once. */
  lemma DestructionMatchesCreation(images: seq<SwapchainImage>)
    ensures multiset(DestructionOrder(images)) == multiset(CreationOrder(images))
  {
    var fixedCreated := [Instance, Surface, LogicalDevice, Swapchain];
    var fixedDestroyed := [Swapchain, Surface, LogicalDevice, Instance];
    SameObjectsReordered(fixedDestroyed, fixedCreated);
    SameMultisetAcrossEnds(ViewObjects(images), fixedDestroyed, fixedCreated);
  }

  lemma SameObjectsReordered(destroyed: seq<VkObject>, created: seq<VkObject>)
    requires destroyed == [Swapchain, Surface, LogicalDevice, Instance]
    requires created == [Instance, Surface, LogicalDevice, Swapchain]
    ensures multiset(destroyed) == multiset(created)
  {
    assert destroyed == [Swapchain] + [Surface, LogicalDevice] + [Instance];
    assert created == [Instance] + [Surface, LogicalDevice] + [Swapchain];
  }

  lemma SameMultisetAcrossEnds<T>(middle: seq<T>, a: seq<T>, b: seq<T>)
    requires multiset(a) == multiset(b)
    ensures multiset(middle + a) == multiset(b + middle)
  {
    calc {
      multiset(middle + a);
      multiset(middle) + multiset(a);
      multiset(b) + multiset(middle);
      multiset(b + middle);
    }
  }

  /**
   * free() does not destroy in the exact inverse of the creation order its own comment
   * announces: the surface goes before the logical device, which was created after it.
   */
  lemma DestructionIsNotExactReverse(images: seq<SwapchainImage>)
    ensures DestructionOrder(images) != Reverse(CreationOrder(images))
  {
    var n := |images|;
    var created := CreationOrder(images);
    assert Reverse(created)[n + 1] == created[|created| - 1 - (n + 1)] == created[2] == LogicalDevice;
    assert DestructionOrder(images)[n + 1] == Surface;
  }

  // ---------------------------------------------------------------- device selection

  /** The index of the first device that meets every requirement, or -1. */
  function FirstSuitable(available: seq<PhysicalDevice>): (k: int)
    ensures -1 <= k < |available|
    ensures k >= 0 ==> MeetsRequirements(available[k])
    ensures k >= 0 ==> forall j :: 0 <= j < k ==> !MeetsRequirements(available[j])
    ensures k == -1 <==> forall j :: 0 <= j < |available| ==> !MeetsRequirements(available[j])
  {
    if |available| == 0 then -1
    else if MeetsRequirements(available[0]) then 0
    else
      var k := FirstSuitable(available[1..]);
      if k == -1 then -1 else k + 1
  }

  /** Every device's queue-family list is short enough for the int indices of the scan. */
  predicate ScannableDevices(available: seq<PhysicalDevice>) {
    forall i :: 0 <= i < |available| ==> |available[i].queueFamilies| <= MAX_QUEUE_FAMILIES
  }

  /** The loop of obtain_physical_device: try each device in order, stop at the first that qualifies. */
  method SelectFirstSuitable(available: seq<PhysicalDevice>) returns (k: int)
    requires ScannableDevices(available)
    ensures k == FirstSuitable(available)
  {
    k := -1;
    var i := 0;
    while i < |available|
      invariant 0 <= i <= |available|
      invariant forall j :: 0 <= j < i ==> !MeetsRequirements(available[j])
    {
      var ok := DeviceSupportsRequirements(available[i]);
      if ok {
        k := i;
        break;
      }
      i := i + 1;
    }
  }

  /** What create_instance is given: what the window needs and what the loader offers. */
  datatype InstanceQuery = InstanceQuery(
    requiredExtensions: seq<string>,
    supportedExtensions: seq<string>,
    validationLayersEnabled: bool,
    supportedLayers: seq<string>)

  predicate ExtensionsSupported(q: InstanceQuery) {
    forall i :: 0 <= i < |q.requiredExtensions| ==> q.requiredExtensions[i] in q.supportedExtensions
  }

  predicate LayersSupported(q: InstanceQuery) {
    forall i :: 0 <= i < |REQUESTED_VALIDATION_LAYER_NAMES| ==> REQUESTED_VALIDATION_LAYER_NAMES[i] in q.supportedLayers
  }

  /** The swapchain parameters create_swapchain passes to vkCreateSwapchainKHR. */
  datatype SwapchainCreateInfo = SwapchainCreateInfo(
    minImageCount: u32,
    imageFormat: Format,
    imageColorSpace: ColorSpace,
    imageExtent: Extent2D,
    preTransform: u32,
    presentMode: PresentMode,
    sharing: SharingMode)

  /** The create-info create_swapchain derives from a device and the framebuffer size. */
  function SwapchainSettings(device: PhysicalDevice, framebufferWidth: int, framebufferHeight: int): SwapchainCreateInfo
    requires |device.surfaceFormats| > 0
  {
    var caps := device.surfaceCapabilities;
    var format := ChooseSurfaceFormat(device.surfaceFormats);
    SwapchainCreateInfo(SwapchainImageCount(caps), format.format, format.colorSpace,
                        ChooseSwapchainExtent(caps, framebufferWidth, framebufferHeight),
                        caps.currentTransform, ChoosePresentationMode(device.presentModes),
                        ChooseSharingMode(ScannedIndices(device.queueFamilies)))
  }

  /**
   * The first half of create_swapchain: the surface details of the device and the
   * framebuffer size turned into the swapchain's create-info.
   */
  method SwapchainParameters(device: PhysicalDevice, framebufferWidth: int, framebufferHeight: int)
    returns (info: SwapchainCreateInfo)
    requires MeetsRequirements(device) && |device.queueFamilies| <= MAX_QUEUE_FAMILIES
    ensures info == SwapchainSettings(device, framebufferWidth, framebufferHeight)
  {
    var caps := device.surfaceCapabilities;
    var surfaceFormat := ChooseSurfaceFormat(device.surfaceFormats);
    var presentMode := ChoosePresentationMode(device.presentModes);
    var extent := ChooseSwapchainExtent(caps, framebufferWidth, framebufferHeight);
    var imageCount := SwapchainImageCount(caps);
    var indices := GetQueueFamilyIndices(device.queueFamilies);
    var sharing := ChooseSharingMode(indices);
    info := SwapchainCreateInfo(imageCount, surfaceFormat.format, surfaceFormat.colorSpace,
                                extent, caps.currentTransform, presentMode, sharing);
  }

  /** create_instance succeeds: the extensions are there, and the layers too when validation is on. */
  predicate InstanceAccepted(query: InstanceQuery) {
    ExtensionsSupported(query) && (query.validationLayersEnabled ==> LayersSupported(query))
  }

  /** Some device on offer meets every requirement. */
  predicate SomeDeviceSuitable(available: seq<PhysicalDevice>) {
    exists j :: 0 <= j < |available| && MeetsRequirements(available[j])
  }

  /** What init() is given by the loader, the driver and the window. */
  datatype Environment = Environment(
    instance: InstanceQuery,
    availableDevices: seq<PhysicalDevice>,
    framebufferWidth: int,
    framebufferHeight: int,
    createdImages: seq<Handle>)

  class VulkanRenderer {
    /** The layers the instance was created with. */
    var enabledLayers: seq<string>
    /** m_device.physicalDevice; None until a device is assigned. */
    var physicalDevice: Option<PhysicalDevice>
    var enabledDeviceExtensions: seq<string>
    var queueCreateInfos: seq<DeviceQueueCreateInfo>
    /** The families m_graphicsQueue and m_presentationQueue are taken from. */
    var graphicsQueueFamily: int
    var presentationQueueFamily: int
    var swapchainCreateInfo: Option<SwapchainCreateInfo>
    var swapchainImageFormat: Format
    var swapchainExtent: Extent2D
    var swapchainImages: seq<SwapchainImage>
    /** The next handle vkCreateImageView hands out. */
    var nextHandle: Handle
    /** Every object created so far, in order. */
    var created: seq<VkObject>
    /** Every object destroyed so far, in order. */
    var destroyed: seq<VkObject>

    /** A renderer before init(): nothing created, no device chosen. */
    constructor ()
      ensures physicalDevice.None? && swapchainCreateInfo.None?
      ensures swapchainImages == [] && created == [] && destroyed == []
    {
      enabledLayers := [];
      physicalDevice := None;
      enabledDeviceExtensions := [];
      queueCreateInfos := [];
      graphicsQueueFamily, presentationQueueFamily := -1, -1;
      swapchainCreateInfo := None;
      swapchainImageFormat := FORMAT_UNDEFINED;
      swapchainExtent := Extent2D(0, 0);
      swapchainImages := [];
      nextHandle := 0;
      created := [];
      destroyed := [];
    }

    /**
     * create_instance: refuses missing instance extensions, then (when validation is on)
     * missing validation layers; otherwise creates the instance with the validation layers
     * enabled exactly when validation is on.
     */
    method CreateInstance(query: InstanceQuery) returns (outcome: Outcome)
      modifies this`enabledLayers, this`created
      ensures outcome.Pass? <==> InstanceAccepted(query)
      ensures !ExtensionsSupported(query) ==> outcome == Fail("Instance does not support required extensions!")
      ensures ExtensionsSupported(query) && query.validationLayersEnabled && !LayersSupported(query)
              ==> outcome == Fail("Requested validation layers could not be loaded!")
      ensures outcome.Pass? ==> created == old(created) + [Instance]
                                && enabledLayers == (if query.validationLayersEnabled then REQUESTED_VALIDATION_LAYER_NAMES else [])
      ensures outcome.Fail? ==> created == old(created) && enabledLayers == old(enabledLayers)
    {
      var extensionsOk := CheckInstanceExtensionSupport(query.requiredExtensions, query.supportedExtensions);
      if !extensionsOk {
        return Fail("Instance does not support required extensions!");
      }
      if query.validationLayersEnabled {
        var layersOk := CheckValidationLayerSupport(REQUESTED_VALIDATION_LAYER_NAMES, query.supportedLayers);
        if !layersOk {
          return Fail("Requested validation layers could not be loaded!");
        }
        enabledLayers := REQUESTED_VALIDATION_LAYER_NAMES;
      } else {
        enabledLayers := [];
      }
      created := created + [Instance];
      return Pass;
    }

    /** create_surface: the window's surface on the instance. */
    method CreateSurface()
      modifies this`created
      ensures created == old(created) + [Surface]
    {
      created := created + [Surface];
    }

    /**
     * obtain_physical_device as written: an empty device list is an error; otherwise the
     * first device that meets the requirements is assigned, and when none does, the field
     * keeps whatever it held and the call still succeeds.
     */
    method ObtainPhysicalDevice(available: seq<PhysicalDevice>) returns (outcome: Outcome)
      requires ScannableDevices(available)
      modifies this`physicalDevice
      ensures outcome.Fail? <==> |available| == 0
      ensures outcome.Fail? ==> outcome.message == "No devices available in the current instance!"
      ensures FirstSuitable(available) >= 0 ==> physicalDevice == Some(available[FirstSuitable(available)])
      ensures FirstSuitable(available) == -1 ==> physicalDevice == old(physicalDevice)
    {
      if |available| == 0 {
        return Fail("No devices available in the current instance!");
      }
      var k := SelectFirstSuitable(available);
      if k >= 0 {
        physicalDevice := Some(available[k]);
      }
      return Pass;
    }

    /**
     * obtain_physical_device as evidently intended: the same selection, but a list in which
     * no device qualifies is an error too, so success always leaves a suitable device.
     */
    method ObtainSuitablePhysicalDevice(available: seq<PhysicalDevice>) returns (outcome: Outcome)
      requires ScannableDevices(available)
      modifies this`physicalDevice
      ensures outcome.Pass? <==> SomeDeviceSuitable(available)
      ensures |available| == 0 ==> outcome == Fail("No devices available in the current instance!")
      ensures outcome.Pass? ==> physicalDevice == Some(available[FirstSuitable(available)])
                                && MeetsRequirements(physicalDevice.value)
      ensures outcome.Fail? ==> physicalDevice == old(physicalDevice)
    {
      if |available| == 0 {
        return Fail("No devices available in the current instance!");
      }
      var k := SelectFirstSuitable(available);
      if k < 0 {
        return Fail("No physical device meets the requirements!");
      }
      physicalDevice := Some(available[k]);
      return Pass;
    }

    /**
     * create_logical_device: one queue per distinct family of the selected device, the
     * swapchain extension enabled, and the graphics and presentation queues taken from the
     * families the scan found.
     */
    method CreateLogicalDevice()
      requires physicalDevice.Some? && MeetsRequirements(physicalDevice.value)
      requires |physicalDevice.value.queueFamilies| <= MAX_QUEUE_FAMILIES
      modifies this`enabledDeviceExtensions, this`queueCreateInfos, this`graphicsQueueFamily,
               this`presentationQueueFamily, this`created
      ensures var families := physicalDevice.value.queueFamilies;
              && graphicsQueueFamily == ScannedIndices(families).graphicsFamily
              && presentationQueueFamily == ScannedIndices(families).presentationFamily
              && 0 <= graphicsQueueFamily < |families| && UsableForGraphics(families[graphicsQueueFamily])
              && 0 <= presentationQueueFamily < |families| && UsableForPresentation(families[presentationQueueFamily])
      ensures |queueCreateInfos| == (if graphicsQueueFamily == presentationQueueFamily then 1 else 2)
      ensures (set i | 0 <= i < |queueCreateInfos| :: queueCreateInfos[i].queueFamilyIndex as int)
              == {graphicsQueueFamily, presentationQueueFamily}
      ensures forall i :: 0 <= i < |queueCreateInfos| ==> queueCreateInfos[i].queueCount == 1
      ensures forall i, j :: 0 <= i < j < |queueCreateInfos| ==>
                queueCreateInfos[i].queueFamilyIndex < queueCreateInfos[j].queueFamilyIndex
      ensures enabledDeviceExtensions == RequestedDeviceExtensionNames()
      ensures created == old(created) + [LogicalDevice]
    {
      var indices := GetQueueFamilyIndices(physicalDevice.value.queueFamilies);
      queueCreateInfos := QueueCreateInfos(indices);
      enabledDeviceExtensions := RequestedDeviceExtensionNames();
      created := created + [LogicalDevice];
      graphicsQueueFamily := indices.graphicsFamily;
      presentationQueueFamily := indices.presentationFamily;
    }

    /** create_image_view: a new view of image with the given format. */
    method CreateImageView(image: Handle, format: Format) returns (view: Handle)
      modifies this`nextHandle, this`created
      ensures view == old(nextHandle) && nextHandle == view + 1
      ensures created == old(created) + [ImageView(view)]
    {
      view := nextHandle;
      nextHandle := nextHandle + 1;
      created := created + [ImageView(view)];
    }

    /**
     * create_swapchain: derives the create-info from the selected device's surface details
     * and the framebuffer size, creates the swapchain, records its format and extent, then
     * appends one image and a new view of it for every image the swapchain returned.
     */
    method CreateSwapchain(framebufferWidth: int, framebufferHeight: int, createdImages: seq<Handle>)
      requires physicalDevice.Some? && MeetsRequirements(physicalDevice.value)
      requires |physicalDevice.value.queueFamilies| <= MAX_QUEUE_FAMILIES
      modifies this`swapchainCreateInfo, this`swapchainImageFormat, this`swapchainExtent,
               this`swapchainImages, this`nextHandle, this`created
      ensures swapchainCreateInfo == Some(SwapchainSettings(physicalDevice.value, framebufferWidth, framebufferHeight))
      ensures swapchainImageFormat == swapchainCreateInfo.value.imageFormat
      ensures swapchainExtent == swapchainCreateInfo.value.imageExtent
      ensures swapchainImages == old(swapchainImages) + NewImages(createdImages, old(nextHandle))
      ensures nextHandle == old(nextHandle) + |createdImages|
      ensures created == old(created) + [Swapchain] + ViewObjects(NewImages(createdImages, old(nextHandle)))
    {
      var info := SwapchainParameters(physicalDevice.value, framebufferWidth, framebufferHeight);
      swapchainCreateInfo := Some(info);
      created := created + [Swapchain];
      swapchainImageFormat := info.imageFormat;
      swapchainExtent := info.imageExtent;
      AddSwapchainImages(createdImages);
    }

    /** The loop closing create_swapchain: each returned image is stored with a new view of it. */
    method AddSwapchainImages(createdImages: seq<Handle>)
      modifies this`swapchainImages, this`nextHandle, this`created
      ensures swapchainImages == old(swapchainImages) + NewImages(createdImages, old(nextHandle))
      ensures nextHandle == old(nextHandle) + |createdImages|
      ensures created == old(created) + ViewObjects(NewImages(createdImages, old(nextHandle)))
    {
      for i := 0 to |createdImages|
        invariant swapchainImages == old(swapchainImages) + NewImages(createdImages[..i], old(nextHandle))
        invariant nextHandle == old(nextHandle) + i
        invariant created == old(created) + ViewObjects(NewImages(createdImages[..i], old(nextHandle)))
      {
        AddImageStep(createdImages, i, old(nextHandle), old(swapchainImages), old(created));
        var view := CreateImageView(createdImages[i], swapchainImageFormat);
        swapchainImages := swapchainImages + [SwapchainImage(createdImages[i], view)];
      }
      assert createdImages[..|createdImages|] == createdImages;
    }

    /** The last two steps of init: create_logical_device, then create_swapchain. */
    method CreateDeviceObjects(framebufferWidth: int, framebufferHeight: int, createdImages: seq<Handle>)
      requires physicalDevice.Some? && MeetsRequirements(physicalDevice.value)
      requires |physicalDevice.value.queueFamilies| <= MAX_QUEUE_FAMILIES
      requires created == [Instance, Surface] && swapchainImages == []
      modifies this`enabledDeviceExtensions, this`queueCreateInfos, this`graphicsQueueFamily,
               this`presentationQueueFamily, this`swapchainCreateInfo, this`swapchainImageFormat,
               this`swapchainExtent, this`swapchainImages, this`nextHandle, this`created
      ensures swapchainCreateInfo == Some(SwapchainSettings(physicalDevice.value, framebufferWidth, framebufferHeight))
      ensures |swapchainImages| == |createdImages|
      ensures created == CreationOrder(swapchainImages)
    {
      ghost var settings := SwapchainSettings(physicalDevice.value, framebufferWidth, framebufferHeight);
      CreateLogicalDevice();
      ghost var images := NewImages(createdImages, nextHandle);
      CreateSwapchain(framebufferWidth, framebufferHeight, createdImages);
      assert swapchainCreateInfo == Some(settings);
      assert swapchainImages == images;
      CreationOrderAfterSwapchain(images);
    }

    /**
     * free: destroys every image view in list order, then the swapchain, the surface, the
     * logical device and the instance.
     */
    method Free()
      modifies this`destroyed
      ensures destroyed == old(destroyed) + DestructionOrder(swapchainImages)
    {
      for i := 0 to |swapchainImages|
        invariant destroyed == old(destroyed) + ViewObjects(swapchainImages[..i])
      {
        assert swapchainImages[..i + 1][..i] == swapchainImages[..i];
        destroyed := destroyed + [ImageView(swapchainImages[i].imageView)];
      }
      assert swapchainImages[..|swapchainImages|] == swapchainImages;
      destroyed := destroyed + [Swapchain, Surface, LogicalDevice, Instance];
    }

    /**
     * init: create_instance, create_surface, device selection, create_logical_device and
     * create_swapchain in turn; the first error ends set-up with EXIT_FAILURE. Device
     * selection is the corrected one, so success means a suitable device was chosen.
     */
    method Init(env: Environment) returns (status: int)
      requires created == [] && swapchainImages == []
      requires ScannableDevices(env.availableDevices)
      modifies this`enabledLayers, this`physicalDevice, this`enabledDeviceExtensions, this`queueCreateInfos,
               this`graphicsQueueFamily, this`presentationQueueFamily, this`swapchainCreateInfo,
               this`swapchainImageFormat, this`swapchainExtent, this`swapchainImages, this`nextHandle, this`created
      ensures status == EXIT_SUCCESS <==> InstanceAccepted(env.instance) && SomeDeviceSuitable(env.availableDevices)
      ensures status == EXIT_SUCCESS || status == EXIT_FAILURE
      ensures status == EXIT_SUCCESS ==>
                && physicalDevice == Some(env.availableDevices[FirstSuitable(env.availableDevices)])
                && swapchainCreateInfo == Some(SwapchainSettings(physicalDevice.value, env.framebufferWidth,
                                                                 env.framebufferHeight))
                && |swapchainImages| == |env.createdImages|
                && created == CreationOrder(swapchainImages)
      ensures status == EXIT_FAILURE ==> swapchainImages == [] && |created| <= 2
    {
      var outcome := CreateInstance(env.instance);
      if outcome.Fail? {
        assert !InstanceAccepted(env.instance);
        return EXIT_FAILURE;
      }
      assert InstanceAccepted(env.instance) && created == [Instance];
      CreateSurface();
      outcome := ObtainSuitablePhysicalDevice(env.availableDevices);
      if outcome.Fail? {
        assert !SomeDeviceSuitable(env.availableDevices);
        return EXIT_FAILURE;
      }
      assert SomeDeviceSuitable(env.availableDevices);
      assert created == [Instance, Surface];
      CreateDeviceObjects(env.framebufferWidth, env.framebufferHeight, env.createdImages);
      return EXIT_SUCCESS;
    }
  }

  /**
   * The defect of obtain_physical_device as written: with only unsuitable devices on offer
   * the call succeeds and no device is assigned.
   */
  method UnsuitableDevicesAreAccepted(device: PhysicalDevice) returns (outcome: Outcome, selected: Option<PhysicalDevice>)
    requires !MeetsRequirements(device) && |device.queueFamilies| <= MAX_QUEUE_FAMILIES
    ensures outcome == Pass && selected == None
  {
    var renderer := new VulkanRenderer();
    outcome := renderer.ObtainPhysicalDevice([device]);
    selected := renderer.physicalDevice;
  }

  /** The corrected selection refuses the same list. */
  method UnsuitableDevicesAreRejected(device: PhysicalDevice) returns (outcome: Outcome, selected: Option<PhysicalDevice>)
    requires !MeetsRequirements(device) && |device.queueFamilies| <= MAX_QUEUE_FAMILIES
    ensures outcome.Fail? && selected == None
  {
    var renderer := new VulkanRenderer();
    outcome := renderer.ObtainSuitablePhysicalDevice([device]);
    selected := renderer.physicalDevice;
  }

  /** After a successful init, free destroys exactly the created objects, children first. */
  method InitThenFree(env: Environment) returns (status: int, created: seq<VkObject>, destroyed: seq<VkObject>)
    requires ScannableDevices(env.availableDevices)
    ensures status == EXIT_SUCCESS ==>
              && multiset(destroyed) == multiset(created)
              && ChildrenBeforeParents(destroyed)
              && ParentsBeforeChildren(created)
              && |created| == 4 + |env.createdImages|
  {
    var renderer := new VulkanRenderer();
    status := renderer.Init(env);
    ghost var images := renderer.swapchainImages;
    created := renderer.created;
    renderer.Free();
    destroyed := renderer.destroyed;
    assert destroyed == DestructionOrder(images);
    CreationRespectsLifetimes(images);
    DestructionRespectsLifetimes(images);
    DestructionMatchesCreation(images);
  }
}
