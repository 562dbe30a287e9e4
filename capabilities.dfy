/**
 * The capability checks VulkanRenderer runs while it sets up: which queue families to use,
 * whether every requested extension or layer name is supported, whether a physical device
 * meets all requirements, and which queues the logical device is created with.
 */
module Capabilities {
  import opened VkTypes
  import opened Utilities

  /** A queue family as the renderer sees it: its properties and whether it can present to the surface. */
  datatype QueueFamily = QueueFamily(properties: QueueFamilyProperties, supportsPresentation: bool)

  /**
   * A physical device with the answers of the queries the renderer makes about it
   * (device extensions, surface capabilities, formats and present modes, queue families).
   */
  datatype PhysicalDevice = PhysicalDevice(
    handle: Handle,
    extensionNames: seq<string>,
    surfaceCapabilities: SurfaceCapabilities,
    surfaceFormats: seq<SurfaceFormat>,
    presentModes: seq<PresentMode>,
    queueFamilies: seq<QueueFamily>)

  /** Queue family indices are stored in an int; below this bound the cast never wraps. */
  const MAX_QUEUE_FAMILIES: int := 0x8000_0000

  predicate UsableForGraphics(f: QueueFamily) {
    f.properties.queueCount > 0 && f.properties.queueFlags & QUEUE_GRAPHICS_BIT != 0
  }

  predicate UsableForPresentation(f: QueueFamily) {
    f.properties.queueCount > 0 && f.supportsPresentation
  }

  /** The index of the last family among the first n that can run graphics work, or -1. */
  function LastGraphicsFamily(families: seq<QueueFamily>, n: nat): (r: int)
    requires n <= |families|
    ensures -1 <= r < n
    ensures r >= 0 ==> UsableForGraphics(families[r])
    ensures r >= 0 ==> forall j :: r < j < n ==> !UsableForGraphics(families[j])
    ensures r == -1 ==> forall j :: 0 <= j < n ==> !UsableForGraphics(families[j])
  {
    if n == 0 then -1
    else if UsableForGraphics(families[n - 1]) then n - 1
    else LastGraphicsFamily(families, n - 1)
  }

  /** The index of the last family among the first n that can present, or -1. */
  function LastPresentationFamily(families: seq<QueueFamily>, n: nat): (r: int)
    requires n <= |families|
    ensures -1 <= r < n
    ensures r >= 0 ==> UsableForPresentation(families[r])
    ensures r >= 0 ==> forall j :: r < j < n ==> !UsableForPresentation(families[j])
    ensures r == -1 ==> forall j :: 0 <= j < n ==> !UsableForPresentation(families[j])
  {
    if n == 0 then -1
    else if UsableForPresentation(families[n - 1]) then n - 1
    else LastPresentationFamily(families, n - 1)
  }

  /** Among the first n families there is one for graphics and one for presentation. */
  predicate FoundBoth(families: seq<QueueFamily>, n: nat)
    requires n <= |families|
  {
    LastGraphicsFamily(families, n) >= 0 && LastPresentationFamily(families, n) >= 0
  }

  /**
   * Where the scan of get_queue_family_indices stops when started at n: the first prefix
   * length from n on that holds both kinds of family, or the whole list.
   */
  function StopPoint(families: seq<QueueFamily>, n: nat): (stop: nat)
    requires n <= |families|
    decreases |families| - n
    ensures n <= stop <= |families|
    ensures stop == |families| || FoundBoth(families, stop)
    ensures forall m :: n <= m < stop ==> !FoundBoth(families, m)
  {
    if n == |families| || FoundBoth(families, n) then n else StopPoint(families, n + 1)
  }

  /**
   * The indices the scan settles on: the last usable families within the prefix it reads.
   * Each index found names a family of the right kind, and both are found exactly when the
   * list holds both kinds.
   */
  function ScannedIndices(families: seq<QueueFamily>): (q: QueueFamilyIndices)
    ensures q.graphicsFamily == -1
            || (0 <= q.graphicsFamily < |families| && UsableForGraphics(families[q.graphicsFamily]))
    ensures q.presentationFamily == -1
            || (0 <= q.presentationFamily < |families| && UsableForPresentation(families[q.presentationFamily]))
    ensures q.AreAllValid() <==>
              (exists j :: 0 <= j < |families| && UsableForGraphics(families[j]))
              && (exists j :: 0 <= j < |families| && UsableForPresentation(families[j]))
  {
    var stop := StopPoint(families, 0);
    QueueFamilyIndices(LastGraphicsFamily(families, stop), LastPresentationFamily(families, stop))
  }

  /**
   * The scan stops at the first family that completes the pair: one of the two indices is
   * that family and no shorter prefix held both kinds. When the pair is never completed the
   * whole list is read and the indices are the last usable ones.
   */
  lemma ScanStopsAtFirstPair(families: seq<QueueFamily>)
    ensures var q := ScannedIndices(families);
            q.AreAllValid() ==>
              var stop := if q.graphicsFamily < q.presentationFamily then q.presentationFamily else q.graphicsFamily;
              !FoundBoth(families, stop)
              && q.graphicsFamily == LastGraphicsFamily(families, stop + 1)
              && q.presentationFamily == LastPresentationFamily(families, stop + 1)
    ensures var q := ScannedIndices(families);
            !q.AreAllValid() ==>
              q.graphicsFamily == LastGraphicsFamily(families, |families|)
              && q.presentationFamily == LastPresentationFamily(families, |families|)
  {
  }

  /**
   * get_queue_family_indices: scans the families in order, skipping those with no queues,
   * records the latest graphics-capable and the latest presentation-capable index, and stops
   * as soon as both are known.
   */
  method GetQueueFamilyIndices(families: seq<QueueFamily>) returns (q: QueueFamilyIndices)
    requires |families| <= MAX_QUEUE_FAMILIES
    ensures q == ScannedIndices(families)
  {
    q := DefaultQueueFamilyIndices();
    var i := 0;
    while i < |families|
      invariant 0 <= i <= |families|
      invariant q.graphicsFamily == LastGraphicsFamily(families, i)
      invariant q.presentationFamily == LastPresentationFamily(families, i)
      invariant !FoundBoth(families, i)
      invariant StopPoint(families, 0) == StopPoint(families, i)
    {
      if families[i].properties.queueCount == 0 {
        i := i + 1;
        continue;
      }
      if families[i].properties.queueFlags & QUEUE_GRAPHICS_BIT != 0 {
        q := q.(graphicsFamily := i);
      }
      if families[i].supportsPresentation {
        q := q.(presentationFamily := i);
      }
      if q.AreAllValid() {
        break;
      }
      i := i + 1;
    }
  }

  /**
   * The loop shared by check_instance_extension_support, check_device_extension_support and
   * check_validation_layer_support: for each requested name, search the supported names
   * (strcmp equality) and give up at the first requested name that is missing.
   */
  method AllNamesSupported(requested: seq<string>, supported: seq<string>) returns (ok: bool)
    ensures ok <==> forall i :: 0 <= i < |requested| ==> requested[i] in supported
  {
    for i := 0 to |requested|
      invariant forall k :: 0 <= k < i ==> requested[k] in supported
    {
      var isSupported := false;
      var j := 0;
      while j < |supported|
        invariant 0 <= j <= |supported|
        invariant !isSupported ==> forall k :: 0 <= k < j ==> supported[k] != requested[i]
        invariant isSupported ==> requested[i] in supported
      {
        if requested[i] == supported[j] {
          isSupported := true;
          break;
        }
        j := j + 1;
      }
      if !isSupported {
        assert requested[i] !in supported;
        return false;
      }
    }
    return true;
  }

  /** check_instance_extension_support over the names the instance enumerates. */
  method CheckInstanceExtensionSupport(requiredNames: seq<string>, supportedNames: seq<string>)
    returns (ok: bool)
    ensures ok <==> forall i :: 0 <= i < |requiredNames| ==> requiredNames[i] in supportedNames
  {
    ok := AllNamesSupported(requiredNames, supportedNames);
  }

  /**
   * check_device_extension_support: a device that enumerates no extension at all is refused
   * before any name is compared, even when nothing is requested.
   */
  method CheckDeviceExtensionSupport(device: PhysicalDevice, requestedNames: seq<string>)
    returns (ok: bool)
    ensures ok <==> |device.extensionNames| > 0
                    && forall i :: 0 <= i < |requestedNames| ==> requestedNames[i] in device.extensionNames
  {
    if |device.extensionNames| == 0 {
      return false;
    }
    ok := AllNamesSupported(requestedNames, device.extensionNames);
  }

  /** check_validation_layer_support over the names of the layers the instance enumerates. */
  method CheckValidationLayerSupport(requestedLayers: seq<string>, supportedLayers: seq<string>)
    returns (ok: bool)
    ensures ok <==> forall i :: 0 <= i < |requestedLayers| ==> requestedLayers[i] in supportedLayers
  {
    ok := AllNamesSupported(requestedLayers, supportedLayers);
  }

  /**
   * What device_supports_requirements asks of a device, stated on its own: the swapchain
   * extension, at least one surface format and one present mode, a queue family that can run
   * graphics work and one that can present.
   */
  predicate MeetsRequirements(device: PhysicalDevice) {
    && SWAPCHAIN_EXTENSION_NAME in device.extensionNames
    && |device.surfaceFormats| > 0
    && |device.presentModes| > 0
    && (exists j :: 0 <= j < |device.queueFamilies| && UsableForGraphics(device.queueFamilies[j]))
    && (exists j :: 0 <= j < |device.queueFamilies| && UsableForPresentation(device.queueFamilies[j]))
  }

  /** device_supports_requirements: the extension check, the swapchain details check, then the queue families. */
  method DeviceSupportsRequirements(device: PhysicalDevice) returns (ok: bool)
    requires |device.queueFamilies| <= MAX_QUEUE_FAMILIES
    ensures ok <==> MeetsRequirements(device)
  {
    var extensionsOk := CheckDeviceExtensionSupport(device, RequestedDeviceExtensionNames());
    if !extensionsOk {
      return false;
    }
    if |device.surfaceFormats| == 0 || |device.presentModes| == 0 {
      return false;
    }
    var indices := GetQueueFamilyIndices(device.queueFamilies);
    return indices.AreAllValid();
  }

  /** VkDeviceQueueCreateInfo: one queue of the given family. */
  datatype DeviceQueueCreateInfo = DeviceQueueCreateInfo(queueFamilyIndex: u32, queueCount: nat)

  /** The std::set<int> {graphics, presentation} in its iteration order (ascending, no duplicates). */
  function UniqueFamilies(indices: QueueFamilyIndices): (r: seq<int>)
    ensures forall i, j :: 0 <= i < j < |r| ==> r[i] < r[j]
    ensures forall x :: x in r <==> x == indices.graphicsFamily || x == indices.presentationFamily
  {
    var g, p := indices.graphicsFamily, indices.presentationFamily;
    if g == p then [g] else if g < p then [g, p] else [p, g]
  }

  /**
   * The queue create-infos of create_logical_device: one per distinct family, in ascending
   * order, each asking for a single queue; one info when graphics and presentation share a
   * family and two otherwise.
   */
  method QueueCreateInfos(indices: QueueFamilyIndices) returns (infos: seq<DeviceQueueCreateInfo>)
    requires indices.AreAllValid()
    requires indices.graphicsFamily < U32_LIMIT && indices.presentationFamily < U32_LIMIT
    ensures |infos| == if indices.graphicsFamily == indices.presentationFamily then 1 else 2
    ensures forall i :: 0 <= i < |infos| ==> infos[i].queueCount == 1
    ensures forall i, j :: 0 <= i < j < |infos| ==> infos[i].queueFamilyIndex < infos[j].queueFamilyIndex
    ensures (set i | 0 <= i < |infos| :: infos[i].queueFamilyIndex as int)
            == {indices.graphicsFamily, indices.presentationFamily}
  {
    var unique := UniqueFamilies(indices);
    infos := [];
    for k := 0 to |unique|
      invariant |infos| == k
      invariant forall i :: 0 <= i < k ==> infos[i] == DeviceQueueCreateInfo(ToU32(unique[i]), 1)
    {
      infos := infos + [DeviceQueueCreateInfo(ToU32(unique[k]), 1)];
    }
    assert forall i :: 0 <= i < |infos| ==> infos[i].queueFamilyIndex == unique[i];
    ghost var wanted := {indices.graphicsFamily, indices.presentationFamily};
    ghost var created := set i | 0 <= i < |infos| :: infos[i].queueFamilyIndex as int;
    forall x | x in wanted ensures x in created {
      var i :| 0 <= i < |unique| && unique[i] == x;
      assert infos[i].queueFamilyIndex as int == x;
    }
  }
}
