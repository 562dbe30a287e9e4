/** The shared declarations of the renderer: requested device extensions and queue-family indices. */
module Utilities {

  /** VK_KHR_SWAPCHAIN_EXTENSION_NAME. */
  const SWAPCHAIN_EXTENSION_NAME: string := "VK_KHR_swapchain"

  /** The device extensions the renderer asks for. */
  function RequestedDeviceExtensionNames(): (names: seq<string>)
    ensures |names| == 1 && SWAPCHAIN_EXTENSION_NAME in names
  {
    [SWAPCHAIN_EXTENSION_NAME]
  }

  /** Indices of the queue families the renderer needs; -1 stands for "not found". */
  datatype QueueFamilyIndices = QueueFamilyIndices(graphicsFamily: int, presentationFamily: int)
  {
    /** Both families have been found. */
    predicate AreAllValid() {
      graphicsFamily >= 0 && presentationFamily >= 0
    }
  }

  /** A default-constructed QueueFamilyIndices. */
  function DefaultQueueFamilyIndices(): (q: QueueFamilyIndices)
    ensures q.graphicsFamily == -1 && q.presentationFamily == -1
    ensures !q.AreAllValid()
  {
    QueueFamilyIndices(-1, -1)
  }

  /** Setting only one of the two fields of a default value never makes it valid. */
  lemma OneFieldIsNotEnough(i: int)
    ensures !DefaultQueueFamilyIndices().(graphicsFamily := i).AreAllValid()
    ensures !DefaultQueueFamilyIndices().(presentationFamily := i).AreAllValid()
  {
  }

  /** Validity is exactly "both indices are non-negative", in either field order. */
  lemma ValidIffBothNonNegative(q: QueueFamilyIndices)
    ensures q.AreAllValid() <==> q.graphicsFamily >= 0 && q.presentationFamily >= 0
    ensures q.AreAllValid() <==> QueueFamilyIndices(q.presentationFamily, q.graphicsFamily).AreAllValid()
  {
  }
}
