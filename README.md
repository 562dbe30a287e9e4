# Vulkan course renderer — a verified model of its set-up logic

This project models the parts of the Vulkan course renderer that decide and transform
rather than call into Vulkan, GLFW or assimp:

- **Swapchain parameters** (`SwapchainChoice`): the surface-format preference, the present-mode
  preference (MAILBOX, else FIFO), the extent rule with the `UINT32_MAX` width sentinel and
  clamping, the image-count rule (minimum + 1, capped only by a non-zero maximum), and the
  exclusive/concurrent sharing decision.
- **Capability checks** (`Capabilities`): the queue-family scan of `get_queue_family_indices`
  with its skip and early stop, the three "every requested name is supported" checks,
  `device_supports_requirements`, and the de-duplicated queue create-infos of
  `create_logical_device`.
- **Renderer set-up and tear-down** (`Renderer`): the `VulkanRenderer` class with
  `create_instance`, `create_surface`, `obtain_physical_device` (first suitable device),
  `create_logical_device`, `create_swapchain` with one image view per swapchain image, `init`
  and `free`. Every Vulkan object the renderer creates or destroys goes into a log, so the
  model can state the lifetime rules: parents are created before children and destroyed after
  them, and `free` destroys exactly what `init` created.
- **Meshes on the device** (`Meshes`, `DeviceMemory`): a `Mesh` records its vertex and index
  counts (as `uint32_t`) and an identity model matrix. It uploads each array through a staging
  buffer. Buffers and memory allocations are tracked in an abstract ledger of live handles, so
  that after an upload the device owns exactly one new buffer and one new allocation per array.
  `destroy_buffers` releases exactly those four handles.
- **Mesh models** (`MeshModels`, `Scene`): `load_materials` (the texture file name after the
  last backslash), `load_node` (the pre-order flattening of the scene's node tree), `load_mesh`
  (positions, the first UV channel or (0, 0), face indices concatenated in face order), and the
  `MeshModel` class with its bounds-checked `get_mesh`, model matrix and `destroy_mesh_model`.
  Loading a node tree and destroying the resulting model gives the device back exactly the
  ledger it had before.
- **Shared declarations** (`Utilities`): `QueueFamilyIndices` with its -1 defaults and
  `are_all_valid`, and the requested device extension list.

Vulkan enums use their numeric values from the Vulkan 1.3 headers. Handles are naturals.
glm matrices and float components are opaque values that are never computed with. Answers of
`vkGet*`/`vkEnumerate*` queries, the framebuffer size and the images a swapchain returns are
inputs.

Three behaviours of the code worth noting:

- `device_supports_requirements` queries no device properties or features; the queries are
  commented out.
- A surface that reports only the UNDEFINED format gets R8G8B8A8_UNORM with sRGB non-linear,
  not the UNDEFINED entry itself.
- `obtain_physical_device` does not fail when no device qualifies (see Findings).

## Model

| member | source | states |
|---|---|---|
| Utilities.RequestedDeviceExtensionNames | Utilities.h:8-10 | the requested device extensions are exactly the one swapchain extension name |
| Utilities.DefaultQueueFamilyIndices | Utilities.h:13-22 | a default QueueFamilyIndices has both families at -1 and is not valid |
| Utilities.OneFieldIsNotEnough | Utilities.h:14-22 | setting only one field of a default value never makes it valid |
| Utilities.ValidIffBothNonNegative | Utilities.h:17-22 | validity holds iff both indices are non-negative, whichever field is which |
| SwapchainChoice.FirstPreferredFormat | VulkanRenderer.cpp:447-454 | the index of the first RGBA8/BGRA8 sRGB-non-linear entry, with no preferred entry before it, or -1 when there is none |
| SwapchainChoice.ChooseSurfaceFormat | VulkanRenderer.cpp:435-458 | a lone UNDEFINED entry gives R8G8B8A8_UNORM/sRGB non-linear; otherwise the result is in the list, is the first preferred entry when there is one, and otherwise is entry 0 |
| SwapchainChoice.ChosenFormatIsPreferredWhenOffered | VulkanRenderer.cpp:435-458 | whenever the list offers a preferred format, the chosen one is preferred |
| SwapchainChoice.ChoosePresentationMode | VulkanRenderer.cpp:461-473 | MAILBOX iff the surface offers MAILBOX, otherwise FIFO |
| SwapchainChoice.Clamp | VulkanRenderer.cpp:493-494 | the clamped value lies in [lo, hi]: a value below the range gives lo, one above it gives hi, and one inside is unchanged |
| SwapchainChoice.ChooseSwapchainExtent | VulkanRenderer.cpp:475-497 | the current extent unless its width is UINT32_MAX; otherwise each side is the framebuffer size (cast to uint32_t) clamped into the surface's min/max, so it lies within them and equals the framebuffer size when that is in range |
| SwapchainChoice.FramebufferOutsideLimitsGetsNearestLimit | VulkanRenderer.cpp:478-496 | with the sentinel width, a framebuffer larger than the maximum on both sides gets the maximum extent, and one smaller than the minimum gets the minimum |
| SwapchainChoice.LargeFramebufferGetsMaximumExtent | VulkanRenderer.cpp:478-496 | a 1200 x 675 framebuffer on a surface limited to 100 x 100 .. 800 x 600 gets 800 x 600 |
| SwapchainChoice.SwapchainImageCount | VulkanRenderer.cpp:186-191 | minimum + 1 as a uint32_t sum (a minimum of UINT32_MAX wraps to 0), replaced by the maximum exactly when the maximum is non-zero and smaller, and never above a non-zero maximum |
| SwapchainChoice.ImageCountWithinSurfaceLimits | VulkanRenderer.cpp:186-191 | on a surface within the Vulkan rules, the count is between the minimum and the maximum and at most minimum + 1 |
| SwapchainChoice.UnboundedSurfaceGetsTwoImages | VulkanRenderer.cpp:186-191 | minimum 1 and no maximum give two images |
| SwapchainChoice.ChooseSharingMode | VulkanRenderer.cpp:210-221 | exclusive iff graphics and presentation share a family, otherwise concurrent between exactly those two indices |
| Capabilities.LastGraphicsFamily | VulkanRenderer.cpp:287-298 | the last graphics-capable family with queues in a prefix, or -1 when there is none |
| Capabilities.LastPresentationFamily | VulkanRenderer.cpp:287-306 | the last family with queues that can present in a prefix, or -1 when there is none |
| Capabilities.StopPoint | VulkanRenderer.cpp:307-312 | the scan stops at the first prefix holding both kinds of family, or reads the whole list |
| Capabilities.ScannedIndices | VulkanRenderer.cpp:275-315 | each index found names a family with queues of the right kind, a missing one stays -1, and both are found iff the list holds both kinds |
| Capabilities.ScanStopsAtFirstPair | VulkanRenderer.cpp:287-313 | one found index is the family that completed the pair and no shorter prefix held both; an incomplete scan reads every family |
| Capabilities.GetQueueFamilyIndices | VulkanRenderer.cpp:275-315 | the loop with skip and early exit computes the scanned indices |
| Capabilities.AllNamesSupported | VulkanRenderer.cpp:355-368 | true iff every requested name equals some supported name |
| Capabilities.CheckInstanceExtensionSupport | VulkanRenderer.cpp:346-369 | true iff every required instance extension is supported |
| Capabilities.CheckDeviceExtensionSupport | VulkanRenderer.cpp:372-401 | false when the device lists no extension, otherwise true iff every requested name is listed |
| Capabilities.CheckValidationLayerSupport | VulkanRenderer.cpp:531-552 | true iff every requested layer is available |
| Capabilities.DeviceSupportsRequirements | VulkanRenderer.cpp:403-430 | true iff the device has the swapchain extension, a surface format, a present mode, a graphics family and a presentation family |
| Capabilities.UniqueFamilies | VulkanRenderer.cpp:117-120 | the set {graphics, presentation} in ascending order without duplicates |
| Capabilities.QueueCreateInfos | VulkanRenderer.cpp:117-136 | one create-info per distinct family, ascending, each with one queue: one info when the families are equal and two otherwise |
| Renderer.ViewObjects | VulkanRenderer.cpp:233-248 | one image-view object per swapchain image, in image order |
| Renderer.CreationRespectsLifetimes | VulkanRenderer.cpp:25-42 | init creates every object after all of its parents |
| Renderer.DestructionRespectsLifetimes | VulkanRenderer.cpp:44-55 | free destroys every object before any of its parents |
| Renderer.DestructionMatchesCreation | VulkanRenderer.cpp:25-55 | free destroys exactly the objects init created, each once |
| Renderer.DestructionIsNotExactReverse | VulkanRenderer.cpp:46-54 | free's order is not the exact reverse of creation: the surface goes before the logical device |
| Renderer.FirstSuitable | VulkanRenderer.cpp:265-272 | the first device meeting every requirement, or -1 exactly when none does |
| Renderer.SelectFirstSuitable | VulkanRenderer.cpp:265-272 | the selection loop stops at the first suitable device |
| Renderer.SwapchainParameters | VulkanRenderer.cpp:175-231 | the swapchain create-info derived from the device's surface details and the framebuffer size |
| Renderer.VulkanRenderer.constructor | VulkanRenderer.cpp:15-18 | nothing created, no device chosen, no swapchain |
| Renderer.VulkanRenderer.CreateInstance | VulkanRenderer.cpp:57-109 | success iff the extensions are supported and, with validation on, the layers too; each refusal carries its error; on success the instance is created with the validation layers exactly when validation is on |
| Renderer.VulkanRenderer.CreateSurface | VulkanRenderer.cpp:164-173 | the surface is created after what came before |
| Renderer.VulkanRenderer.ObtainPhysicalDevice | VulkanRenderer.cpp:252-273 | as written: an error iff the list is empty; the first suitable device is assigned, and with none suitable the field keeps its old value |
| Renderer.VulkanRenderer.ObtainSuitablePhysicalDevice | VulkanRenderer.cpp:252-273 | corrected: success iff some device is suitable, and then the first suitable one is assigned |
| Renderer.VulkanRenderer.CreateLogicalDevice | VulkanRenderer.cpp:111-162 | the queues come from the scanned graphics and presentation families, one create-info per distinct family in ascending order with one queue, and the swapchain extension is enabled |
| Renderer.VulkanRenderer.CreateImageView | VulkanRenderer.cpp:499-529 | a fresh view handle is created and logged |
| Renderer.VulkanRenderer.CreateSwapchain | VulkanRenderer.cpp:175-250 | the create-info is the derived settings, format and extent are recorded, and each returned image is stored with a new view of it, in order |
| Renderer.VulkanRenderer.AddSwapchainImages | VulkanRenderer.cpp:233-248 | each returned image is appended with a fresh view, and one view is logged per image |
| Renderer.VulkanRenderer.CreateDeviceObjects | VulkanRenderer.cpp:33-34 | after create_logical_device and create_swapchain, the creation log is instance, surface, device, swapchain, then the views |
| Renderer.VulkanRenderer.Free | VulkanRenderer.cpp:44-55 | destroys the views in list order, then the swapchain, surface, logical device and instance |
| Renderer.VulkanRenderer.Init | VulkanRenderer.cpp:25-42 | EXIT_SUCCESS iff the instance is accepted and some device is suitable; on success the first suitable device, the derived swapchain and the full creation order; on failure no swapchain |
| Renderer.UnsuitableDevicesAreAccepted | VulkanRenderer.cpp:265-272 | as written, a list holding only an unsuitable device passes with no device assigned |
| Renderer.UnsuitableDevicesAreRejected | VulkanRenderer.cpp:265-272 | the corrected selection refuses that list |
| Renderer.InitThenFree | VulkanRenderer.cpp:25-55 | after a successful init, free destroys each created object once, children first, and init created parents first |
| DeviceMemory.Device.CreateBuffer | Mesh.cpp:73-74 | a new buffer of the given size and usage and a new allocation, both with handles never used before, and nothing else changes |
| DeviceMemory.Device.DestroyBuffer | Mesh.cpp:90 | exactly that buffer leaves the ledger |
| DeviceMemory.Device.FreeMemory | Mesh.cpp:91 | exactly that allocation leaves the ledger |
| Meshes.StagingLeavesDestination | Mesh.cpp:69-91 | creating staging and destination pairs and then releasing the staging pair adds only the destination pair |
| Meshes.Mesh.constructor | Mesh.cpp:7-18 | counts are the list sizes as uint32_t, the model is the identity, and the device gains exactly the vertex and index buffers with their allocations |
| Meshes.Mesh.CreateVertexBuffer | Mesh.cpp:63-92 | the device ends up with exactly one new device-local vertex buffer of sizeof(Vertex) * count bytes and its allocation; the staging pair is gone |
| Meshes.Mesh.CreateIndexBuffer | Mesh.cpp:94-121 | the same for a 4 * count byte index buffer |
| Meshes.Mesh.DestroyBuffers | Mesh.cpp:24-31 | exactly the four owned handles leave the ledger |
| Meshes.Mesh.GetVertexCount | Mesh.cpp:33-36 | the recorded vertex count |
| Meshes.Mesh.GetIndexCount | Mesh.cpp:38-41 | the recorded index count |
| Meshes.Mesh.GetVertexBuffer | Mesh.cpp:43-46 | the owned vertex buffer |
| Meshes.Mesh.GetIndexBuffer | Mesh.cpp:48-51 | the owned index buffer |
| Meshes.Mesh.SetModel | Mesh.cpp:53-56 | only the model matrix changes |
| Meshes.Mesh.GetModelMatrix | Mesh.cpp:58-61 | the current model record |
| Meshes.MeshSetThenGet | Mesh.cpp:53-61 | set_model then get_model_matrix gives back the matrix |
| MeshModels.RFind | MeshModel.cpp:36 | npos iff the character is absent, otherwise its last position |
| MeshModels.BaseName | MeshModel.cpp:36-37 | the longest backslash-free suffix of the path, preceded by a backslash when shorter than the path, and the whole path when it has no backslash |
| MeshModels.LoadMaterials | MeshModel.cpp:19-45 | one entry per material: the file name of its first diffuse texture when it has one that could be read, otherwise "" |
| MeshModels.FlattenNodeLength | MeshModel.cpp:47-70 | the flattened list is as long as the subtree has mesh references |
| MeshModels.FlattenChildrenLength | MeshModel.cpp:62-67 | the children's lists together are as long as their subtrees' mesh references |
| MeshModels.FlattenNodeMembers | MeshModel.cpp:47-70 | a mesh index is in the flattened list iff some node of the subtree lists it |
| MeshModels.FlattenChildrenMembers | MeshModel.cpp:62-67 | the same for the first k children |
| MeshModels.ChildFlattenIncluded | MeshModel.cpp:62-67 | a child's list is contained in its parent's |
| MeshModels.TwoLevelTreeFlattening | MeshModel.cpp:54-67 | a node's own meshes come before its child's |
| MeshModels.FaceIndicesLength | MeshModel.cpp:100-107 | the concatenated index list is as long as the sum of the faces' index counts |
| MeshModels.FaceIndicesAt | MeshModel.cpp:100-107 | index j of face k sits right after the indices of the faces before k |
| MeshModels.CopyGeometry | MeshModel.cpp:72-110 | one vertex per scene vertex with its position and the first UV channel or (0, 0), the face indices in face order, and the material's texture id |
| MeshModels.LoadMesh | MeshModel.cpp:72-111 | one new mesh with the scene mesh's counts, owning four new handles and nothing else changes |
| MeshModels.LoadMeshes | MeshModel.cpp:54-59 | the node's own meshes are loaded in list order, each owning new handles above the previous ones |
| MeshModels.LoadNode | MeshModel.cpp:47-70 | the meshes stand for the pre-order flattening of the subtree, in order, and the ledger gains exactly their handles |
| MeshModels.LoadChildren | MeshModel.cpp:62-67 | the children's lists are appended in child order |
| MeshModels.LoadChild | MeshModel.cpp:64-66 | one child's list is appended to what came before |
| MeshModels.DestroyNextStillOwned | MeshModel.cpp:139-142 | while destroy_mesh_model walks the list, the next mesh still owns its buffers |
| MeshModels.DestroyUndoesLoad | MeshModel.cpp:47-70 | releasing every handle of freshly loaded meshes gives back the ledger from before loading |
| MeshModels.MeshModel.constructor | MeshModel.cpp:9-13 | keeps the mesh list and starts from the identity model matrix |
| MeshModels.MeshModel.GetMeshCount | MeshModel.cpp:113-116 | the number of meshes |
| MeshModels.MeshModel.GetMesh | MeshModel.cpp:118-125 | an error iff the index is past the end, otherwise the mesh at that index |
| MeshModels.MeshModel.GetModelMatrix | MeshModel.cpp:127-130 | the current model matrix |
| MeshModels.MeshModel.SetModel | MeshModel.cpp:132-135 | only the model matrix changes |
| MeshModels.MeshModel.DestroyMeshModel | MeshModel.cpp:137-143 | for meshes that each own their live buffers and share no handle, in any order, the device loses exactly the handles of the model's meshes |
| MeshModels.OrderedIsDisjoint | MeshModel.cpp:47-70 | meshes loaded one after the other share no handle |
| MeshModels.DisjointInEitherOrder | MeshModel.cpp:9-13 | whether two meshes share a handle does not depend on the order the model lists them in |
| MeshModels.ModelSetThenGet | MeshModel.cpp:127-135 | set_model then get_model_matrix gives back the matrix, and the meshes stay |
| MeshModels.LoadThenDestroy | MeshModel.cpp:47-70 | loading a node tree and destroying the model leaves the device's ledger as it was, with one mesh per subtree reference |

## Left out

- Every `vk*`, `glfw*` and assimp call is left out. Query answers (extension and layer lists, surface capabilities, formats, present modes, queue families, framebuffer size, swapchain images) are inputs. A `vkCreate*` call that fails and its "Failed to create ..." error are not modelled.
- Memory mapping, `memcpy`, `copy_buffer`, command buffers and queue submission move bytes only. The model tracks buffer and allocation handles, not their contents.
- `create_buffer` and `copy_buffer` are not part of this model. `DeviceMemory.Device` stands for their effect on the handles the device owns.
- The validation-layer switch is an input of `create_instance` rather than a build-time constant.
- Capabilities.GetQueueFamilyIndices: requires fewer than 2^31 families, so the `static_cast<int>` of an index never wraps.
- Renderer.VulkanRenderer.ObtainPhysicalDevice and Renderer.VulkanRenderer.ObtainSuitablePhysicalDevice: require the same bound on every device.
- SwapchainChoice.ChooseSurfaceFormat: requires a non-empty format list, which `device_supports_requirements` guarantees. The code reads entry 0 without a check.
- The texture id computed by `load_mesh` is returned by `CopyGeometry` but not stored: the `Mesh` constructor in Mesh.cpp takes no texture id.
- The mesh's fields other than the model matrix are constants set by the constructor. `create_vertex_buffer` and `create_index_buffer` are static methods that return the new handles. Copies of `Mesh` values in C++ are references here.
- Renderer.VulkanRenderer.Init: uses the corrected device selection. With the selection as written, a failed selection would lead to `create_logical_device` on an unassigned device, which has no meaning to model.
- Renderer.VulkanRenderer.Free: is modelled after a successful `init`. After a failed `init`, `free` destroys handles that were never created.
- MeshModels.MeshModel.GetModelMatrix: returns the matrix by value. The source returns a `glm::mat4&` through which a caller can overwrite the model matrix; that write-through reference is not modelled, and `SetModel` is the only way to update the matrix.
- The default constructors of `Mesh` and `MeshModel` are left out, as are the destructors. The renderer's destructor only calls `free`.
- `readFile` in Utilities.h is file I/O. The window (Window.cpp, Window.h) and the frame loop in main.cpp are I/O and floating point.

## Findings

| source | as written | input that shows it | evidently intended | confidence | as-written member | corrected member |
|---|---|---|---|---|---|---|
| VulkanRenderer.cpp:265-272 | when no device meets the requirements, the loop ends without assigning a device and without raising an error, so `init` carries on with no device | a device list holding one device that lacks the swapchain extension | raise an error like the empty-list case, so `init` fails with EXIT_FAILURE | not executed | Renderer.VulkanRenderer.ObtainPhysicalDevice (exhibited by Renderer.UnsuitableDevicesAreAccepted) | Renderer.VulkanRenderer.ObtainSuitablePhysicalDevice (with Renderer.UnsuitableDevicesAreRejected) |
