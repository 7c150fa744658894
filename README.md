# Vulkan baselib of `lights`, modelled in Dafny

This project models the core of the Vulkan base library of the `lights`
renderer:

- the device (`VulkanDevice`): queue families, memory types, buffers, copies,
  command buffers and fences;
- the swapchain (`VulkanSwapChain`): the present queue, the surface format,
  the swapchain parameters, colour views, the depth image and framebuffers;
- the view (`VulkanView`): the per-image frame resources, command-buffer
  recording and the render loop's `render`, `update` and resize steps;
- `MeshPrimitive`: staging uploads of vertex and index data;
- the glTF loader (`GLTFLoader`): materials, buffer uploads and the vertex
  input layout of each primitive;
- the UV sphere (`SimpleShape.h`);
- the vector and matrix templates (`tvec.h`, `tmath.h`) over `real`.

The Vulkan driver is not modelled as code. Its answers are parameters: surface
capabilities, present modes, formats, memory requirement bits, acquire and
present results, and the result of `vkCreateDevice`. The `Device` class gives
out handles from a counter. It keeps ghost state for what the driver would
see:

- the log of driver calls, in order;
- the state of every fence;
- the commands recorded in every command buffer;
- the bytes held by every buffer.

Each operation's contract states its result and the new state in these terms.

One Dafny module per source file:

- `VulkanDevice` (`device.dfy`)
- `VulkanSwapChain` (`swapchain.dfy`)
- `VulkanView` (`view.dfy`)
- `MeshPrimitive` (`mesh_primitive.dfy`)
- `GltfLoader` (`gltf_loader.dfy`)
- `SimpleShape` (`simple_shape.dfy`)
- `TVec` (`tvec.dfy`)
- `TMath` (`tmath.dfy`)

Two shared modules, `Wrappers` (Option, Result, errors) and `Vk` (the Vulkan
constants, handles and the driver-call datatype), support them.

Vectors are `seq<real>`. Matrices are sequences of columns (`m[c][r]`), as
`matNM` stores them.

## Model

| member | source | states |
|---|---|---|
| VulkanDevice.ShiftRight | vulkan/baselib/VulkanDevice.cpp:331-342 | shifting the type bits right never makes them larger |
| VulkanDevice.MemoryTypeIndex | vulkan/baselib/VulkanDevice.cpp:331-342 | the answer is the lowest memory type allowed by the type bits that has every requested property; it is None exactly when no type qualifies |
| VulkanDevice.FirstFamily | vulkan/baselib/VulkanDevice.cpp:286-317 | the first queue family at or after `from` that offers the wanted queue kind, and None only when there is none |
| VulkanDevice.DedicatedSupports | vulkan/baselib/VulkanDevice.cpp:288-308 | a dedicated compute (or transfer) family supports a compute-only (or transfer-only) request |
| VulkanDevice.QueueFamilyChoiceSound | vulkan/baselib/VulkanDevice.cpp:286-317 | the family supports every requested flag; a compute-only request gets the first compute family without graphics when there is one, a transfer-only request the first transfer family with neither graphics nor compute; other requests get the first supporting family; an error exactly when no family supports the flags |
| VulkanDevice.ScanFamilies | vulkan/baselib/VulkanDevice.cpp:290-297 | the scanning loop finds exactly the first matching family |
| VulkanDevice.QueueFamilyIndex | vulkan/baselib/VulkanDevice.cpp:286-317 | the three loops and the final throw together give the queue family choice |
| VulkanDevice.QueueSetupAsWritten | vulkan/baselib/VulkanDevice.cpp:103-148 | as written: it fails in exactly the cases the corrected setup fails, and its create-info entries are distinct |
| VulkanDevice.QueueSetupAsWrittenDropsCompute | vulkan/baselib/VulkanDevice.cpp:112-127 | with only compute requested and compute found in family 0, the create-info list as written has no entry for family 0 |
| VulkanDevice.AddFamily | vulkan/baselib/VulkanDevice.cpp:119-143 | adding a family to the create-info list keeps its entries distinct and adds exactly that family |
| VulkanDevice.QueueSetupSound | vulkan/baselib/VulkanDevice.cpp:103-148 | (corrected: de-duplication against the create infos actually pushed, see Findings) queue setup fails exactly when a requested kind has no family; on success every requested kind has a suitable family, every family used has a create-info entry, and the entries are distinct |
| VulkanDevice.QueueSetupAgreesWithGraphics | vulkan/baselib/VulkanDevice.cpp:103-148 | whenever graphics is requested, the corrected queue setup equals the one as written |
| VulkanDevice.FindName | vulkan/baselib/VulkanDevice.cpp:563-566 | the position of the first occurrence of the name, or the end of the list when it is absent |
| VulkanDevice.ExtensionSupported | vulkan/baselib/VulkanDevice.cpp:563-566 | true exactly when the extension is in the device's list |
| VulkanDevice.Unsupported | vulkan/baselib/VulkanDevice.cpp:181-187 | exactly the requested names that the device does not support, one warning each |
| VulkanDevice.SupportedDepthFormat | vulkan/baselib/VulkanDevice.cpp:577-596 | the first candidate depth format whose optimal tiling allows depth attachment (and sampling when asked); an error exactly when none does |
| VulkanDevice.UploadCalls | vulkan/baselib/VulkanDevice.cpp:385-398 | with data: map and copy first, unmap last, and a flush exactly when the memory is not host-coherent; without data: no call |
| VulkanDevice.CopyGuardAsWritten | vulkan/baselib/VulkanDevice.cpp:418 | as written: the guard passes exactly when a whole-source copy is at least as long as the destination |
| VulkanDevice.CopyGuardAsWrittenOverflows | vulkan/baselib/VulkanDevice.cpp:418-423 | a source of 8 bytes and a destination of 4 pass the guard, yet the copy writes 8 bytes into the 4-byte destination |
| VulkanDevice.CopyFitsWhole | vulkan/baselib/VulkanDevice.cpp:418-423 | a whole-buffer copy fits exactly when the source is no larger than the destination; a copy that fits and also passes the written guard has equal sizes |
| VulkanDevice.CopyRegion | vulkan/baselib/VulkanDevice.cpp:428 | a copy writes the region's bytes from the source and leaves every other destination byte as it was |
| VulkanDevice.WholeCopyReplaces | vulkan/baselib/VulkanDevice.cpp:422-423 | copying a whole buffer into one of the same size makes the destination equal to the source |
| VulkanDevice.Settled | vulkan/baselib/VulkanView.cpp:205 | after waiting for the device to go idle no fence is pending; fences keep their identity, and the unsignalled ones stay unsignalled |
| VulkanDevice.Buffer.constructor | vulkan/baselib/VulkanDevice.cpp:359-403 | a buffer with its handle, memory, size, usage, memory type and contents |
| VulkanDevice.Device.constructor | vulkan/baselib/VulkanDevice.cpp:29-59 | a device that remembers its queue families, memory types and extensions; nothing created yet |
| VulkanDevice.Device.Mint | vulkan/baselib/VulkanDevice.cpp:363 | a handle the driver has never given out before, never null |
| VulkanDevice.Device.WarnUnsupported | vulkan/baselib/VulkanDevice.cpp:181-187 | the warning loop warns about exactly the unsupported extensions |
| VulkanDevice.Device.SetUpQueues | vulkan/baselib/VulkanDevice.cpp:103-148 | the queue indices and create-info list are the corrected queue setup |
| VulkanDevice.Device.SetExtensions | vulkan/baselib/VulkanDevice.cpp:151-190 | the device extension list and its warnings |
| VulkanDevice.Device.Realize | vulkan/baselib/VulkanDevice.cpp:89-207 | fails with no call when a requested queue kind has no family, leaving the create infos, extensions, device, pool and handle counter as they were; otherwise stores the queue setup (corrected, see Findings) and extensions, creates the device, and (on success) the graphics command pool, returning the driver's result |
| VulkanDevice.Device.CreateWithExtensions | vulkan/baselib/VulkanDevice.cpp:151-200 | the extension list and its warnings, then the device and, only when its creation succeeded, the graphics command pool |
| VulkanDevice.Device.CreateLogicalDevice | vulkan/baselib/VulkanDevice.cpp:194-200 | the create-device call, then a command pool only when it succeeded |
| VulkanDevice.Device.GetCreatePipeCache | vulkan/baselib/VulkanDevice.cpp:240-248 | the pipeline cache is created on the first call only; later calls return the same cache with no driver call |
| VulkanDevice.Device.GetCreateDescriptorPool | vulkan/baselib/VulkanDevice.cpp:250-274 | the descriptor pool is created on the first call only; later calls return the same pool |
| VulkanDevice.Device.CreateBuffer | vulkan/baselib/VulkanDevice.cpp:356-404 | null exactly when no memory type is suitable (after the create-buffer call only); otherwise a bound buffer of the requested size in the lowest suitable memory type, holding the data when given and undefined bytes otherwise |
| VulkanDevice.Device.Upload | vulkan/baselib/VulkanDevice.cpp:385-398 | with data, the buffer holds its first size bytes, and the memory is mapped, flushed unless host-coherent, and unmapped; without data, no call and undefined bytes |
| VulkanDevice.Device.CreateFence | vulkan/baselib/VulkanDevice.cpp:504-506 | a new fence, signalled or not as asked |
| VulkanDevice.Device.WaitForFence | vulkan/baselib/VulkanDevice.cpp:510 | the fence is signalled afterwards |
| VulkanDevice.Device.ResetFence | vulkan/baselib/VulkanView.cpp:286 | the fence is unsignalled afterwards |
| VulkanDevice.Device.DestroyFence | vulkan/baselib/VulkanDevice.cpp:511 | the fence no longer exists |
| VulkanDevice.Device.Submit | vulkan/baselib/VulkanDevice.cpp:508 | one submit call on the given queue; the submission's fence is pending |
| VulkanDevice.Device.WaitIdle | vulkan/baselib/VulkanView.cpp:205 | every pending fence is settled |
| VulkanDevice.Device.FlushCommandBuffer | vulkan/baselib/VulkanDevice.cpp:492-520 | nothing for a null buffer; otherwise end, submit on the given queue with a new fence, wait, destroy the fence, and free the buffer when asked; the fence states come back unchanged |
| VulkanDevice.Device.CopyBuffer | vulkan/baselib/VulkanDevice.cpp:416-431 | under the written guard (destination no larger than source) and a region that fits both buffers: the destination afterwards holds the copied region of the source and is otherwise unchanged; the copy runs through a one-off command buffer flushed on the given queue |
| VulkanDevice.Device.CreateCommandBuffers | vulkan/baselib/VulkanDevice.cpp:522-530 | n new distinct command buffers from one allocation call |
| VulkanDevice.Device.DestroyCommandBuffers | vulkan/baselib/VulkanDevice.cpp:532-536 | the buffers are freed in one call and their recordings dropped; the caller's list is emptied; other recordings stay |
| VulkanDevice.Device.CreateFences | vulkan/baselib/VulkanDevice.cpp:538-547 | n new fences, all signalled, one create call each |
| VulkanSwapChain.ChoosePresentQueue | vulkan/baselib/VulkanSwapChain.cpp:47-80 | succeeds exactly when some family both has graphics and can present, and returns the first such family; otherwise "no graphics or present queue" or "separate present queue" |
| VulkanSwapChain.ChooseColorFormat | vulkan/baselib/VulkanSwapChain.cpp:82-102 | a single undefined format means B8G8R8A8_UNORM; otherwise B8G8R8A8_UNORM with its colour space when offered, else the first format offered |
| VulkanSwapChain.PresentModeFor | vulkan/baselib/VulkanSwapChain.cpp:129-141 | FIFO under vsync; otherwise mailbox when offered, else immediate when offered, else FIFO; the mode is always FIFO or one offered |
| VulkanSwapChain.ChoosePresentMode | vulkan/baselib/VulkanSwapChain.cpp:129-141 | the loop picks exactly that present mode |
| VulkanSwapChain.DesiredImageCount | vulkan/baselib/VulkanSwapChain.cpp:143-145 | one more image than the minimum, computed in 32 bits (a minimum of 2^32-1 wraps to 0); exactly the maximum when that sum exceeds a non-zero maximum, exactly the sum otherwise |
| VulkanSwapChain.PreTransform | vulkan/baselib/VulkanSwapChain.cpp:147-153 | the identity transform when supported, otherwise the current transform |
| VulkanSwapChain.CompositeAlphaFor | vulkan/baselib/VulkanSwapChain.cpp:155-169 | the first supported mode in the order opaque, pre-multiplied, post-multiplied, inherit; opaque when none is supported |
| VulkanSwapChain.ChooseCompositeAlpha | vulkan/baselib/VulkanSwapChain.cpp:164-169 | the loop picks exactly that composite alpha |
| VulkanSwapChain.ImageUsage | vulkan/baselib/VulkanSwapChain.cpp:178-199 | colour attachment always, transfer source and destination exactly when the surface supports them, nothing else |
| VulkanSwapChain.DepthAspect | vulkan/baselib/VulkanSwapChain.cpp:280-284 | the depth aspect always, the stencil aspect exactly for depth-stencil formats |
| VulkanSwapChain.ChainInfo | vulkan/baselib/VulkanSwapChain.cpp:171-199 | the create info carries the surface, old chain, format, colour space and size given; FIFO under vsync and otherwise FIFO or an offered mode; an image count below 2^32 and within a non-zero maximum; colour-attachment usage; the identity transform when supported; a composite alpha from the four candidates |
| VulkanSwapChain.RetireCalls | vulkan/baselib/VulkanSwapChain.cpp:203-210 | nothing for a first chain; otherwise the old views are destroyed, then the old chain |
| VulkanSwapChain.SwapChain.constructor | vulkan/baselib/VulkanSwapChain.cpp:9-26 | a swapchain on the device with no surface, no chain and no images |
| VulkanSwapChain.SwapChain.SetSurface | vulkan/baselib/VulkanSwapChain.cpp:43-103 | remembers the surface; fails exactly when no family both has graphics and can present; on success the queue is the first such family, and the colour format is B8G8R8A8_UNORM for a lone undefined format, else the first B8G8R8A8_UNORM entry with its colour space, else the first format offered |
| VulkanSwapChain.SwapChain.Realize | vulkan/baselib/VulkanSwapChain.cpp:110-239 | waits for the device, creates the chain from the chosen parameters with the old chain attached, retires the old chain, and creates one colour view per image |
| VulkanSwapChain.SwapChain.ReplaceBuffers | vulkan/baselib/VulkanSwapChain.cpp:203-238 | the old chain and its views are destroyed before the new images are fetched and each gets its own colour view |
| VulkanSwapChain.SwapChain.CreateChain | vulkan/baselib/VulkanSwapChain.cpp:113-201 | once the device is idle, a new chain is created from the chosen present mode, image count, transform, alpha and usage, with the current chain passed as the old one |
| VulkanSwapChain.SwapChain.RetireOldChain | vulkan/baselib/VulkanSwapChain.cpp:203-210 | destroys the old views and chain when there was one |
| VulkanSwapChain.SwapChain.CreateColorViews | vulkan/baselib/VulkanSwapChain.cpp:212-238 | fetches the images and gives each its own colour view |
| VulkanSwapChain.SwapChain.CreateDepthImage | vulkan/baselib/VulkanSwapChain.cpp:241-293 | fails exactly when no device-local memory type fits, after the create-image call only; otherwise an image, memory from the lowest suitable type bound to it, and a view with the depth (and stencil) aspect, in that call order |
| VulkanSwapChain.SwapChain.CreateFrameBuffer | vulkan/baselib/VulkanSwapChain.cpp:295-323 | one new framebuffer per image |
| VulkanSwapChain.SwapChain.AcquireImage | vulkan/baselib/VulkanSwapChain.cpp:325-330 | the driver's result and image index, after one acquire call |
| VulkanSwapChain.SwapChain.QueuePresent | vulkan/baselib/VulkanSwapChain.cpp:332-346 | the driver's result, after one present call on the given queue for that image, waiting on the semaphore only when it is not null |
| VulkanView.FrameCommands | vulkan/baselib/VulkanView.cpp:217-258 | one render pass over the framebuffer: a flipped viewport of the view's size, the scissor, the scene, the overlay exactly when there is one, and nothing else inside the pass |
| VulkanView.RecordCalls | vulkan/baselib/VulkanView.cpp:228-261 | a begin and an end call per command buffer |
| VulkanView.RecordCallsPairs | vulkan/baselib/VulkanView.cpp:228-261 | buffer k is begun at call 2k and ended at call 2k+1, so recordings never interleave |
| VulkanView.RecordAllKeys | vulkan/baselib/VulkanView.cpp:228-261 | recording adds exactly the recorded buffers |
| VulkanView.RecordAllValues | vulkan/baselib/VulkanView.cpp:228-261 | for distinct buffers, buffer i holds the frame commands for framebuffer i |
| VulkanView.RecordAllOthers | vulkan/baselib/VulkanView.cpp:228-261 | other buffers keep their recordings |
| VulkanView.View.constructor | vulkan/baselib/VulkanView.cpp:147-157 | a view with its own swapchain and two new semaphores, and no frame resources |
| VulkanView.View.SizeCommandBuffers | vulkan/baselib/VulkanView.cpp:161-164 | one command buffer per image afterwards; the old ones are kept, with no call, when the count already matches |
| VulkanView.View.SizeFences | vulkan/baselib/VulkanView.cpp:171-175 | one fence per command buffer afterwards; when the count differs, every old fence is destroyed and new signalled ones are created |
| VulkanView.View.DestroyFences | vulkan/baselib/VulkanView.cpp:172-173 | exactly the given fences leave the device, one destroy call each, in order |
| VulkanView.View.BuildCommandBuffers | vulkan/baselib/VulkanView.cpp:203-262 | waits for the device, then records the frame commands for framebuffer i into command buffer i |
| VulkanView.View.RecordBuffers | vulkan/baselib/VulkanView.cpp:228-261 | command buffer i ends up holding the frame commands for framebuffer i, with begin/end calls in buffer order |
| VulkanView.View.RecordBuffer | vulkan/baselib/VulkanView.cpp:229-260 | one buffer is begun, gets the frame commands for its framebuffer, and is ended; no other recording changes |
| VulkanView.View.ClearFrame | vulkan/baselib/VulkanView.cpp:178-188 | every framebuffer destroyed in order and the list emptied, then the depth view, image and memory released, and the depth unit reset |
| VulkanView.View.CheckFrame | vulkan/baselib/VulkanView.cpp:159-176 | command buffers sized to the images; fails exactly when no memory type fits the depth image, after the allocation and create-image calls; otherwise the driver sees: new command buffers only when the count changed, the depth image, one framebuffer per image, an idle wait and every buffer recorded, then new fences only when the count changed; buffer i then holds the frame commands for framebuffer i |
| VulkanView.View.PrepareFrame | vulkan/baselib/VulkanView.cpp:161-167 | command buffers sized to the images, then a depth image and one framebuffer per command buffer, with those calls in that order, or the memory-type error after the create-image call |
| VulkanView.View.RecordFrame | vulkan/baselib/VulkanView.cpp:169-175 | every buffer recorded against its framebuffer after an idle wait, then one fence per command buffer, the old fences destroyed and new ones created when the count changed |
| VulkanView.View.CreateAttachments | vulkan/baselib/VulkanView.cpp:166-167 | a depth image of the view's size in the lowest suitable memory type and framebuffers on it, or the memory-type error after the create-image call only |
| VulkanView.View.Update | vulkan/baselib/VulkanView.cpp:134-145 | the command buffers are recorded again, after an idle wait, exactly when the overlay asks for it, and then hold the frame commands for their framebuffers; otherwise no call |
| VulkanView.View.ResizeImpl | vulkan/baselib/VulkanView.cpp:264-275 | the new size, then the frame check with its calls; on success one buffer, framebuffer and fence per image, each buffer holding its frame |
| VulkanView.View.SetSurface | vulkan/baselib/VulkanView.cpp:51-61 | fails exactly when no present queue can be set up or the depth image has no memory; otherwise the driver sees a vsync (so FIFO) chain of the size given, then the render pass, then the frame check, and each buffer holds its frame |
| VulkanView.View.AttachSurface | vulkan/baselib/VulkanView.cpp:51-58 | the swapchain takes the surface; fails with no driver call exactly when no family has graphics and can present; otherwise the chain is realised with vsync at the given size and then the render pass is created |
| VulkanView.View.NewRenderPass | vulkan/baselib/VulkanView.cpp:58 | a fresh, non-null render pass, with its one create call |
| VulkanView.View.Resized | vulkan/baselib/VulkanView.cpp:74-81 | the driver sees an idle wait, the chain realised with vsync at the new size, the old frame cleared, the frame check, and the re-recording when the overlay changed; fails exactly when the depth image has no memory; on success each buffer holds its frame at the new size |
| VulkanView.View.Rebuild | vulkan/baselib/VulkanView.cpp:78-80 | the old frame cleared, then the frame check, then the update; fails exactly when no memory type fits the depth image, stopping after the create-image call; otherwise one buffer, framebuffer and fence per image, each buffer holding its frame |
| VulkanView.View.Render | vulkan/baselib/VulkanView.cpp:277-310 | an acquire result other than success or suboptimal fails; otherwise the image's fence is waited on and reset, its buffer submitted to graphics queue 0 with that fence, and the image presented on the same queue |
| MeshPrimitive.MeshPrimitive.constructor | vulkan/baselib/MeshPrimitive.cpp:4 | a primitive on the device with no buffers |
| MeshPrimitive.MeshPrimitive.CreateStagingPair | vulkan/baselib/MeshPrimitive.cpp:11-12 | a host-visible staging buffer holding the data and a device-local destination of the same size; each is null exactly when no memory type suits it |
| MeshPrimitive.MeshPrimitive.Upload | vulkan/baselib/MeshPrimitive.cpp:11-13 | null exactly when either buffer could not be created; otherwise the device-local buffer holds the data, and the last calls are the one-off copy on the transfer queue |
| MeshPrimitive.MeshPrimitive.AddVertexBuf | vulkan/baselib/MeshPrimitive.cpp:9-15 | on success the attribute buffers gain one buffer holding the data; fails, with the list unchanged, exactly when a buffer could not be created |
| MeshPrimitive.MeshPrimitive.SetIndexBuf | vulkan/baselib/MeshPrimitive.cpp:17-23 | on success the index buffer holds the data; fails, with the index buffer unchanged, exactly when a buffer could not be created |
| GltfLoader.ByteStride | vulkan/baselib/GLTFLoader.cpp:115 | -1 exactly when the component size is invalid, or there is no stride and the element count is invalid, or the stride is not a multiple of the component size; otherwise positive, a multiple of the component size, the view's own stride when it has one and the packed element size when it has none |
| GltfLoader.AttrFormat | vulkan/baselib/GLTFLoader.cpp:133-166 | a Vulkan format exactly for the supported component type and element type pairs, with the matching channel count, channel width and float/integer kind |
| GltfLoader.StdCompareZero | vulkan/baselib/GLTFLoader.cpp:100-109 | a string comparison gives 0 exactly for equal strings |
| GltfLoader.StdCompareAntisymmetric | vulkan/baselib/GLTFLoader.cpp:100-109 | swapping the strings negates the comparison |
| GltfLoader.AttributeSlotAsWritten | vulkan/baselib/GLTFLoader.cpp:100-113 | as written: every slot is below 4, and slot 3 never goes to TEXCOORD_1 itself |
| GltfLoader.AttributeSlotAsWrittenMissesTexcoord1 | vulkan/baselib/GLTFLoader.cpp:109-113 | as written, TEXCOORD_1 is skipped while TEXCOORD_2 and TEXCOORD_10 get slot 3 |
| GltfLoader.AttributeSlot | vulkan/baselib/GLTFLoader.cpp:100-113 | (corrected: `compare(...) == 0` for TEXCOORD_1, see Findings) POSITION, NORMAL, TEXCOORD_0 and TEXCOORD_1, and only they, get a slot below 4 |
| GltfLoader.AttributeSlotInjective | vulkan/baselib/GLTFLoader.cpp:100-113 | distinct attributes get distinct slots |
| GltfLoader.AttributeSlotAgreesAsWritten | vulkan/baselib/GLTFLoader.cpp:100-108 | for POSITION, NORMAL and TEXCOORD_0 the corrected slot is the one as written |
| GltfLoader.ToU32 | vulkan/baselib/GLTFLoader.cpp:99 | the byte offset as a 32-bit field: below 2^32, and unchanged when it already fits |
| GltfLoader.InputOf | vulkan/baselib/GLTFLoader.cpp:94-120 | (corrected slot) an input exactly for a known attribute: its location and binding are the slot, its format that of the accessor's component and element type, its offset the accessor's byte offset, its stride the accessor's byte stride and its buffer index that of the accessor's buffer view, each as a 32-bit field |
| GltfLoader.Inputs | vulkan/baselib/GLTFLoader.cpp:93-121 | (corrected slot) exactly as many inputs as attributes with a known name |
| GltfLoader.InputsOfKnown | vulkan/baselib/GLTFLoader.cpp:93-121 | (corrected slot) every attribute with a known name yields its own input, placed after the inputs of the known attributes before it, so the inputs follow attribute order |
| GltfLoader.InputsFromAttributes | vulkan/baselib/GLTFLoader.cpp:93-121 | (corrected slot) every input comes from a known attribute of the primitive |
| GltfLoader.InputsDistinctLocations | vulkan/baselib/GLTFLoader.cpp:93-121 | (corrected slot) when attribute names are distinct, the inputs have distinct locations |
| GltfLoader.IndexCheckOf | vulkan/baselib/GLTFLoader.cpp:124-130 | no index check without indices; otherwise the index accessor's component type, accepted exactly between SHORT and UNSIGNED_INT |
| GltfLoader.LayoutOf | vulkan/baselib/GLTFLoader.cpp:86-131 | (corrected slot) parallel binding, attribute and buffer lists with one entry per attribute with a known name, in attribute order: the entry of such an attribute holds its input's binding, attribute description and buffer index |
| GltfLoader.PrimitivesOfOk | vulkan/baselib/GLTFLoader.cpp:73-77 | every primitive visited is a well-formed primitive of the model |
| GltfLoader.PrimitivesOfOrder | vulkan/baselib/GLTFLoader.cpp:73-77 | primitive j of mesh i is visited after every primitive of the earlier meshes |
| GltfLoader.Loader.constructor | vulkan/baselib/GLTFLoader.cpp:24-27 | an empty model |
| GltfLoader.Loader.LoadFile | vulkan/baselib/GLTFLoader.cpp:33-84 | (corrected slot) false with nothing built when parsing fails; otherwise true with the model's materials, one upload per buffer and one layout per primitive |
| GltfLoader.Loader.BuildMaterials | vulkan/baselib/GLTFLoader.cpp:45-65 | one material per model material, with ao 1, the base colour, metallic and roughness factors; the texture's image looked up when it has one |
| GltfLoader.Loader.AddBuffers | vulkan/baselib/GLTFLoader.cpp:69-71 | one upload per glTF buffer, in order, with its bytes |
| GltfLoader.Loader.CreatePrimitives | vulkan/baselib/GLTFLoader.cpp:73-77 | (corrected slot) one layout per primitive of each mesh, in order |
| GltfLoader.Loader.CreatePrimitive | vulkan/baselib/GLTFLoader.cpp:86-131 | (corrected slot) the primitive's layout |
| GltfLoader.Loader.CollectInputs | vulkan/baselib/GLTFLoader.cpp:88-121 | (corrected slot) entry i of the three lists is the binding, attribute and buffer index of the i-th attribute with a known name |
| SimpleShape.UV | vulkan/baselib/SimpleShape.h:33-34 | a texture coordinate has two components |
| SimpleShape.Point | vulkan/baselib/SimpleShape.h:35-38 | a sphere point has three components |
| SimpleShape.IndexInRange | vulkan/baselib/SimpleShape.h:47-56 | every index names one of the 2112 vertices and so fits a 16-bit index |
| SimpleShape.BandSlots | vulkan/baselib/SimpleShape.h:47-56 | slots 2x and 2x+1 of band y pair column x of its lower and upper rows, and the band closes on column 0 |
| SimpleShape.SlotOfBand | vulkan/baselib/SimpleShape.h:48-49 | bands occupy disjoint consecutive slot ranges |
| SimpleShape.Sphere.constructor | vulkan/baselib/SimpleShape.h:22 | a sphere with its centre and radius and no geometry |
| SimpleShape.Sphere.Build | vulkan/baselib/SimpleShape.h:26-57 | appends 2112 vertices, normals and texture coordinates, one per grid point, and writes the 4160 strip indices, each naming a vertex |
| SimpleShape.Sphere.BuildVertices | vulkan/baselib/SimpleShape.h:31-43 | grid point k gets texture coordinate (x/64, y/32), its sphere point as normal and that point moved to the centre as position |
| SimpleShape.Sphere.PushRow | vulkan/baselib/SimpleShape.h:32-42 | the 64 points of grid row y are appended in column order, each with its texture coordinate, normal and moved position |
| SimpleShape.Sphere.BuildIndices | vulkan/baselib/SimpleShape.h:45-56 | every slot holds its strip index, and every index names a vertex |
| SimpleShape.FillBand | vulkan/baselib/SimpleShape.h:47-56 | one pass fills band y with its strip indices and leaves the earlier bands alone |
| TVec.Add | vulkan/baselib/tvec.h:109-116 | the sum has the operands' length; DotAddLeft ties its values to the operands, and SubUndoesAdd makes Sub its inverse |
| TVec.Sub | vulkan/baselib/tvec.h:129-136 | the difference has the operands' length; SubUndoesAdd makes it the inverse of Add |
| TVec.Neg | vulkan/baselib/tvec.h:120-127 | the negation has the operand's length; SubIsAddNeg makes it an involution |
| TVec.Mul | vulkan/baselib/tvec.h:140-147 | the product has the operands' length; DivUndoesMul makes Div its inverse |
| TVec.Scale | vulkan/baselib/tvec.h:151-158 | the scaled vector has the operand's length; DivUndoesMul makes DivScalar its inverse |
| TVec.Div | vulkan/baselib/tvec.h:167-174 | the quotient has the operands' length (non-zero divisors) |
| TVec.DivScalar | vulkan/baselib/tvec.h:183-190 | the quotient has the operand's length (non-zero divisor) |
| TVec.SubUndoesAdd | vulkan/baselib/tvec.h:109-136 | subtracting b undoes adding b |
| TVec.SubIsAddNeg | vulkan/baselib/tvec.h:120-136 | subtracting is adding the negation, and negation is an involution |
| TVec.DivUndoesMul | vulkan/baselib/tvec.h:140-190 | dividing undoes multiplying, element-wise and by a scalar |
| TVec.VecN.constructor | vulkan/baselib/tvec.h:52-56 | a vector of zeros |
| TVec.VecN.Fill | vulkan/baselib/tvec.h:62-67 | every element is the scalar |
| TVec.VecN.Copy | vulkan/baselib/tvec.h:69-75 | the elements of the other vector |
| TVec.VecN.Reset | vulkan/baselib/tvec.h:77-83 | the first len elements read from `ptr` |
| TVec.VecN.Assign | vulkan/baselib/tvec.h:86-90 | the elements of the other vector |
| TVec.VecN.AssignScalar | vulkan/baselib/tvec.h:92-98 | every element is the scalar |
| TVec.VecN.AssignPrefix | vulkan/baselib/tvec.h:100-107 | the common prefix copied from the other vector, the rest kept |
| TVec.VecN.AddAssign | vulkan/baselib/tvec.h:118 | the vector becomes the sum |
| TVec.VecN.SubAssign | vulkan/baselib/tvec.h:138 | the vector becomes the difference |
| TVec.VecN.MulAssign | vulkan/baselib/tvec.h:149 | the vector becomes the element-wise product |
| TVec.VecN.ScaleAssign | vulkan/baselib/tvec.h:160-165 | the vector becomes the scaled vector |
| TVec.VecN.DivAssign | vulkan/baselib/tvec.h:176-181 | the vector becomes the element-wise quotient |
| TVec.VecN.DivScalarAssign | vulkan/baselib/tvec.h:192-197 | the vector becomes the vector over the scalar |
| TVec.DotAddLeft | vulkan/baselib/tvec.h:109-116 | the dot product with a sum is the sum of the dot products |
| TVec.DotSymmetric | vulkan/baselib/tvec.h:570-579 | the dot product is symmetric |
| TVec.DotSelf | vulkan/baselib/tvec.h:614-624 | a vector's dot product with itself is never negative, and is zero for the zero vector |
| TVec.DotSnoc | vulkan/baselib/tvec.h:575-577 | extending both vectors by one element adds that product to the dot product |
| TVec.ComputeDot | vulkan/baselib/tvec.h:570-579 | the loop computes the dot product |
| TVec.ComputeSquare | vulkan/baselib/tvec.h:614-624 | `square` is the dot product of the vector with itself, never negative |
| TVec.Cross | vulkan/baselib/tvec.h:581-587 | the cross product of two 3-vectors is a 3-vector |
| TVec.CrossOrthogonalLeft | vulkan/baselib/tvec.h:581-587 | the cross product is orthogonal to its first factor |
| TVec.CrossOrthogonalRight | vulkan/baselib/tvec.h:581-587 | the cross product is orthogonal to its second factor |
| TVec.CrossAnticommutative | vulkan/baselib/tvec.h:581-587 | swapping the factors negates the cross product |
| TVec.PowSumCases | vulkan/baselib/tvec.h:589-600 | with exponent 2 `pow` is the squared length; with exponent 1 or less it is the plain sum |
| TVec.ComputePow | vulkan/baselib/tvec.h:589-600 | the nested loop computes the sum of the num-th powers (exponent at least one) |
| TVec.MatFill | vulkan/baselib/tvec.h:806-811 | a matrix of the given size with every entry the scalar |
| TVec.Transpose | vulkan/baselib/tvec.h:936-948 | an h by w matrix with rows and columns swapped |
| TVec.TransposeInvolution | vulkan/baselib/tvec.h:936-948 | transposing twice gives the matrix back |
| TVec.Identity | vulkan/baselib/tvec.h:950-959 | ones on the diagonal and zeros elsewhere |
| TVec.MatMul | vulkan/baselib/tvec.h:896-913 | entry (j, i) of the product is row i of the left factor dotted with column j of the right |
| TVec.Unit | vulkan/baselib/tvec.h:950-959 | the i-th unit vector |
| TVec.DotUnit | vulkan/baselib/tvec.h:950-959 | dotting with the i-th unit vector picks element i |
| TVec.DotZero | vulkan/baselib/tvec.h:898 | dotting with zeros gives zero |
| TVec.IdentityUnit | vulkan/baselib/tvec.h:896-959 | the identity is a left and a right unit of the product |
| TVec.TransposeProduct | vulkan/baselib/tvec.h:896-948 | the transpose of a product is the product of the transposes in reverse order |
| TVec.ProductEntry | vulkan/baselib/tvec.h:902-908 | the inner loop computes one entry of the product |
| TVec.ComputeProduct | vulkan/baselib/tvec.h:896-913 | the loops compute the product |
| TVec.Resize | vulkan/baselib/tvec.h:821-829 | the entries both sizes share are copied |
| TVec.ResizeRoundTrip | vulkan/baselib/tvec.h:821-829 | growing a matrix and shrinking it back gives the matrix back |
| TVec.Mat4Of3 | vulkan/baselib/tvec.h:1149-1159 | the 3x3 matrix in the upper-left corner, zeros in the fourth row and column, and 1 in the corner |
| TVec.Mat4Of3Identity | vulkan/baselib/tvec.h:1149-1159 | widening the 3x3 identity gives the 4x4 identity |
| TVec.Mat4Of3Product | vulkan/baselib/tvec.h:1149-1159 | widening commutes with the product |
| TMath.Clamp | vulkan/baselib/tmath.h:299-303 | within the bounds when they are ordered, the value itself when it lies between them, and a bound otherwise |
| TMath.ClampIdempotent | vulkan/baselib/tmath.h:299-303 | clamping twice is clamping once |
| TMath.Sgn | vulkan/baselib/tmath.h:161-168 | 1 exactly for positive, -1 exactly for negative, 0 exactly for zero |
| TMath.MinV | vulkan/baselib/tmath.h:287-298 | each element is at most both inputs and equal to one of them |
| TMath.MaxV | vulkan/baselib/tmath.h:305-316 | each element is at least both inputs and equal to one of them |
| TMath.MinPlusMax | vulkan/baselib/tmath.h:287-316 | the minimum plus the maximum is the sum of the inputs |
| TMath.ScalarDiv | vulkan/baselib/tmath.h:403-414 | each element is the scalar over that element |
| TMath.ScalarDivInverse | vulkan/baselib/tmath.h:403-414 | multiplying s / v back by v gives s in every element |
| TMath.MatVec | vulkan/baselib/tmath.h:380-393 | one element per row |
| TMath.MatVecIdentity | vulkan/baselib/tmath.h:380-393 | the identity leaves a vector unchanged |
| TMath.RowSum | vulkan/baselib/tmath.h:386-389 | the inner loop computes row m dotted with the vector |
| TMath.MatTimesVec | vulkan/baselib/tmath.h:350-363 | the loops compute the matrix times the vector (both `operator*` overloads run this loop) |
| TMath.Translate2 | vulkan/baselib/tmath.h:187-197 | a 3x3 matrix |
| TMath.Translate2Moves | vulkan/baselib/tmath.h:187-197 | it moves a 2D point by (x, y) |
| TMath.Translate3 | vulkan/baselib/tmath.h:199-212 | a 4x4 matrix |
| TMath.Translate3Moves | vulkan/baselib/tmath.h:199-212 | it moves a 3D point by (x, y, z) |
| TMath.Scale3 | vulkan/baselib/tmath.h:228-241 | a 4x4 matrix |
| TMath.Scale3Scales | vulkan/baselib/tmath.h:228-241 | it scales each coordinate by its factor and keeps w |
| TMath.ScaleUniform | vulkan/baselib/tmath.h:243-250 | a 4x4 matrix |
| TMath.ScaleUniformIsScale3 | vulkan/baselib/tmath.h:243-250 | uniform scaling is scaling by the same factor on each axis |
| TMath.Frustum | vulkan/baselib/tmath.h:74-97 | a 4x4 matrix, the identity for a degenerate frustum |
| TMath.FrustumNearLowCorner | vulkan/baselib/tmath.h:85-94 | the near plane's lower-left corner maps to the lower-left corner of clip space |
| TMath.FrustumNearHighCorner | vulkan/baselib/tmath.h:85-94 | the near plane's upper-right corner maps to the upper-right corner of clip space |
| TMath.FrustumFarDepth | vulkan/baselib/tmath.h:88-94 | a point on the far plane gets z = w = f, that is depth 1 after the divide |
| TMath.EntryProduct | vulkan/baselib/tmath.h:365-378 | each entry is the product of the two entries |
| TMath.EntryProductLaws | vulkan/baselib/tmath.h:365-378 | the entry-wise product is commutative and has the all-ones matrix as unit |
| TMath.MixAsWritten | vulkan/baselib/tmath.h:416-420 | as written: the result is the corrected interpolation at t + 1 |
| TMath.MixAsWrittenMissesEnds | vulkan/baselib/tmath.h:416-420 | as written, mix at t = 0 gives B rather than A, and at t = 1 it overshoots B |
| TMath.Mix | vulkan/baselib/tmath.h:416-420 | (corrected: A + t(B - A), see Findings) a vector of the inputs' length |
| TMath.MixEnds | vulkan/baselib/tmath.h:416-420 | (corrected) mix gives A at t = 0 and B at t = 1, and lies between them for t in [0, 1] |
| TMath.MixEachAsWritten | vulkan/baselib/tmath.h:422-426 | as written: each element is the corrected interpolation at its weight plus one |
| TMath.MixEachAsWrittenMissesStart | vulkan/baselib/tmath.h:422-426 | as written, per-element mix at t = 0 gives B rather than A |
| TMath.MixEach | vulkan/baselib/tmath.h:422-426 | (corrected: A + t(B - A) per element, see Findings) a vector of the inputs' length |
| TMath.MixEachUniform | vulkan/baselib/tmath.h:416-426 | (corrected) per-element mix with every t the same is mix with that t |
| TMath.Temper | vulkan/baselib/tmath.h:56-58 | the result has the bits of 1.0f and lies in [1, 2) when read as a float |
| TMath.Random.constructor | vulkan/baselib/tmath.h:50 | the seed starts at 0x13371337 |
| TMath.Random.Next | vulkan/baselib/tmath.h:48-61 | the seed is multiplied by 16807 with 32-bit wrap-around, and the result is its tempering |

## Left out

- `VK_CHECK_RESULT` failures are treated as fatal: a checked driver call is assumed to succeed. `VulkanTools.h` is not part of this model.
- Two unchecked driver calls are also assumed to succeed: `vkCreateSwapchainKHR` (VulkanSwapChain.cpp:201), whose handle `SwapChain.CreateChain` and `SwapChain.Realize` promise is non-null, and `vkCreateCommandPool` (VulkanDevice.cpp:450), whose pool `Device.CreateLogicalDevice` and `Device.Realize` promise is non-null after a successful device creation. The source ignores both results.
- `tiny_gltf.h` is not part of this model. The parser's answer is a parameter of `Loader.LoadFile`. `ByteStride` follows tinygltf as documented.
- `GltfLoader.StdCompare`: the sign is as the C++ standard library documents it; the magnitude (the difference of the first differing characters, else of the lengths) follows one glibc implementation, and the as-written `== 1` test of TEXCOORD_1 depends on it.
- `GltfLoader.Loader.LoadFile`: on a parse failure the model is unchanged, whereas the parser may have filled part of it.
- Floating point is modelled as `real`: no rounding, infinities or NaN.
- Trigonometry is left out. The sphere's surface point for a texture coordinate is a parameter of `Sphere.Build`.
- `perspective`, `ortho`, `lookat`, `rotate`, `near_clip`, `inverse`, `length`, `normalize`, `random<float>`, quaternions, `smoothstep`, `reflect` and `refract` are left out: they need square roots, trigonometry or float bit casts.
- The 4x4 matrix times 3-vector overload (tmath.h:395-401) is left out: it divides by the homogeneous coordinate, a float operation.
- `TVec.Div`, `TVec.DivScalar`, `TMath.ScalarDiv`: the divisors must be non-zero; float division by zero (infinities, NaN) is not modelled.
- `TVec.DotSelf`: states that the square is non-negative and zero for the zero vector, not the converse (zero only for the zero vector).
- `TVec.ComputePow`: an exponent below 1 is treated as 1, as the loop leaves `res` at `v[i]`.
- `MeshPrimitive.MeshPrimitive.AddVertexBuf` and `SetIndexBuf` return an error when a buffer is null; the source would pass the null buffer on to `copy_buffer`.
- `TMath.Random`: the source's seed is a function-static variable, initialised once per program and shared by every `random<unsigned int>`; the model keeps it in a `Random` object, so each new object restarts the sequence.
- `VulkanDevice.Device.CopyBuffer` requires both the written guard (destination no larger than source) and that the copy region fit both buffers (see Findings); a copy that does not fit is undefined behaviour in Vulkan.
- `VulkanDevice.Device.Realize`: when a later queue-family lookup throws, the source has already stored the families found before it; the model leaves the three family indices as they were.
- The device's `transfer_queue()` is not part of this model: `MeshPrimitive.Upload`, `AddVertexBuf` and `SetIndexBuf` take the queue it returns as a parameter. `graphic_queue` is modelled as the queue (graphics family, index).
- `MeshPrimitive.MeshPrimitive.Upload` never releases the staging buffer, and neither does the source: `~VulkanBuffer` is empty and `destroy()` is never called, so the buffer and its memory stay allocated.
- `MeshInstance`, the ImGui overlay's own drawing, pipelines, shaders, the render pass contents and the scene callbacks are not part of this model. The overlay's "changed" answer is a parameter of `View.Update`.
- The SDL event loop in `VulkanView::frame` is left out apart from its resize branch (`View.Resized`); events, mouse and keyboard handling and the manipulator are input handling, not Vulkan state.
- The destructors (`~VulkanDevice`, `~VulkanView`) are left out: they only release what the model tracks as handles.
- Concurrency and the GPU's asynchrony are left out. A submission's fence is pending until the device is waited on or the fence is waited on.
- The portability-subset extension (macOS/iOS only) and the `pNext` feature chain of `realize` are left out.
- Timeouts of fence waits are left out: a wait always completes.

## Findings

| source | as written | input that shows it | evidently intended | confidence | as-written member | corrected member |
|---|---|---|---|---|---|---|
| vulkan/baselib/VulkanDevice.cpp:112-127 | without a graphics request, graphics is set to 0; the compute create info is added only when compute differs from it | only compute requested, and the compute family is 0 | a create info for every family in use, so the compute queue of family 0 exists | not executed | VulkanDevice.QueueSetupAsWrittenDropsCompute | VulkanDevice.QueueSetupSound |
| vulkan/baselib/VulkanDevice.cpp:418-423 | the guard asserts the destination is no larger than the source, then copies the whole source | source 8 bytes, destination 4 bytes | the source must fit in the destination | not executed | VulkanDevice.CopyGuardAsWrittenOverflows | VulkanDevice.CopyFitsWhole |
| vulkan/baselib/GLTFLoader.cpp:109-111 | TEXCOORD_1 is matched by `compare(...) == 1` | attribute TEXCOORD_1 (skipped), and TEXCOORD_2 (given slot 3) | `compare(...) == 0`, as for the other names | not executed | GltfLoader.AttributeSlotAsWrittenMissesTexcoord1 | GltfLoader.AttributeSlot |
| vulkan/baselib/tmath.h:416-420 | mix returns B + t(B - A) | A = [0], B = [1], t = 0 gives [1] | linear interpolation A + t(B - A) | not executed | TMath.MixAsWrittenMissesEnds | TMath.MixEnds |
| vulkan/baselib/tmath.h:422-426 | per-element mix returns B + t(B - A) | A = [0], B = [1], t = [0] gives [1] | A + t(B - A) | not executed | TMath.MixEachAsWrittenMissesStart | TMath.MixEachUniform |
