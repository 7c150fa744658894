/** The slice of the Vulkan API that the base library touches: handles, flag
    bits and enumerants with their values from the Vulkan 1.3 headers, and the
    vocabulary in which the model records what the library asks of the driver. */
module Vk {
  import opened Wrappers

  /** Every Vulkan object is an opaque non-dispatchable id; 0 is VK_NULL_HANDLE. */
  type Handle = nat
  const NullHandle: Handle := 0

  /** A queue of the logical device, named as vkGetDeviceQueue names it: by
      its queue family and its index within that family. */
  datatype Queue = Queue(family: nat, index: nat)

  /** `flags` holds every bit of `mask`, the `(flags & mask) == mask` test of the source. */
  predicate Has(flags: bv32, mask: bv32) { flags & mask == mask }

  /** `flags` holds at least one bit of `mask`, the `if (flags & mask)` test of the source. */
  predicate Any(flags: bv32, mask: bv32) { flags & mask != 0 }

  const U32Modulus: int := 0x1_0000_0000

  // VkResult
  const Success: int := 0
  const SuboptimalKhr: int := 1000001003
  const ErrorOutOfDateKhr: int := -1000001004
  const ErrorInitializationFailed: int := -3

  // VkQueueFlagBits
  const QueueGraphics: bv32 := 0x1
  const QueueCompute: bv32 := 0x2
  const QueueTransfer: bv32 := 0x4

  // VkMemoryPropertyFlagBits
  const MemoryDeviceLocal: bv32 := 0x1
  const MemoryHostVisible: bv32 := 0x2
  const MemoryHostCoherent: bv32 := 0x4
  /** VK_MAX_MEMORY_TYPES: the size of the memoryTypes array of VkPhysicalDeviceMemoryProperties. */
  const MaxMemoryTypes: nat := 32

  // VkBufferUsageFlagBits
  const BufferTransferSrc: bv32 := 0x1
  const BufferTransferDst: bv32 := 0x2
  const BufferIndex: bv32 := 0x40
  const BufferVertex: bv32 := 0x80
  const BufferShaderDeviceAddress: bv32 := 0x20000

  // VkImageUsageFlagBits
  const ImageTransferSrc: bv32 := 0x1
  const ImageTransferDst: bv32 := 0x2
  const ImageColorAttachment: bv32 := 0x10
  const ImageDepthStencilAttachment: bv32 := 0x20

  // VkImageAspectFlagBits
  const AspectColor: bv32 := 0x1
  const AspectDepth: bv32 := 0x2
  const AspectStencil: bv32 := 0x4

  // VkFormatFeatureFlagBits
  const FeatureSampledImage: bv32 := 0x1
  const FeatureDepthStencilAttachment: bv32 := 0x200

  // VkSurfaceTransformFlagBitsKHR
  const TransformIdentity: bv32 := 0x1

  // VkCompositeAlphaFlagBitsKHR
  const AlphaOpaque: bv32 := 0x1
  const AlphaPreMultiplied: bv32 := 0x2
  const AlphaPostMultiplied: bv32 := 0x4
  const AlphaInherit: bv32 := 0x8

  // VkPresentModeKHR
  const PresentImmediate: int := 0
  const PresentMailbox: int := 1
  const PresentFifo: int := 2
  const PresentFifoRelaxed: int := 3

  // VkFormat
  const FormatUndefined: int := 0
  const FormatB8G8R8A8Unorm: int := 44
  const FormatR16G16Sint: int := 82
  const FormatR16G16B16Sint: int := 89
  const FormatR16G16B16A16Sint: int := 96
  const FormatR32G32Sint: int := 102
  const FormatR32G32Sfloat: int := 103
  const FormatR32G32B32Sint: int := 105
  const FormatR32G32B32Sfloat: int := 106
  const FormatR32G32B32A32Sint: int := 108
  const FormatR32G32B32A32Sfloat: int := 109
  const FormatD16Unorm: int := 124
  const FormatX8D24UnormPack32: int := 125
  const FormatD32Sfloat: int := 126
  const FormatS8Uint: int := 127
  const FormatD16UnormS8Uint: int := 128
  const FormatD24UnormS8Uint: int := 129
  const FormatD32SfloatS8Uint: int := 130

  /** The parameters of one vkCreateSwapchainKHR call that the library chooses. */
  datatype SwapchainCreateInfo = SwapchainCreateInfo(
    surface: Handle,
    minImageCount: nat,
    imageFormat: int,
    imageColorSpace: int,
    width: nat,
    height: nat,
    imageUsage: bv32,
    preTransform: bv32,
    presentMode: int,
    oldSwapchain: Handle,
    compositeAlpha: bv32)

  /** VkVertexInputBindingDescription with the per-vertex input rate. */
  datatype VertexBinding = VertexBinding(binding: nat, stride: nat)

  /** VkVertexInputAttributeDescription; a format of `None` is an accessor
      layout that has no vertex format. */
  datatype VertexAttribute = VertexAttribute(location: nat, binding: nat, format: Option<int>, offset: nat)

  /** One region of vkCmdCopyBuffer. */
  datatype BufferCopy = BufferCopy(srcOffset: nat, dstOffset: nat, size: nat)

  /** A command recorded into a command buffer. */
  datatype Cmd =
    | CmdCopyBuffer(src: Handle, dst: Handle, region: BufferCopy)
    | CmdBeginRenderPass(renderPass: Handle, framebuffer: Handle, width: int, height: int)
    | CmdSetViewport(y: int, width: int, height: int)  // a negative height flips the y axis
    | CmdSetScissor(width: int, height: int)
    | CmdDrawScene        // the scene callback `build_command_buffer(cmd)`
    | CmdDrawOverlay      // the user-interface overlay's `draw(cmd)`
    | CmdEndRenderPass

  /** One call the library makes into the driver, in the order it makes them. */
  datatype Call =
    | CreateDevice(queueFamilies: seq<nat>, extensions: seq<string>)
    | CreateCommandPool(pool: Handle, family: nat)
    | CreatePipelineCache(cache: Handle)
    | CreateDescriptorPool(pool: Handle)
    | CreateBuffer(buffer: Handle, usage: bv32, size: nat)
    | AllocateMemory(memory: Handle, typeIndex: nat, deviceAddress: bool)
    | MapAndCopy(memory: Handle, size: nat)
    | UnmapMemory(memory: Handle)
    | FlushMappedRange(memory: Handle, size: nat)
    | BindBufferMemory(buffer: Handle, memory: Handle)
    | AllocateCommandBuffers(cmds: seq<Handle>)
    | FreeCommandBuffers(cmds: seq<Handle>)
    | BeginCommandBuffer(cmd: Handle)
    | EndCommandBuffer(cmd: Handle)
    | CreateFence(fence: Handle, signaled: bool)
    | DestroyFence(fence: Handle)
    | WaitForFence(fence: Handle)
    | ResetFence(fence: Handle)
    | QueueSubmit(queue: Queue, cmd: Handle, waitSemaphore: Option<Handle>, signalSemaphore: Option<Handle>, fence: Handle)
    | DeviceWaitIdle
    | CreateSemaphore(semaphore: Handle)
    | CreateRenderPass(renderPass: Handle)
    | CreateSwapchain(swapchain: Handle, info: SwapchainCreateInfo)
    | DestroySwapchain(swapchain: Handle)
    | GetSwapchainImages(swapchain: Handle, images: seq<Handle>)
    | CreateImage(image: Handle, format: int, width: nat, height: nat)
    | DestroyImage(image: Handle)
    | FreeMemory(memory: Handle)
    | BindImageMemory(image: Handle, memory: Handle)
    | CreateImageView(view: Handle, image: Handle, format: int, aspect: bv32)
    | DestroyImageView(view: Handle)
    | CreateFramebuffer(framebuffer: Handle, renderPass: Handle, attachments: seq<Handle>, width: nat, height: nat)
    | DestroyFramebuffer(framebuffer: Handle)
    | AcquireNextImage(swapchain: Handle, semaphore: Handle)
    | QueuePresent(queue: Queue, swapchain: Handle, index: nat, waitSemaphore: Option<Handle>)

  /** Extending a log by several steps one after the other extends it by
      the steps taken together. */
  lemma LogSteps(log: seq<Call>, a: seq<Call>, b: seq<Call>, c: seq<Call>, d: seq<Call>, e: seq<Call>, f: seq<Call>)
    ensures log + a + b + c + d + e + f == log + (a + b + c + d + e + f)
    ensures log + a + b + c + d == log + (a + b + c + d)
  {
  }

  /** A fence as the host sees it. `Pending` is a fence attached to a submission
      the GPU has not finished; GPU completion turns it into `Signaled`. */
  datatype FenceState = Signaled | Unsignaled | Pending
}
