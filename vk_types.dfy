// The Vulkan vocabulary shared by every component of the engine.
// Handles are opaque identifiers: 0 stands for VK_NULL_HANDLE.  Result codes
// of driver calls are passed in as values of `VkResult`, and every way the
// engine's `Error(...)` macro can throw is one constructor of `Error`.
module VkTypes {

  import opened Wrappers

  type Handle = nat

  const NULL_HANDLE: Handle := 0

  /** UINT32_MAX, the "extent chosen by the application" marker. */
  const U32_MAX: nat := 0xFFFF_FFFF

  /** The result codes the engine tells apart; every other code is `OtherCode`. */
  datatype VkResult =
    | Success
    | Suboptimal
    | OutOfDate
    | OutOfPoolMemory
    | OtherCode(code: int)

  /** What one vkCreate* call reports: its result code and the handle it wrote. */
  datatype Created = Created(result: VkResult, handle: Handle)

  datatype Format =
    | FormatUndefined
    | R8G8B8A8Srgb
    | B8G8R8A8Srgb
    | D32Sfloat
    | D32SfloatS8Uint
    | D24UnormS8Uint
    | R32G32B32A32Sint | R32G32B32Sint | R32G32Sint | R32Sint
    | R32G32B32A32Uint | R32G32B32Uint | R32G32Uint | R32Uint
    | R32G32B32A32Sfloat | R32G32B32Sfloat | R32G32Sfloat | R32Sfloat
    | R64G64B64A64Sfloat | R64G64B64Sfloat | R64G64Sfloat | R64Sfloat
    | OtherFormat(code: int)

  datatype ColorSpace = SrgbNonlinear | OtherColorSpace(code: int)

  datatype SurfaceFormat = SurfaceFormat(format: Format, colorSpace: ColorSpace)

  datatype PresentMode = Immediate | Mailbox | Fifo | FifoRelaxed | OtherPresentMode(code: int)

  datatype ImageLayout =
    | LayoutUndefined
    | TransferDstOptimal
    | ShaderReadOnlyOptimal
    | DepthStencilAttachmentOptimal
    | ColorAttachmentOptimal
    | PresentSrc
    | OtherLayout(code: int)

  datatype Extent = Extent(width: nat, height: nat)

  datatype SurfaceCapabilities = SurfaceCapabilities(
    minImageCount: nat,
    maxImageCount: nat,        // 0 means "no limit"
    currentExtent: Extent,
    minImageExtent: Extent,
    maxImageExtent: Extent)

  /** What the driver reports about a surface for one physical device. */
  datatype SwapchainSupport = SwapchainSupport(
    capabilities: SurfaceCapabilities,
    formats: seq<SurfaceFormat>,
    presentModes: seq<PresentMode>)

  /** The three queue families the engine looks for; each may be missing. */
  datatype QueueFamilyIndices = QueueFamilyIndices(
    graphics: Option<nat>,
    transfer: Option<nat>,
    presentation: Option<nat>)
  {
    predicate IsValid() { graphics.Some? && transfer.Some? && presentation.Some? }
  }

  /** Every reason the engine's `Error(...)` macro is reached. */
  datatype Error =
    // swapchain
    | AcquireFailed | PresentFailed | SwapchainCreateFailed | ImageViewCreateFailed
    | NoImageWasUsed
    // core helpers
    | NoSuitableMemoryType | NoSupportedFormat | UnsupportedLayoutTransition
    | FramebufferCreateFailed | FenceCreateFailed | SemaphoreCreateFailed
    | BadOptionalAccess | ValidationMessage
    // descriptors
    | BindingOccupied | LayoutCreateFailed | PoolCreateFailed | PoolOutOfMemory
    | BindingMissing
    // instance
    | ValidationLayersUnavailable | ExtensionsUnsupported | InstanceCreateFailed
    | DebugReportUnavailable | DebugReportCreateFailed
    // device
    | NoVulkanDevice | NoSuitableDevice | DeviceCreateFailed
    // render pass
    | RenderPassCreateFailed
    // renderer
    | CommandPoolCreateFailed | CommandBufferAllocateFailed
    | CommandBufferBeginFailed | CommandBufferEndFailed | SubmitFailed
    | RenderPassNotRegistered | FramebufferMissing
    // canvas
    | CanvasViewportUnavailable | CanvasUnknown
}
