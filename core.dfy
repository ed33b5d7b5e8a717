// The free helper functions of the Vulkan layer: selections over what the
// driver reports (memory types, formats), the image-layout transition table,
// the sharing-mode choice, framebuffer/fence/semaphore creation loops and the
// debug-messenger routing.  Driver calls are parameters: the properties the
// driver would report, and the result code and handle of each creation call.
module VulkanCore {

  import opened Wrappers
  import opened VkTypes

  // ---------------------------------------------------------------------------
  // Flag bits (values of the Vulkan headers)

  const SEVERITY_VERBOSE: bv32 := 0x1
  const SEVERITY_INFO: bv32 := 0x10
  const SEVERITY_WARNING: bv32 := 0x100
  const SEVERITY_ERROR: bv32 := 0x1000

  const MESSAGE_TYPE_GENERAL: bv32 := 0x1
  const MESSAGE_TYPE_VALIDATION: bv32 := 0x2
  const MESSAGE_TYPE_PERFORMANCE: bv32 := 0x4

  const ASPECT_COLOR: bv32 := 0x1
  const ASPECT_DEPTH: bv32 := 0x2
  const ASPECT_STENCIL: bv32 := 0x4

  const ACCESS_SHADER_READ: bv32 := 0x20
  const ACCESS_DEPTH_STENCIL_ATTACHMENT_READ: bv32 := 0x200
  const ACCESS_DEPTH_STENCIL_ATTACHMENT_WRITE: bv32 := 0x400
  const ACCESS_TRANSFER_WRITE: bv32 := 0x1000

  const STAGE_TOP_OF_PIPE: bv32 := 0x1
  const STAGE_FRAGMENT_SHADER: bv32 := 0x80
  const STAGE_EARLY_FRAGMENT_TESTS: bv32 := 0x100
  const STAGE_COLOR_ATTACHMENT_OUTPUT: bv32 := 0x400
  const STAGE_TRANSFER: bv32 := 0x1000

  const FEATURE_DEPTH_STENCIL_ATTACHMENT: bv32 := 0x200

  const FENCE_CREATE_SIGNALED: bv32 := 0x1
  const COMMAND_POOL_CREATE_RESET_COMMAND_BUFFER: bv32 := 0x2

  // ---------------------------------------------------------------------------
  // Memory types

  /** Memory type `i` is allowed by `typeFilter` and has every requested property. */
  predicate MemoryTypeFits(typeFilter: bv32, properties: bv32, memoryTypes: seq<bv32>, i: nat)
    requires i < |memoryTypes| <= 32
  {
    typeFilter & ((1 as bv32) << i) != 0 && memoryTypes[i] & properties == properties
  }

  /**
   * `memoryTypes[i]` is the property flags of memory type `i` the driver
   * reports (at most VK_MAX_MEMORY_TYPES = 32 of them).
   */
  method ChooseMemoryType(typeFilter: bv32, properties: bv32, memoryTypes: seq<bv32>) returns (r: Result<nat, Error>)
    requires |memoryTypes| <= 32
    ensures r.Ok? ==> r.value < |memoryTypes| && MemoryTypeFits(typeFilter, properties, memoryTypes, r.value)
    ensures r.Ok? ==> forall j :: 0 <= j < r.value ==> !MemoryTypeFits(typeFilter, properties, memoryTypes, j)
    ensures r.Fail? ==> r.error == NoSuitableMemoryType
    ensures r.Fail? ==> forall j :: 0 <= j < |memoryTypes| ==> !MemoryTypeFits(typeFilter, properties, memoryTypes, j)
  {
    var i := 0;
    while i < |memoryTypes|
      invariant i <= |memoryTypes|
      invariant forall j :: 0 <= j < i ==> !MemoryTypeFits(typeFilter, properties, memoryTypes, j)
    {
      if typeFilter & ((1 as bv32) << i) != 0 && memoryTypes[i] & properties == properties {
        return Ok(i);
      }
      i := i + 1;
    }
    return Fail(NoSuitableMemoryType);
  }

  // ---------------------------------------------------------------------------
  // Formats

  datatype Tiling = Linear | Optimal | OtherTiling(code: int)

  datatype FormatProperties = FormatProperties(linearTilingFeatures: bv32, optimalTilingFeatures: bv32)

  /** The features of the tiling in use contain every requested feature. */
  predicate Supports(props: FormatProperties, tiling: Tiling, features: bv32)
  {
    || (tiling == Linear && props.linearTilingFeatures & features == features)
    || (tiling == Optimal && props.optimalTilingFeatures & features == features)
  }

  /** Candidate `k` is supported and no earlier candidate is. */
  predicate FirstSupported(candidates: seq<Format>, k: nat, tiling: Tiling, features: bv32,
                           formatProperties: Format -> FormatProperties)
    requires k < |candidates|
  {
    && Supports(formatProperties(candidates[k]), tiling, features)
    && forall j :: 0 <= j < k ==> !Supports(formatProperties(candidates[j]), tiling, features)
  }

  /**
   * `formatProperties` is what vkGetPhysicalDeviceFormatProperties reports
   * for each format.
   */
  method FindSupportedFormat(candidates: seq<Format>, tiling: Tiling, features: bv32, formatProperties: Format -> FormatProperties)
    returns (r: Result<Format, Error>)
    ensures r.Ok? ==>
              exists k :: 0 <= k < |candidates| && candidates[k] == r.value
                            && FirstSupported(candidates, k, tiling, features, formatProperties)
    ensures r.Fail? ==> r.error == NoSupportedFormat
    ensures r.Fail? <==> forall j :: 0 <= j < |candidates| ==> !Supports(formatProperties(candidates[j]), tiling, features)
  {
    var i := 0;
    while i < |candidates|
      invariant i <= |candidates|
      invariant forall j :: 0 <= j < i ==> !Supports(formatProperties(candidates[j]), tiling, features)
    {
      var format := candidates[i];
      var props := formatProperties(format);
      // LINEAR tiling tests the linear features, OPTIMAL the optimal ones
      if Supports(props, tiling, features) {
        assert FirstSupported(candidates, i, tiling, features, formatProperties);
        return Ok(format);
      }
      i := i + 1;
    }
    return Fail(NoSupportedFormat);
  }

  const DepthCandidates: seq<Format> := [D32Sfloat, D32SfloatS8Uint, D24UnormS8Uint]

  method FindDepthFormat(formatProperties: Format -> FormatProperties) returns (r: Result<Format, Error>)
    ensures r.Ok? ==>
              exists k :: 0 <= k < 3 && DepthCandidates[k] == r.value
                            && formatProperties(r.value).optimalTilingFeatures & FEATURE_DEPTH_STENCIL_ATTACHMENT != 0
                            && forall j :: 0 <= j < k ==> formatProperties(DepthCandidates[j]).optimalTilingFeatures & FEATURE_DEPTH_STENCIL_ATTACHMENT == 0
    ensures r.Fail? <==> forall j :: 0 <= j < 3 ==> formatProperties(DepthCandidates[j]).optimalTilingFeatures & FEATURE_DEPTH_STENCIL_ATTACHMENT == 0
    ensures r.Fail? ==> r.error == NoSupportedFormat
  {
    r := FindSupportedFormat(DepthCandidates, Optimal, FEATURE_DEPTH_STENCIL_ATTACHMENT, formatProperties);
    forall f: Format
      ensures Supports(formatProperties(f), Optimal, FEATURE_DEPTH_STENCIL_ATTACHMENT)
          <==> formatProperties(f).optimalTilingFeatures & FEATURE_DEPTH_STENCIL_ATTACHMENT != 0
    {
      SingleBitContained(formatProperties(f).optimalTilingFeatures);
    }
  }

  /** For the one-bit feature mask, "contains the mask" and "shares a bit" agree. */
  lemma SingleBitContained(x: bv32)
    ensures (x & FEATURE_DEPTH_STENCIL_ATTACHMENT == FEATURE_DEPTH_STENCIL_ATTACHMENT)
        <==> (x & FEATURE_DEPTH_STENCIL_ATTACHMENT != 0)
  {
  }

  function HasStencilComponent(format: Format): (b: bool)
    ensures b <==> format in {D32SfloatS8Uint, D24UnormS8Uint}
    ensures format in DepthCandidates ==> (b <==> format != D32Sfloat)
  {
    format == D32SfloatS8Uint || format == D24UnormS8Uint
  }

  // ---------------------------------------------------------------------------
  // Image layout transitions

  datatype ImageBarrier = ImageBarrier(
    image: Handle,
    oldLayout: ImageLayout,
    newLayout: ImageLayout,
    aspectMask: bv32,
    baseMipLevel: nat, levelCount: nat, baseArrayLayer: nat, layerCount: nat,
    srcAccessMask: bv32,
    dstAccessMask: bv32,
    srcStage: bv32,
    dstStage: bv32)

  /** The three layout changes the engine knows how to synchronise. */
  predicate SupportedTransition(oldLayout: ImageLayout, newLayout: ImageLayout)
  {
    || (oldLayout == LayoutUndefined && newLayout == TransferDstOptimal)
    || (oldLayout == TransferDstOptimal && newLayout == ShaderReadOnlyOptimal)
    || (oldLayout == LayoutUndefined && newLayout == DepthStencilAttachmentOptimal)
  }

  /** The barrier recorded by TransitionImageLayout, or the error it raises. */
  function TransitionImageLayout(image: Handle, format: Format, oldLayout: ImageLayout, newLayout: ImageLayout)
    : (r: Result<ImageBarrier, Error>)
    ensures r.Ok? <==> SupportedTransition(oldLayout, newLayout)
    ensures r.Fail? ==> r.error == UnsupportedLayoutTransition
    ensures r.Ok? ==> var b := r.value;
      && b.image == image && b.oldLayout == oldLayout && b.newLayout == newLayout
      && b.baseMipLevel == 0 && b.levelCount == 1 && b.baseArrayLayer == 0 && b.layerCount == 1
      // the depth aspect exactly for a depth target, with stencil exactly when the format has one
      && (b.aspectMask & ASPECT_DEPTH != 0 <==> newLayout == DepthStencilAttachmentOptimal)
      && (b.aspectMask & ASPECT_STENCIL != 0 <==> newLayout == DepthStencilAttachmentOptimal && HasStencilComponent(format))
      && (b.aspectMask & ASPECT_COLOR != 0 <==> newLayout != DepthStencilAttachmentOptimal)
      // nothing is waited for when the old contents are undefined
      && (b.srcAccessMask == 0 <==> oldLayout == LayoutUndefined)
      && (b.srcStage == STAGE_TOP_OF_PIPE <==> oldLayout == LayoutUndefined)
    ensures r.Ok? && oldLayout == LayoutUndefined && newLayout == TransferDstOptimal ==>
      r.value.dstAccessMask == ACCESS_TRANSFER_WRITE && r.value.dstStage == STAGE_TRANSFER
    ensures r.Ok? && oldLayout == TransferDstOptimal ==>
      && r.value.srcAccessMask == ACCESS_TRANSFER_WRITE && r.value.dstAccessMask == ACCESS_SHADER_READ
      && r.value.srcStage == STAGE_TRANSFER && r.value.dstStage == STAGE_FRAGMENT_SHADER
    ensures r.Ok? && newLayout == DepthStencilAttachmentOptimal ==>
      && r.value.dstAccessMask == ACCESS_DEPTH_STENCIL_ATTACHMENT_READ | ACCESS_DEPTH_STENCIL_ATTACHMENT_WRITE
      && r.value.dstStage == STAGE_EARLY_FRAGMENT_TESTS
  {
    var aspect :=
      if newLayout == DepthStencilAttachmentOptimal then
        if HasStencilComponent(format) then ASPECT_DEPTH | ASPECT_STENCIL else ASPECT_DEPTH
      else ASPECT_COLOR;
    var barrier := ImageBarrier(image, oldLayout, newLayout, aspect, 0, 1, 0, 1, 0, 0, 0, 0);
    if oldLayout == LayoutUndefined && newLayout == TransferDstOptimal then
      Ok(barrier.(dstAccessMask := ACCESS_TRANSFER_WRITE,
                  srcStage := STAGE_TOP_OF_PIPE, dstStage := STAGE_TRANSFER))
    else if oldLayout == TransferDstOptimal && newLayout == ShaderReadOnlyOptimal then
      Ok(barrier.(srcAccessMask := ACCESS_TRANSFER_WRITE, dstAccessMask := ACCESS_SHADER_READ,
                  srcStage := STAGE_TRANSFER, dstStage := STAGE_FRAGMENT_SHADER))
    else if oldLayout == LayoutUndefined && newLayout == DepthStencilAttachmentOptimal then
      Ok(barrier.(dstAccessMask := ACCESS_DEPTH_STENCIL_ATTACHMENT_READ | ACCESS_DEPTH_STENCIL_ATTACHMENT_WRITE,
                  srcStage := STAGE_TOP_OF_PIPE, dstStage := STAGE_EARLY_FRAGMENT_TESTS))
    else
      Fail(UnsupportedLayoutTransition)
  }

  // ---------------------------------------------------------------------------
  // Sharing mode of buffers and swapchain images

  datatype SharingInfo = SharingInfo(concurrent: bool, queueFamilyIndices: seq<nat>)

  /**
   * Both families are read with `.value()` before they are compared, so a
   * missing one throws bad_optional_access whatever the other is.
   */
  function ChooseSharing(first: Option<nat>, second: Option<nat>): (r: Result<SharingInfo, Error>)
    ensures r.Fail? <==> first.None? || second.None?
    ensures r.Fail? ==> r.error == BadOptionalAccess
    ensures r.Ok? ==> (r.value.concurrent <==> first.value != second.value)
    ensures r.Ok? && r.value.concurrent ==> r.value.queueFamilyIndices == [first.value, second.value]
    ensures r.Ok? && !r.value.concurrent ==> r.value.queueFamilyIndices == []
  {
    if first.None? || second.None? then Fail(BadOptionalAccess)
    else if first != second then Ok(SharingInfo(true, [first.value, second.value]))
    else Ok(SharingInfo(false, []))
  }

  /** CreateBuffer shares between the graphics and the transfer family. */
  function BufferSharing(indices: QueueFamilyIndices): (r: Result<SharingInfo, Error>)
    ensures r.Ok? <==> indices.graphics.Some? && indices.transfer.Some?
    ensures r.Ok? ==> (r.value.concurrent <==> indices.graphics != indices.transfer)
    ensures r.Ok? ==> |r.value.queueFamilyIndices| == if r.value.concurrent then 2 else 0
  {
    ChooseSharing(indices.graphics, indices.transfer)
  }

  // ---------------------------------------------------------------------------
  // Creation loops

  /** The create-info of one framebuffer together with the handle it got. */
  datatype Framebuffer = Framebuffer(
    handle: Handle,
    renderPass: Handle,
    attachments: seq<Handle>,
    width: nat,
    height: nat,
    layers: nat)

  /** Index of the first failing creation call among the first `count`, if any. */
  predicate AllCreated(driver: seq<Created>, count: nat)
    requires count <= |driver|
  {
    forall i :: 0 <= i < count ==> driver[i].result == Success
  }

  /**
   * Framebuffer `i` gets colour view `i`, followed by the one shared depth
   * view when there is one.  `driver[i]` is what the i-th vkCreateFramebuffer
   * call reports.
   */
  method CreateFramebuffers(renderPass: Handle, extent: Extent, colorViews: seq<Handle>, depthView: Option<Handle>,
                            count: nat, driver: seq<Created>)
    returns (r: Result<seq<Framebuffer>, Error>)
    requires count <= |colorViews| && count <= |driver|
    ensures r.Fail? <==> !AllCreated(driver, count)
    ensures r.Fail? ==> r.error == FramebufferCreateFailed
    ensures r.Ok? ==> |r.value| == count
    ensures r.Ok? ==> forall i :: 0 <= i < count ==>
      var fb := r.value[i];
      && fb.handle == driver[i].handle && fb.renderPass == renderPass
      && |fb.attachments| == (if depthView.Some? then 2 else 1)
      && fb.attachments[0] == colorViews[i]
      && (depthView.Some? ==> fb.attachments[1] == depthView.value)
      && fb.width == extent.width && fb.height == extent.height && fb.layers == 1
  {
    var attachments: seq<Handle> := [NULL_HANDLE];
    if depthView.Some? {
      attachments := attachments + [NULL_HANDLE];
    }
    var framebuffers: seq<Framebuffer> := [];
    var i := 0;
    while i < count
      invariant i <= count && |framebuffers| == i
      invariant |attachments| == (if depthView.Some? then 2 else 1)
      invariant forall j :: 0 <= j < i ==> driver[j].result == Success
      invariant forall j :: 0 <= j < i ==>
        var fb := framebuffers[j];
        && fb.handle == driver[j].handle && fb.renderPass == renderPass
        && |fb.attachments| == (if depthView.Some? then 2 else 1)
        && fb.attachments[0] == colorViews[j]
        && (depthView.Some? ==> fb.attachments[1] == depthView.value)
        && fb.width == extent.width && fb.height == extent.height && fb.layers == 1
    {
      attachments := attachments[0 := colorViews[i]];
      if depthView.Some? {
        attachments := attachments[1 := depthView.value];
      }
      if driver[i].result != Success {
        return Fail(FramebufferCreateFailed);
      }
      framebuffers := framebuffers + [Framebuffer(driver[i].handle, renderPass, attachments, extent.width, extent.height, 1)];
      i := i + 1;
    }
    return Ok(framebuffers);
  }

  datatype CommandPoolCreateInfo = CommandPoolCreateInfo(flags: bv32, queueFamilyIndex: nat)

  /**
   * A command pool for the given queue family whose buffers can be reset
   * one by one; a driver failure raises `Error`.
   */
  method CreateCommandPool(queueFamilyIndex: nat, created: Created)
    returns (r: Result<Handle, Error>, info: CommandPoolCreateInfo)
    ensures info.queueFamilyIndex == queueFamilyIndex
    ensures info.flags & COMMAND_POOL_CREATE_RESET_COMMAND_BUFFER != 0
    ensures r.Ok? <==> created.result == Success
    ensures r.Ok? ==> r.value == created.handle
    ensures r.Fail? ==> r.error == CommandPoolCreateFailed
  {
    info := CommandPoolCreateInfo(COMMAND_POOL_CREATE_RESET_COMMAND_BUFFER, queueFamilyIndex);
    if created.result != Success {
      return Fail(CommandPoolCreateFailed), info;
    }
    r := Ok(created.handle);
  }

  datatype Fence = Fence(handle: Handle, signaled: bool)

  /** Creates `count` fences, each created in the signalled state. */
  method CreateFences(count: nat, driver: seq<Created>) returns (r: Result<seq<Fence>, Error>)
    requires count <= |driver|
    ensures r.Fail? <==> !AllCreated(driver, count)
    ensures r.Fail? ==> r.error == FenceCreateFailed
    ensures r.Ok? ==> |r.value| == count
    ensures r.Ok? ==> forall i :: 0 <= i < count ==> r.value[i] == Fence(driver[i].handle, true)
  {
    var fences: seq<Fence> := [];
    var i := 0;
    while i < count
      invariant i <= count && |fences| == i
      invariant forall j :: 0 <= j < i ==> driver[j].result == Success && fences[j] == Fence(driver[j].handle, true)
    {
      var flags := FENCE_CREATE_SIGNALED;
      if driver[i].result != Success {
        return Fail(FenceCreateFailed);
      }
      fences := fences + [Fence(driver[i].handle, flags & FENCE_CREATE_SIGNALED != 0)];
      i := i + 1;
    }
    return Ok(fences);
  }

  /** Creates `count` semaphores. */
  method CreateSemaphores(count: nat, driver: seq<Created>) returns (r: Result<seq<Handle>, Error>)
    requires count <= |driver|
    ensures r.Fail? <==> !AllCreated(driver, count)
    ensures r.Fail? ==> r.error == SemaphoreCreateFailed
    ensures r.Ok? ==> |r.value| == count
    ensures r.Ok? ==> forall i :: 0 <= i < count ==> r.value[i] == driver[i].handle
  {
    var semaphores: seq<Handle> := [];
    var i := 0;
    while i < count
      invariant i <= count && |semaphores| == i
      invariant forall j :: 0 <= j < i ==> driver[j].result == Success && semaphores[j] == driver[j].handle
    {
      if driver[i].result != Success {
        return Fail(SemaphoreCreateFailed);
      }
      semaphores := semaphores + [driver[i].handle];
      i := i + 1;
    }
    return Ok(semaphores);
  }

  // ---------------------------------------------------------------------------
  // Surface support query

  /**
   * The capabilities are always overwritten; each list is replaced by what
   * the driver reports only when the driver reports at least one entry,
   * otherwise the caller's list is left as it was.
   */
  function GetSwapChainSupportDetails(details: SwapchainSupport, capabilities: SurfaceCapabilities,
                                      reportedFormats: seq<SurfaceFormat>, reportedModes: seq<PresentMode>)
    : (r: SwapchainSupport)
    ensures r.capabilities == capabilities
    ensures r.formats == (if |reportedFormats| > 0 then reportedFormats else details.formats)
    ensures r.presentModes == (if |reportedModes| > 0 then reportedModes else details.presentModes)
  {
    var d := details.(capabilities := capabilities);
    var d := if |reportedFormats| > 0 then d.(formats := reportedFormats) else d;
    if |reportedModes| > 0 then d.(presentModes := reportedModes) else d
  }

  /** Every caller passes a value-initialised struct, so the lists are exactly the reported ones. */
  lemma SupportDetailsFromEmpty(capabilities: SurfaceCapabilities, oldCaps: SurfaceCapabilities,
                                reportedFormats: seq<SurfaceFormat>, reportedModes: seq<PresentMode>)
    ensures GetSwapChainSupportDetails(SwapchainSupport(oldCaps, [], []), capabilities, reportedFormats, reportedModes)
      == SwapchainSupport(capabilities, reportedFormats, reportedModes)
  {
  }

  // ---------------------------------------------------------------------------
  // Debug messenger

  datatype LogLevel = Ignored | InfoLog | WarningLog

  /** The severities the engine's messenger forwards; INFO and VERBOSE only in verbose builds. */
  function MessengerSeverity(verboseLogging: bool): bv32
  {
    if verboseLogging then SEVERITY_WARNING | SEVERITY_INFO | SEVERITY_VERBOSE | SEVERITY_ERROR
    else SEVERITY_WARNING | SEVERITY_ERROR
  }

  /**
   * The callback of VulkanCore.cpp.  An error message throws; otherwise the
   * callback logs at the given level and returns VK_FALSE, which is why the
   * `Ok` value carries no return code.
   */
  function DebugCallback(verboseLogging: bool, severity: bv32): (r: Result<LogLevel, Error>)
    ensures r.Fail? <==> severity & SEVERITY_ERROR != 0
    ensures r.Fail? ==> r.error == ValidationMessage
    ensures r == Ok(WarningLog) <==> severity & SEVERITY_ERROR == 0 && severity & SEVERITY_WARNING != 0
    ensures r == Ok(InfoLog) <==>
      verboseLogging && severity & (SEVERITY_ERROR | SEVERITY_WARNING) == 0
      && severity & (SEVERITY_INFO | SEVERITY_VERBOSE) != 0
  {
    var mask := MessengerSeverity(verboseLogging);
    if mask & severity & SEVERITY_ERROR != 0 then Fail(ValidationMessage)
    else if mask & severity & SEVERITY_WARNING != 0 then Ok(WarningLog)
    else if mask & severity & (SEVERITY_INFO | SEVERITY_VERBOSE) != 0 then Ok(InfoLog)
    else Ok(Ignored)
  }

  /** The callback of VulkanUtils.cpp: a switch on the exact severity value. */
  function DebugCallbackSwitch(severity: bv32): (r: Result<LogLevel, Error>)
    ensures r.Fail? <==> severity == SEVERITY_ERROR
    ensures r == Ok(WarningLog) <==> severity == SEVERITY_WARNING
    ensures r.Ok? ==> r.value != InfoLog
  {
    if severity == SEVERITY_WARNING then Ok(WarningLog)
    else if severity == SEVERITY_ERROR then Fail(ValidationMessage)
    else Ok(Ignored)
  }

  /**
   * On the single-bit severities the driver passes, the two callbacks agree
   * on errors and warnings; they differ only in that the first one logs
   * INFO and VERBOSE messages in verbose builds.
   */
  lemma DebugCallbacksAgree(verboseLogging: bool, severity: bv32)
    requires severity in {SEVERITY_VERBOSE, SEVERITY_INFO, SEVERITY_WARNING, SEVERITY_ERROR}
    ensures DebugCallback(verboseLogging, severity).Fail? == DebugCallbackSwitch(severity).Fail?
    ensures DebugCallback(verboseLogging, severity) != DebugCallbackSwitch(severity)
        <==> verboseLogging && severity in {SEVERITY_VERBOSE, SEVERITY_INFO}
  {
  }

  datatype DebugMessengerCreateInfo = DebugMessengerCreateInfo(
    messageSeverity: bv32,
    messageType: bv32,
    callbackSet: bool,
    userData: Handle)

  /**
   * The struct is value-initialised first, so nothing of `previous`
   * survives: VERBOSE, WARNING and ERROR severities (not INFO), all three
   * message types, the engine's callback and no user data.
   */
  function PopulateDebugMessengerCreateInfo(previous: DebugMessengerCreateInfo): (info: DebugMessengerCreateInfo)
    ensures info.messageSeverity & SEVERITY_VERBOSE != 0 && info.messageSeverity & SEVERITY_WARNING != 0
    ensures info.messageSeverity & SEVERITY_ERROR != 0 && info.messageSeverity & SEVERITY_INFO == 0
    ensures info.messageType == MESSAGE_TYPE_GENERAL | MESSAGE_TYPE_VALIDATION | MESSAGE_TYPE_PERFORMANCE
    ensures info.callbackSet && info.userData == NULL_HANDLE
  {
    var cleared := DebugMessengerCreateInfo(0, 0, false, NULL_HANDLE);
    cleared.(messageSeverity := SEVERITY_VERBOSE | SEVERITY_WARNING | SEVERITY_ERROR,
             messageType := MESSAGE_TYPE_GENERAL | MESSAGE_TYPE_VALIDATION | MESSAGE_TYPE_PERFORMANCE,
             callbackSet := true)
  }
}
