// Render pass construction: one colour attachment, plus a depth attachment
// and a second subpass dependency when the builder asked for a depth buffer.
module RenderPass {

  import opened Wrappers
  import opened VkTypes
  import VulkanCore

  /** VK_FORMAT_MAX_ENUM, the render-target format before one is set. */
  const FORMAT_MAX_ENUM := OtherFormat(0x7FFF_FFFF)
  /** VK_SUBPASS_EXTERNAL (~0U). */
  const SUBPASS_EXTERNAL: nat := 0xFFFF_FFFF

  const STAGE_BOTTOM_OF_PIPE: bv32 := 0x2000
  const ACCESS_COLOR_ATTACHMENT_READ: bv32 := 0x80
  const ACCESS_COLOR_ATTACHMENT_WRITE: bv32 := 0x100
  const ACCESS_MEMORY_READ: bv32 := 0x8000
  const DEPENDENCY_BY_REGION: bv32 := 1

  datatype LoadOp = LoadClear | LoadDontCare
  datatype StoreOp = StoreStore | StoreDontCare

  datatype AttachmentDescription = AttachmentDescription(
    format: Format,
    loadOp: LoadOp,
    storeOp: StoreOp,
    stencilLoadOp: LoadOp,
    stencilStoreOp: StoreOp,
    initialLayout: ImageLayout,
    finalLayout: ImageLayout)

  datatype AttachmentReference = AttachmentReference(attachment: nat, layout: ImageLayout)

  datatype SubpassDescription = SubpassDescription(
    colorAttachments: seq<AttachmentReference>,
    depthStencilAttachment: Option<AttachmentReference>)

  datatype SubpassDependency = SubpassDependency(
    srcSubpass: nat,
    dstSubpass: nat,
    srcStageMask: bv32,
    dstStageMask: bv32,
    srcAccessMask: bv32,
    dstAccessMask: bv32,
    dependencyFlags: bv32)

  datatype RenderPassCreateInfo = RenderPassCreateInfo(
    attachmentCount: nat,
    attachments: seq<AttachmentDescription>,
    subpasses: seq<SubpassDescription>,
    dependencyCount: nat,
    dependencies: seq<SubpassDependency>)

  /** External work finishes reading before the pass writes colour. */
  const IncomingDependency := SubpassDependency(
    SUBPASS_EXTERNAL, 0, STAGE_BOTTOM_OF_PIPE, VulkanCore.STAGE_COLOR_ATTACHMENT_OUTPUT,
    ACCESS_MEMORY_READ, ACCESS_COLOR_ATTACHMENT_READ | ACCESS_COLOR_ATTACHMENT_WRITE, DEPENDENCY_BY_REGION)

  /** The pass's colour writes finish before external reads. */
  const OutgoingDependency := SubpassDependency(
    0, SUBPASS_EXTERNAL, VulkanCore.STAGE_COLOR_ATTACHMENT_OUTPUT, STAGE_BOTTOM_OF_PIPE,
    ACCESS_COLOR_ATTACHMENT_READ | ACCESS_COLOR_ATTACHMENT_WRITE, ACCESS_MEMORY_READ, DEPENDENCY_BY_REGION)

  /**
   * The depth attachment: depth cleared on load and stored, stencil cleared
   * and not stored, from an undefined layout to depth/stencil-optimal.
   */
  function DepthAttachment(format: Format): AttachmentDescription
  {
    AttachmentDescription(format, LoadClear, StoreStore, LoadClear, StoreDontCare, LayoutUndefined,
                          DepthStencilAttachmentOptimal)
  }

  /**
   * `format` is the first depth candidate whose optimal tiling supports
   * depth/stencil attachments: the format FindDepthFormat picks.
   */
  ghost predicate FirstDepthFormat(format: Format, formatProperties: Format -> VulkanCore.FormatProperties)
  {
    exists k :: 0 <= k < 3 && VulkanCore.DepthCandidates[k] == format
      && formatProperties(format).optimalTilingFeatures & VulkanCore.FEATURE_DEPTH_STENCIL_ATTACHMENT != 0
      && forall j :: 0 <= j < k ==>
           formatProperties(VulkanCore.DepthCandidates[j]).optimalTilingFeatures & VulkanCore.FEATURE_DEPTH_STENCIL_ATTACHMENT == 0
  }

  /** At most one format is the first supported depth candidate, so the depth format is determined by the device. */
  lemma FirstDepthFormatUnique(f: Format, g: Format, formatProperties: Format -> VulkanCore.FormatProperties)
    requires FirstDepthFormat(f, formatProperties) && FirstDepthFormat(g, formatProperties)
    ensures f == g
  {
    var kf :| 0 <= kf < 3 && VulkanCore.DepthCandidates[kf] == f
      && formatProperties(f).optimalTilingFeatures & VulkanCore.FEATURE_DEPTH_STENCIL_ATTACHMENT != 0
      && forall j :: 0 <= j < kf ==>
           formatProperties(VulkanCore.DepthCandidates[j]).optimalTilingFeatures & VulkanCore.FEATURE_DEPTH_STENCIL_ATTACHMENT == 0;
    var kg :| 0 <= kg < 3 && VulkanCore.DepthCandidates[kg] == g
      && formatProperties(g).optimalTilingFeatures & VulkanCore.FEATURE_DEPTH_STENCIL_ATTACHMENT != 0
      && forall j :: 0 <= j < kg ==>
           formatProperties(VulkanCore.DepthCandidates[j]).optimalTilingFeatures & VulkanCore.FEATURE_DEPTH_STENCIL_ATTACHMENT == 0;
  }

  /** A create info is well formed when its counts are the lengths of the arrays they describe. */
  predicate CountsMatch(info: RenderPassCreateInfo)
  {
    info.attachmentCount == |info.attachments| && info.dependencyCount == |info.dependencies|
  }

  class RenderPassBuilder {
    var depthEnabled: bool
    var renderTargetFormat: Format
    var renderPassType: nat

    constructor ()
      ensures !depthEnabled && renderTargetFormat == FORMAT_MAX_ENUM && renderPassType == 0
    {
      depthEnabled := false;
      renderTargetFormat := FORMAT_MAX_ENUM;
      renderPassType := 0;
    }

    method SetRTFormat(format: Format)
      modifies this`renderTargetFormat
      ensures renderTargetFormat == format
    {
      renderTargetFormat := format;
    }

    method SetType(t: nat)
      modifies this`renderPassType
      ensures renderPassType == t
    {
      renderPassType := t;
    }

    method AddDepthBuffer()
      modifies this`depthEnabled
      ensures depthEnabled
    {
      depthEnabled := true;
    }

    /**
     * The colour attachment (cleared, stored, ending colour-optimal) is
     * attachment 0; with depth enabled the depth attachment, of the first
     * depth format the device supports, is attachment 1 and the subpass
     * references it.  The incoming dependency is always there; the outgoing
     * one only with depth.  A failed depth-format search or a failed
     * creation raises `Error`.
     */
    method Build(formatProperties: Format -> VulkanCore.FormatProperties, created: Created)
      returns (r: Result<Handle, Error>, info: Option<RenderPassCreateInfo>)
      ensures info.Some? ==> CountsMatch(info.value)
      ensures info.Some? ==>
        && |info.value.attachments| == (if depthEnabled then 2 else 1)
        && |info.value.dependencies| == (if depthEnabled then 2 else 1)
        && info.value.attachments[0] == AttachmentDescription(renderTargetFormat, LoadClear, StoreStore,
             LoadDontCare, StoreDontCare, LayoutUndefined, ColorAttachmentOptimal)
        && info.value.dependencies[0] == IncomingDependency
        && |info.value.subpasses| == 1
        && info.value.subpasses[0].colorAttachments == [AttachmentReference(0, ColorAttachmentOptimal)]
        && (info.value.subpasses[0].depthStencilAttachment.Some? <==> depthEnabled)
      ensures info.Some? && depthEnabled ==>
        && FirstDepthFormat(info.value.attachments[1].format, formatProperties)
        && info.value.attachments[1] == DepthAttachment(info.value.attachments[1].format)
        && info.value.subpasses[0].depthStencilAttachment == Some(AttachmentReference(1, DepthStencilAttachmentOptimal))
        && info.value.dependencies[1] == OutgoingDependency
      ensures info.None? <==>
        && depthEnabled
        && forall j :: 0 <= j < 3 ==>
             formatProperties(VulkanCore.DepthCandidates[j]).optimalTilingFeatures & VulkanCore.FEATURE_DEPTH_STENCIL_ATTACHMENT == 0
      ensures info.None? ==> r == Fail(NoSupportedFormat)
      ensures info.Some? ==> (r.Ok? <==> created.result == Success)
      ensures info.Some? && r.Fail? ==> r.error == RenderPassCreateFailed
      ensures r.Ok? ==> r.value == created.handle
    {
      var colorReference := AttachmentReference(0, ColorAttachmentOptimal);
      var depthReference: Option<AttachmentReference> := None;
      var attachments := [AttachmentDescription(renderTargetFormat, LoadClear, StoreStore,
                                                LoadDontCare, StoreDontCare, LayoutUndefined, ColorAttachmentOptimal)];
      if depthEnabled {
        var depthFormat := VulkanCore.FindDepthFormat(formatProperties);
        if depthFormat.Fail? {
          return Fail(depthFormat.error), None;
        }
        attachments := attachments + [DepthAttachment(depthFormat.value)];
        depthReference := Some(AttachmentReference(1, DepthStencilAttachmentOptimal));
      }

      var dependencies := [IncomingDependency];
      if depthEnabled {
        dependencies := dependencies + [OutgoingDependency];
      }

      var subpass := SubpassDescription([colorReference], depthReference);
      info := Some(RenderPassCreateInfo(|attachments|, attachments, [subpass], |dependencies|, dependencies));
      if created.result != Success {
        return Fail(RenderPassCreateFailed), info;
      }
      r := Ok(created.handle);
    }
  }
}
