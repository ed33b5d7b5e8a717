// The swapchain: the choice of surface format, present mode, extent and image
// count; the classification of acquire/present result codes into "rebuild
// needed" (true), "carry on" (false) or an error; building a chain with one
// view per image; and the per-image acquire counters of the statistics build.
module Swapchain {

  import opened Wrappers
  import opened VkTypes
  import VulkanCore

  const PreferredSurfaceFormat := SurfaceFormat(R8G8B8A8Srgb, SrgbNonlinear)

  // ---------------------------------------------------------------------------
  // Result classification

  /** Acquire: OUT_OF_DATE asks for a rebuild, SUCCESS and SUBOPTIMAL carry on. */
  function ClassifyAcquire(result: VkResult): (r: Result<bool, Error>)
    ensures r == Ok(true) <==> result == OutOfDate
    ensures r == Ok(false) <==> result == Success || result == Suboptimal
    ensures r.Fail? ==> r.error == AcquireFailed
  {
    if result == OutOfDate then Ok(true)
    else if result != Success && result != Suboptimal then Fail(AcquireFailed)
    else Ok(false)
  }

  /** Present: OUT_OF_DATE and SUBOPTIMAL ask for a rebuild, SUCCESS carries on. */
  function ClassifyPresent(result: VkResult): (r: Result<bool, Error>)
    ensures r == Ok(true) <==> result == OutOfDate || result == Suboptimal
    ensures r == Ok(false) <==> result == Success
    ensures r.Fail? ==> r.error == PresentFailed
  {
    if result == OutOfDate || result == Suboptimal then Ok(true)
    else if result != Success then Fail(PresentFailed)
    else Ok(false)
  }

  /**
   * The two classifications differ on SUBOPTIMAL alone: acquiring a
   * suboptimal image carries on, presenting one asks for a rebuild.
   */
  lemma SuboptimalAsymmetry(result: VkResult)
    ensures ClassifyAcquire(result).Fail? == ClassifyPresent(result).Fail?
    ensures ClassifyAcquire(result).Ok? && ClassifyAcquire(result) != ClassifyPresent(result) <==> result == Suboptimal
  {
  }

  // ---------------------------------------------------------------------------
  // Choices made from the surface support details

  /** The first SRGB R8G8B8A8 / sRGB-nonlinear entry, else the first entry. */
  method ChooseSwapChainSurfaceFormat(formats: seq<SurfaceFormat>) returns (f: SurfaceFormat)
    requires |formats| > 0
    ensures f in formats
    ensures f == PreferredSurfaceFormat <==> PreferredSurfaceFormat in formats
    ensures PreferredSurfaceFormat !in formats ==> f == formats[0]
  {
    var i := 0;
    while i < |formats|
      invariant i <= |formats|
      invariant PreferredSurfaceFormat !in formats[..i]
    {
      var format := formats[i];
      if format.format == R8G8B8A8Srgb && format.colorSpace == SrgbNonlinear {
        return format;
      }
      i := i + 1;
    }
    assert formats[..i] == formats;
    return formats[0];
  }

  /** MAILBOX when listed, otherwise FIFO (which every surface supports). */
  method ChooseSwapChainPresentMode(presentModes: seq<PresentMode>) returns (m: PresentMode)
    ensures m == Mailbox <==> Mailbox in presentModes
    ensures m != Mailbox ==> m == Fifo
  {
    var i := 0;
    while i < |presentModes|
      invariant i <= |presentModes|
      invariant Mailbox !in presentModes[..i]
    {
      var presentMode := presentModes[i];
      if presentMode == Mailbox {
        return presentMode;
      }
      i := i + 1;
    }
    assert presentModes[..i] == presentModes;
    return Fifo;
  }

  /** `static_cast<uint32_t>` of a C++ int. */
  function ToU32(x: int): (r: nat)
    ensures r <= U32_MAX
    ensures 0 <= x <= U32_MAX ==> r == x
    ensures -(U32_MAX + 1) <= x < 0 ==> r == x + U32_MAX + 1
  {
    x % (U32_MAX + 1)
  }

  /** std::clamp. */
  function Clamp(v: nat, lo: nat, hi: nat): (r: nat)
    requires lo <= hi
    ensures lo <= r <= hi
    ensures lo <= v <= hi ==> r == v
    ensures v < lo ==> r == lo
    ensures hi < v ==> r == hi
  {
    if v < lo then lo else if hi < v then hi else v
  }

  /**
   * The surface's current extent unless its width is the UINT32_MAX marker;
   * then the window's framebuffer size, clamped into the allowed range.
   * std::clamp needs lower bound <= upper bound, which the driver
   * guarantees for the reported extents.
   */
  function ChooseSwapChainExtent(capabilities: SurfaceCapabilities, framebufferWidth: int, framebufferHeight: int)
    : (e: Extent)
    requires capabilities.currentExtent.width == U32_MAX ==>
      && capabilities.minImageExtent.width <= capabilities.maxImageExtent.width
      && capabilities.minImageExtent.height <= capabilities.maxImageExtent.height
    ensures capabilities.currentExtent.width != U32_MAX ==> e == capabilities.currentExtent
    ensures capabilities.currentExtent.width == U32_MAX ==>
      && capabilities.minImageExtent.width <= e.width <= capabilities.maxImageExtent.width
      && capabilities.minImageExtent.height <= e.height <= capabilities.maxImageExtent.height
    ensures capabilities.currentExtent.width == U32_MAX ==>
      var w := ToU32(framebufferWidth);
      var lo := capabilities.minImageExtent.width;
      var hi := capabilities.maxImageExtent.width;
      && (w < lo ==> e.width == lo)
      && (hi < w ==> e.width == hi)
      && (lo <= w <= hi ==> e.width == w)
    ensures capabilities.currentExtent.width == U32_MAX ==>
      var h := ToU32(framebufferHeight);
      var lo := capabilities.minImageExtent.height;
      var hi := capabilities.maxImageExtent.height;
      && (h < lo ==> e.height == lo)
      && (hi < h ==> e.height == hi)
      && (lo <= h <= hi ==> e.height == h)
  {
    if capabilities.currentExtent.width != U32_MAX then capabilities.currentExtent
    else
      var actual := Extent(ToU32(framebufferWidth), ToU32(framebufferHeight));
      Extent(Clamp(actual.width, capabilities.minImageExtent.width, capabilities.maxImageExtent.width),
             Clamp(actual.height, capabilities.minImageExtent.height, capabilities.maxImageExtent.height))
  }

  // ---------------------------------------------------------------------------
  // Image count

  /**
   * The rule as the builder writes it: one more than the minimum, replaced
   * by the maximum when the minimum is positive and the maximum is larger.
   * It only ever raises the count, and it never brings it down to the
   * maximum.
   */
  function ImageCountAsWritten(capabilities: SurfaceCapabilities): (n: nat)
    ensures n >= capabilities.minImageCount + 1
    ensures n == capabilities.minImageCount + 1 || n == capabilities.maxImageCount
  {
    var imageCount := capabilities.minImageCount + 1;
    if capabilities.minImageCount > 0 && imageCount < capabilities.maxImageCount then capabilities.maxImageCount
    else imageCount
  }

  /**
   * With minimum = maximum = 2 the rule asks for 3 images, more than the
   * surface allows; with minimum 2 and maximum 8 it asks for all 8.
   */
  lemma ImageCountAsWrittenExceedsMaximum()
    ensures var caps := SurfaceCapabilities(2, 2, Extent(0, 0), Extent(0, 0), Extent(0, 0));
      ImageCountAsWritten(caps) == 3 > caps.maxImageCount
    ensures var caps := SurfaceCapabilities(2, 8, Extent(0, 0), Extent(0, 0), Extent(0, 0));
      ImageCountAsWritten(caps) == 8
  {
  }

  /**
   * The evidently intended rule: one more than the minimum, capped by the
   * maximum when there is one (a maximum of 0 means no limit).
   */
  function RequestedImageCount(capabilities: SurfaceCapabilities): (n: nat)
    ensures capabilities.maxImageCount > 0 ==> n <= capabilities.maxImageCount
    ensures n <= capabilities.minImageCount + 1
    ensures capabilities.maxImageCount == 0 || capabilities.minImageCount + 1 <= capabilities.maxImageCount
      ==> n == capabilities.minImageCount + 1
    ensures capabilities.maxImageCount == 0 || capabilities.minImageCount <= capabilities.maxImageCount
      ==> capabilities.minImageCount <= n
  {
    if capabilities.maxImageCount > 0 && capabilities.minImageCount + 1 > capabilities.maxImageCount
    then capabilities.maxImageCount
    else capabilities.minImageCount + 1
  }

  /** The two rules agree exactly when the written one stays at minimum + 1 within the limit. */
  lemma ImageCountRulesAgree(capabilities: SurfaceCapabilities)
    ensures ImageCountAsWritten(capabilities) == RequestedImageCount(capabilities)
        <==> (capabilities.maxImageCount == 0 || capabilities.minImageCount + 1 <= capabilities.maxImageCount)
             && !(capabilities.minImageCount > 0 && capabilities.minImageCount + 1 < capabilities.maxImageCount)
  {
  }

  // ---------------------------------------------------------------------------
  // The swapchain object

  datatype SwapchainCreateInfo = SwapchainCreateInfo(
    minImageCount: nat,
    imageFormat: Format,
    imageColorSpace: ColorSpace,
    imageExtent: Extent,
    imageArrayLayers: nat,
    sharing: VulkanCore.SharingInfo,
    presentMode: PresentMode,
    clipped: bool,
    oldSwapchain: Handle)

  datatype ImageViewCreateInfo = ImageViewCreateInfo(image: Handle, format: Format, aspectMask: bv32)

  datatype PresentInfo = PresentInfo(waitSemaphores: seq<Handle>, swapchains: seq<Handle>, imageIndices: seq<nat>)

  /** The global per-image acquire counters of the statistics build. */
  class ImageStatistics {
    var occurrences: seq<int>

    constructor ()
      ensures occurrences == []
    {
      occurrences := [];
    }

    /** Build clears the counters and resizes them: `imageCount` zeros. */
    method Reset(imageCount: nat)
      modifies this
      ensures |occurrences| == imageCount
      ensures forall i :: 0 <= i < imageCount ==> occurrences[i] == 0
    {
      occurrences := [];
      occurrences := seq(imageCount, _ => 0);
    }
  }

  /** Sum of the counters: the number of acquires since the last build. */
  function Total(counts: seq<int>): int
  {
    if counts == [] then 0 else Total(counts[..|counts| - 1]) + counts[|counts| - 1]
  }

  /** Incrementing one counter raises the total by exactly one. */
  lemma {:induction false} TotalAfterIncrement(counts: seq<int>, i: nat)
    requires i < |counts|
    ensures Total(counts[i := counts[i] + 1]) == Total(counts) + 1
    decreases |counts|
  {
    var last := |counts| - 1;
    var bumped := counts[i := counts[i] + 1];
    assert bumped[..last] == if i < last then counts[..last][i := counts[i] + 1] else counts[..last];
    if i < last {
      TotalAfterIncrement(counts[..last], i);
    }
  }

  /** A freshly reset counter list totals zero. */
  lemma {:induction false} TotalOfZeros(counts: seq<int>)
    requires forall i :: 0 <= i < |counts| ==> counts[i] == 0
    ensures Total(counts) == 0
    decreases |counts|
  {
    if counts != [] {
      TotalOfZeros(counts[..|counts| - 1]);
    }
  }

  datatype ImageUsage = ImageUsage(image: nat, acquired: int, mostAcquired: int)

  class Swapchain {
    var handle: Handle
    var imageCount: nat
    var currentImage: nat
    var imageFormat: Format
    var extent: Extent
    var images: seq<Handle>
    var imageViews: seq<Handle>

    /** One view per image, at least one image, and the current image is one of them. */
    ghost predicate Valid()
      reads this
    {
      && |images| == imageCount
      && |imageViews| == imageCount
      && 0 < imageCount
      && currentImage < imageCount
    }

    /** A default-constructed swapchain. */
    constructor ()
      ensures handle == NULL_HANDLE && imageCount == 0 && currentImage == 0
      ensures images == [] && imageViews == []
    {
      handle := NULL_HANDLE;
      imageCount := 0;
      currentImage := 0;
      imageFormat := FormatUndefined;
      extent := Extent(0, 0);
      images := [];
      imageViews := [];
    }

    /**
     * `result` is what vkAcquireNextImageKHR returns and `written` the image
     * index it stores, if it stores one.
     */
    method AcquireNextImage(semaphore: Handle, result: VkResult, written: Option<nat>) returns (r: Result<bool, Error>)
      requires Valid()
      requires written.Some? ==> written.value < imageCount
      modifies this`currentImage
      ensures Valid()
      ensures currentImage == if written.Some? then written.value else old(currentImage)
      ensures r.Ok? <==> result in {Success, Suboptimal, OutOfDate}
      ensures r.Ok? ==> (r.value <==> result == OutOfDate)
      ensures r.Fail? ==> r.error == AcquireFailed
    {
      if written.Some? {
        currentImage := written.value;
      }
      if result == OutOfDate {
        return Ok(true);
      } else if result != Success && result != Suboptimal {
        return Fail(AcquireFailed);
      }
      return Ok(false);
    }

    /**
     * The statistics build: the counter of the acquired image goes up by
     * one before the result code is looked at, so also when the call
     * fails or asks for a rebuild.
     */
    method AcquireNextImageCounted(stats: ImageStatistics, semaphore: Handle, result: VkResult, written: Option<nat>)
      returns (r: Result<bool, Error>)
      requires Valid() && |stats.occurrences| == imageCount
      requires written.Some? ==> written.value < imageCount
      modifies this`currentImage, stats
      ensures Valid() && |stats.occurrences| == imageCount
      ensures currentImage == if written.Some? then written.value else old(currentImage)
      ensures stats.occurrences == old(stats.occurrences)[currentImage := old(stats.occurrences)[currentImage] + 1]
      ensures Total(stats.occurrences) == Total(old(stats.occurrences)) + 1
      ensures r == ClassifyAcquire(result)
    {
      if written.Some? {
        currentImage := written.value;
      }
      TotalAfterIncrement(stats.occurrences, currentImage);
      stats.occurrences := stats.occurrences[currentImage := stats.occurrences[currentImage] + 1];
      if result == OutOfDate {
        return Ok(true);
      } else if result != Success && result != Suboptimal {
        return Fail(AcquireFailed);
      }
      return Ok(false);
    }

    /**
     * Presents the current image after `semaphore`; `result` is what
     * vkQueuePresentKHR returns.
     */
    method PresentImage(semaphore: Handle, result: VkResult) returns (r: Result<bool, Error>, info: PresentInfo)
      ensures info == PresentInfo([semaphore], [handle], [currentImage])
      ensures r.Ok? <==> result in {Success, Suboptimal, OutOfDate}
      ensures r.Ok? ==> (r.value <==> result != Success)
      ensures r.Fail? ==> r.error == PresentFailed
    {
      info := PresentInfo([semaphore], [handle], [currentImage]);
      if result == OutOfDate || result == Suboptimal {
        return Ok(true), info;
      } else if result != Success {
        return Fail(PresentFailed), info;
      }
      return Ok(false), info;
    }

    /**
     * Reports how often each image was acquired.  std::max_element needs a
     * non-empty counter list; a largest count of 0 raises `Error`.
     */
    method LogStatistics(stats: ImageStatistics) returns (r: Result<seq<ImageUsage>, Error>)
      requires |stats.occurrences| > 0 && imageCount <= |stats.occurrences|
      ensures r.Fail? ==> r.error == NoImageWasUsed
      ensures r.Fail? <==>
        (forall i :: 0 <= i < |stats.occurrences| ==> stats.occurrences[i] <= 0)
        && (exists i :: 0 <= i < |stats.occurrences| && stats.occurrences[i] == 0)
      ensures r.Ok? ==> |r.value| == imageCount
      ensures r.Ok? ==> forall i :: 0 <= i < imageCount ==>
        && r.value[i].image == i && r.value[i].acquired == stats.occurrences[i]
        && r.value[i].mostAcquired in stats.occurrences
        && (forall j :: 0 <= j < |stats.occurrences| ==> stats.occurrences[j] <= r.value[i].mostAcquired)
    {
      var counts := stats.occurrences;
      var most := counts[0];
      var k := 1;
      while k < |counts|
        invariant 1 <= k <= |counts|
        invariant most in counts[..k]
        invariant forall j :: 0 <= j < k ==> counts[j] <= most
      {
        if counts[k] > most {
          most := counts[k];
        }
        k := k + 1;
      }
      assert counts[..k] == counts;
      if most == 0 {
        return Fail(NoImageWasUsed);
      }
      var usage: seq<ImageUsage> := [];
      var i := 0;
      while i < imageCount
        invariant i <= imageCount && |usage| == i
        invariant forall j :: 0 <= j < i ==> usage[j] == ImageUsage(j, counts[j], most)
      {
        usage := usage + [ImageUsage(i, counts[i], most)];
        i := i + 1;
      }
      return Ok(usage);
    }

    /**
     * One view per image, of the chain's format and the colour aspect.
     * `driver[i]` is what the i-th vkCreateImageView call reports; the
     * first failure raises `Error` and leaves the remaining views null.
     */
    method CreateImageViews(driver: seq<Created>) returns (r: Result<seq<ImageViewCreateInfo>, Error>)
      requires |images| <= |driver|
      modifies this`imageViews
      ensures |imageViews| == |images|
      ensures r.Fail? <==> exists i :: 0 <= i < |images| && driver[i].result != Success
      ensures r.Fail? ==> r.error == ImageViewCreateFailed
      ensures r.Ok? ==> forall i :: 0 <= i < |images| ==> imageViews[i] == driver[i].handle
      ensures r.Ok? ==> |r.value| == |images| && forall i :: 0 <= i < |images| ==>
        r.value[i] == ImageViewCreateInfo(images[i], imageFormat, VulkanCore.ASPECT_COLOR)
    {
      imageViews := seq(|images|, _ => NULL_HANDLE);
      var infos: seq<ImageViewCreateInfo> := [];
      var i := 0;
      while i < |images|
        invariant i <= |images| && |imageViews| == |images| && |infos| == i
        invariant forall j :: 0 <= j < i ==> driver[j].result == Success && imageViews[j] == driver[j].handle
        invariant forall j :: 0 <= j < i ==> infos[j] == ImageViewCreateInfo(images[j], imageFormat, VulkanCore.ASPECT_COLOR)
      {
        var info := ImageViewCreateInfo(images[i], imageFormat, VulkanCore.ASPECT_COLOR);
        if driver[i].result != Success {
          return Fail(ImageViewCreateFailed);
        }
        imageViews := imageViews[i := driver[i].handle];
        infos := infos + [info];
        i := i + 1;
      }
      return Ok(infos);
    }
  }

  // ---------------------------------------------------------------------------
  // Building a chain

  /** The conditions under which Build does not raise `Error`. */
  predicate BuildSucceeds(indices: QueueFamilyIndices, created: Created, driverImages: seq<Handle>, viewDriver: seq<Created>)
    requires |driverImages| <= |viewDriver|
  {
    && indices.graphics.Some? && indices.presentation.Some?
    && created.result == Success
    && forall i :: 0 <= i < |driverImages| ==> viewDriver[i].result == Success
  }

  /**
   * Builds a new chain, destroying every view of `oldChain` and then the old
   * chain itself first.  `support` is what the driver reports for the
   * surface (at least one format: the device was chosen for it);
   * `indices` the queue families found for the device; `created` the
   * outcome of vkCreateSwapchainKHR; `driverImages` the images the driver
   * made for the chain (at least one); `viewDriver` the outcomes of the
   * vkCreateImageView calls.
   */
  method Build(oldChain: Swapchain?, support: SwapchainSupport, framebufferWidth: int, framebufferHeight: int,
               indices: QueueFamilyIndices, created: Created, driverImages: seq<Handle>, viewDriver: seq<Created>)
    returns (r: Result<Swapchain, Error>, info: SwapchainCreateInfo, ghost destroyed: seq<Handle>)
    requires |support.formats| > 0
    requires support.capabilities.currentExtent.width == U32_MAX ==>
      && support.capabilities.minImageExtent.width <= support.capabilities.maxImageExtent.width
      && support.capabilities.minImageExtent.height <= support.capabilities.maxImageExtent.height
    requires 0 < |driverImages| <= |viewDriver|
    ensures destroyed == if oldChain == null then [] else oldChain.imageViews + [oldChain.handle]
    ensures r.Ok? <==> BuildSucceeds(indices, created, driverImages, viewDriver)
    ensures r.Fail? && (indices.graphics.None? || indices.presentation.None?) ==> r.error == BadOptionalAccess
    ensures r.Ok? ==> fresh(r.value) && r.value.Valid()
    ensures r.Ok? ==>
      var sc := r.value;
      && sc.handle == created.handle && sc.currentImage == 0
      && sc.images == driverImages && sc.imageCount == |driverImages|
      && (forall i :: 0 <= i < |driverImages| ==> sc.imageViews[i] == viewDriver[i].handle)
      && sc.imageFormat == info.imageFormat && sc.extent == info.imageExtent
    ensures r.Ok? ==>
      && info.minImageCount == RequestedImageCount(support.capabilities)
      && SurfaceFormat(info.imageFormat, info.imageColorSpace) in support.formats
      && (PreferredSurfaceFormat in support.formats ==>
            SurfaceFormat(info.imageFormat, info.imageColorSpace) == PreferredSurfaceFormat)
      && (PreferredSurfaceFormat !in support.formats ==>
            SurfaceFormat(info.imageFormat, info.imageColorSpace) == support.formats[0])
      && (info.presentMode == Mailbox <==> Mailbox in support.presentModes)
      && (info.presentMode != Mailbox ==> info.presentMode == Fifo)
      && info.imageExtent == ChooseSwapChainExtent(support.capabilities, framebufferWidth, framebufferHeight)
      && info.imageArrayLayers == 1 && info.clipped && info.oldSwapchain == NULL_HANDLE
      && Ok(info.sharing) == VulkanCore.ChooseSharing(indices.graphics, indices.presentation)
  {
    // Cleanup old swapchain
    destroyed := [];
    if oldChain != null {
      destroyed := DestroyChain(oldChain);
    }

    var surfaceFormat := ChooseSwapChainSurfaceFormat(support.formats);
    var presentMode := ChooseSwapChainPresentMode(support.presentModes);
    var extent := ChooseSwapChainExtent(support.capabilities, framebufferWidth, framebufferHeight);
    var imageCount := RequestedImageCount(support.capabilities);

    var sharing := VulkanCore.ChooseSharing(indices.graphics, indices.presentation);
    info := SwapchainCreateInfo(imageCount, surfaceFormat.format, surfaceFormat.colorSpace, extent, 1,
                                VulkanCore.SharingInfo(false, []), presentMode, true, NULL_HANDLE);
    if sharing.Fail? {
      return Fail(sharing.error), info, destroyed;
    }
    info := info.(sharing := sharing.value);

    if created.result != Success {
      return Fail(SwapchainCreateFailed), info, destroyed;
    }
    r := NewChain(created.handle, driverImages, surfaceFormat.format, extent, viewDriver);
  }

  /** The views of a chain are destroyed in order, then the chain itself. */
  method DestroyChain(chain: Swapchain) returns (ghost destroyed: seq<Handle>)
    ensures destroyed == chain.imageViews + [chain.handle]
  {
    destroyed := [];
    var i := 0;
    while i < |chain.imageViews|
      invariant i <= |chain.imageViews|
      invariant destroyed == chain.imageViews[..i]
    {
      destroyed := destroyed + [chain.imageViews[i]];
      i := i + 1;
    }
    destroyed := destroyed + [chain.handle];
  }

  /**
   * The part of Build after vkCreateSwapchainKHR succeeded: the chain takes
   * the handle, the driver's images, the format and extent, and gets one
   * view per image.
   */
  method NewChain(handle: Handle, driverImages: seq<Handle>, imageFormat: Format, extent: Extent, viewDriver: seq<Created>)
    returns (r: Result<Swapchain, Error>)
    requires 0 < |driverImages| <= |viewDriver|
    ensures r.Ok? <==> forall i :: 0 <= i < |driverImages| ==> viewDriver[i].result == Success
    ensures r.Fail? ==> r.error == ImageViewCreateFailed
    ensures r.Ok? ==> fresh(r.value) && r.value.Valid()
    ensures r.Ok? ==>
      var sc := r.value;
      && sc.handle == handle && sc.currentImage == 0
      && sc.images == driverImages && sc.imageCount == |driverImages|
      && (forall i :: 0 <= i < |driverImages| ==> sc.imageViews[i] == viewDriver[i].handle)
      && sc.imageFormat == imageFormat && sc.extent == extent
  {
    var swapchain := new Swapchain();
    swapchain.handle := handle;
    swapchain.imageCount := 0;
    swapchain.currentImage := 0;
    swapchain.imageCount := |driverImages|;
    swapchain.images := driverImages;
    swapchain.imageFormat := imageFormat;
    swapchain.extent := extent;

    var views := swapchain.CreateImageViews(viewDriver);
    if views.Fail? {
      return Fail(views.error);
    }
    return Ok(swapchain);
  }

  /**
   * The statistics build: after a successful build the counters are
   * cleared and resized to one zero per image.
   */
  method BuildWithStatistics(stats: ImageStatistics, oldChain: Swapchain?, support: SwapchainSupport,
                             framebufferWidth: int, framebufferHeight: int, indices: QueueFamilyIndices,
                             created: Created, driverImages: seq<Handle>, viewDriver: seq<Created>)
    returns (r: Result<Swapchain, Error>, info: SwapchainCreateInfo)
    requires |support.formats| > 0
    requires support.capabilities.currentExtent.width == U32_MAX ==>
      && support.capabilities.minImageExtent.width <= support.capabilities.maxImageExtent.width
      && support.capabilities.minImageExtent.height <= support.capabilities.maxImageExtent.height
    requires 0 < |driverImages| <= |viewDriver|
    modifies stats
    ensures r.Ok? <==> BuildSucceeds(indices, created, driverImages, viewDriver)
    ensures r.Ok? ==> fresh(r.value) && r.value.Valid() && r.value.images == driverImages
    ensures r.Ok? ==> |stats.occurrences| == r.value.imageCount && Total(stats.occurrences) == 0
    ensures r.Ok? ==> forall i :: 0 <= i < r.value.imageCount ==> stats.occurrences[i] == 0
    ensures r.Fail? ==> stats.occurrences == old(stats.occurrences)
  {
    ghost var destroyed;
    r, info, destroyed := Build(oldChain, support, framebufferWidth, framebufferHeight, indices, created,
                                driverImages, viewDriver);
    if r.Ok? {
      stats.Reset(r.value.imageCount);
      TotalOfZeros(stats.occurrences);
    }
  }
}
