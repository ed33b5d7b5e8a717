// The renderer: the frame loop over MAX_FRAMES_IN_FLIGHT frame slots, each
// with its own fence, semaphores and command buffer; a registry of named
// client render passes; and a FIFO queue of pass names that the frame's
// command buffer dispatches, bracketing each pass's delegate between the
// pass's Begin and End.  GPU calls are recorded in a ghost trace of events;
// what the driver returns is passed in.
module Renderer {

  import opened Wrappers
  import opened VkTypes
  import VulkanCore
  import Sw = Swapchain

  const MAX_FRAMES_IN_FLIGHT: nat := 2

  /** VkRect2D. */
  datatype Rect = Rect(x: int, y: int, width: nat, height: nat)

  const ZeroArea := Rect(0, 0, 0, 0)

  /** A client's delegate is identified by an opaque id; 0 is the no-op delegate. */
  type DelegateId = nat

  const NoOpDelegate: DelegateId := 0

  /** What a delegate is called with. */
  datatype RenderPassContext = RenderPassContext(
    commandBuffer: Handle,
    pipelineLayout: Handle,
    imageIndex: nat,
    frameIndex: nat)

  /** A registered client pass: its render pass and pipeline layout, framebuffers and per-frame request. */
  datatype RenderPassContainer = RenderPassContainer(
    area: Rect,
    currentFramebufferIndex: nat,
    delegate: DelegateId,
    framebuffers: seq<Handle>,
    pass: Handle,
    layout: Handle)

  /** The container made for a newly registered pass. */
  function NewRenderPassContainer(pass: Handle, layout: Handle): (c: RenderPassContainer)
    ensures c.area == ZeroArea && c.currentFramebufferIndex == 0 && c.delegate == NoOpDelegate
    ensures c.framebuffers == [] && c.pass == pass && c.layout == layout
  {
    RenderPassContainer(ZeroArea, 0, NoOpDelegate, [], pass, layout)
  }

  datatype SubmitInfo = SubmitInfo(
    waitSemaphores: seq<Handle>,
    waitStages: seq<bv32>,
    commandBuffers: seq<Handle>,
    signalSemaphores: seq<Handle>,
    fence: Handle)

  /** The GPU calls the renderer makes, in the order it makes them. */
  datatype Event =
    | WaitFence(fence: Handle)
    | ResetFence(fence: Handle)
    | GuiNewFrame
    | ResetCommandBuffer(commandBuffer: Handle)
    | BeginCommandBuffer(commandBuffer: Handle)
    | BeginPass(commandBuffer: Handle, pass: Handle, framebuffer: Handle, area: Rect)
    | CallDelegate(delegate: DelegateId, context: RenderPassContext)
    | EndPass(commandBuffer: Handle, pass: Handle)
    | EndCommandBuffer(commandBuffer: Handle)
    | RecordGui(frame: nat)
    | Submit(submit: SubmitInfo)
    | Present(present: Sw.PresentInfo)
    | FramebufferCreated(created: VulkanCore.Framebuffer)
    | DestroySemaphore(semaphore: Handle)
    | DestroyFence(fence: Handle)

  // ---------------------------------------------------------------------------
  // Dispatch of the queue, as a specification

  /** A queued name can be dispatched: it is registered and its framebuffer index is in range. */
  predicate Dispatchable(passes: map<string, RenderPassContainer>, name: string)
  {
    name in passes && passes[name].currentFramebufferIndex < |passes[name].framebuffers|
  }

  predicate AllDispatchable(queue: seq<string>, passes: map<string, RenderPassContainer>)
  {
    forall i :: 0 <= i < |queue| ==> Dispatchable(passes, queue[i])
  }

  /** Begin, delegate, End for one pass. */
  function PassEvents(c: RenderPassContainer, commandBuffer: Handle, image: nat, frame: nat): seq<Event>
    requires c.currentFramebufferIndex < |c.framebuffers|
  {
    [ BeginPass(commandBuffer, c.pass, c.framebuffers[c.currentFramebufferIndex], c.area),
      CallDelegate(c.delegate, RenderPassContext(commandBuffer, c.layout, image, frame)),
      EndPass(commandBuffer, c.pass) ]
  }

  /** The events of dispatching a whole queue. */
  function DispatchEvents(queue: seq<string>, passes: map<string, RenderPassContainer>,
                          commandBuffer: Handle, image: nat, frame: nat): seq<Event>
    requires AllDispatchable(queue, passes)
  {
    if queue == [] then []
    else
      DispatchEvents(queue[..|queue| - 1], passes, commandBuffer, image, frame)
      + PassEvents(passes[queue[|queue| - 1]], commandBuffer, image, frame)
  }

  /** Each queued pass contributes exactly three events. */
  lemma {:induction false} DispatchEventsLength(queue: seq<string>, passes: map<string, RenderPassContainer>,
                                                commandBuffer: Handle, image: nat, frame: nat)
    requires AllDispatchable(queue, passes)
    ensures |DispatchEvents(queue, passes, commandBuffer, image, frame)| == 3 * |queue|
    decreases |queue|
  {
    if queue != [] {
      DispatchEventsLength(queue[..|queue| - 1], passes, commandBuffer, image, frame);
    }
  }

  /**
   * The queue is dispatched in FIFO order: events 3k, 3k+1, 3k+2 are the
   * Begin, delegate call and End of the k-th queued name, with the
   * framebuffer, area and delegate its container holds.
   */
  lemma {:induction false} DispatchEventsAt(queue: seq<string>, passes: map<string, RenderPassContainer>,
                                            commandBuffer: Handle, image: nat, frame: nat, k: nat)
    requires AllDispatchable(queue, passes) && k < |queue|
    ensures |DispatchEvents(queue, passes, commandBuffer, image, frame)| == 3 * |queue|
    ensures DispatchEvents(queue, passes, commandBuffer, image, frame)[3 * k .. 3 * k + 3]
         == PassEvents(passes[queue[k]], commandBuffer, image, frame)
    decreases |queue|
  {
    var front := queue[..|queue| - 1];
    DispatchEventsLength(queue, passes, commandBuffer, image, frame);
    DispatchEventsLength(front, passes, commandBuffer, image, frame);
    if k < |queue| - 1 {
      DispatchEventsAt(front, passes, commandBuffer, image, frame, k);
    }
  }

  /**
   * Every delegate call sits strictly between the Begin and the End of its
   * own pass, and is given the frame's command buffer, image and frame index.
   */
  lemma DelegateBetweenBeginAndEnd(queue: seq<string>, passes: map<string, RenderPassContainer>,
                                   commandBuffer: Handle, image: nat, frame: nat, e: nat)
    requires AllDispatchable(queue, passes)
    requires e < |DispatchEvents(queue, passes, commandBuffer, image, frame)|
    requires DispatchEvents(queue, passes, commandBuffer, image, frame)[e].CallDelegate?
    ensures var events := DispatchEvents(queue, passes, commandBuffer, image, frame);
      && 0 < e < |events| - 1
      && events[e - 1].BeginPass? && events[e + 1].EndPass?
      && events[e - 1].pass == events[e + 1].pass
      && events[e].context.commandBuffer == commandBuffer
      && events[e].context.imageIndex == image && events[e].context.frameIndex == frame
  {
    var events := DispatchEvents(queue, passes, commandBuffer, image, frame);
    DispatchEventsLength(queue, passes, commandBuffer, image, frame);
    var k := e / 3;
    DispatchEventsAt(queue, passes, commandBuffer, image, frame, k);
    var pe := PassEvents(passes[queue[k]], commandBuffer, image, frame);
    assert events[3 * k] == pe[0] && events[3 * k + 1] == pe[1] && events[3 * k + 2] == pe[2];
  }

  /** The container `emplace` leaves under `name`: the existing one, or a new one. */
  function Registered(passes: map<string, RenderPassContainer>, name: string, pass: Handle, layout: Handle)
    : (c: RenderPassContainer)
    ensures name in passes ==> c == passes[name]
    ensures name !in passes ==> c == NewRenderPassContainer(pass, layout)
  {
    if name in passes then passes[name] else NewRenderPassContainer(pass, layout)
  }

  /**
   * Registering a new name, or giving a registered pass more framebuffers
   * without moving its index, keeps every queued name dispatchable.
   */
  lemma AddingFramebuffersKeepsDispatchable(queue: seq<string>, passes: map<string, RenderPassContainer>,
                                            name: string, c: RenderPassContainer)
    requires AllDispatchable(queue, passes)
    requires name in passes ==>
      c.currentFramebufferIndex == passes[name].currentFramebufferIndex
      && |passes[name].framebuffers| <= |c.framebuffers|
    ensures AllDispatchable(queue, passes[name := c])
  {
  }

  /** Popping the front of a dispatchable queue extends the dispatch by that pass's three events. */
  lemma DispatchStep(dispatched: seq<string>, queue: seq<string>, passes: map<string, RenderPassContainer>,
                     commandBuffer: Handle, image: nat, frame: nat)
    requires AllDispatchable(dispatched, passes) && AllDispatchable(queue, passes) && queue != []
    ensures AllDispatchable(dispatched + [queue[0]], passes) && AllDispatchable(queue[1..], passes)
    ensures DispatchEvents(dispatched + [queue[0]], passes, commandBuffer, image, frame)
      == DispatchEvents(dispatched, passes, commandBuffer, image, frame)
         + PassEvents(passes[queue[0]], commandBuffer, image, frame)
  {
    assert Dispatchable(passes, queue[0]);
    assert (dispatched + [queue[0]])[..|dispatched|] == dispatched;
  }

  /** Handles written by a series of creation calls. */
  function HandlesOf(created: seq<Created>): (hs: seq<Handle>)
    ensures |hs| == |created|
    ensures forall i :: 0 <= i < |created| ==> hs[i] == created[i].handle
  {
    if created == [] then [] else HandlesOf(created[..|created| - 1]) + [created[|created| - 1].handle]
  }

  /** The framebuffer AddRenderPass makes for one frame slot: its viewport colour view, then the shared depth view. */
  function ViewportFramebuffer(handle: Handle, pass: Handle, extent: Extent, colorView: Handle, depthView: Handle)
    : VulkanCore.Framebuffer
  {
    VulkanCore.Framebuffer(handle, pass, [colorView, depthView], extent.width, extent.height, 1)
  }

  /** The creation events of the framebuffers of the first `n` frame slots, in slot order. */
  ghost function ViewportFramebufferEvents(pass: Handle, extent: Extent, colorViews: seq<Handle>, depthView: Handle,
                                           driver: seq<Created>, n: nat): seq<Event>
    requires n <= |colorViews| && n <= |driver|
  {
    if n == 0 then []
    else
      ViewportFramebufferEvents(pass, extent, colorViews, depthView, driver, n - 1)
      + [FramebufferCreated(ViewportFramebuffer(driver[n - 1].handle, pass, extent, colorViews[n - 1], depthView))]
  }

  /** One call of CreateFramebuffers for a single frame slot, with the colour view and the depth view. */
  method CreateViewportFramebuffer(pass: Handle, extent: Extent, colorView: Handle, depthView: Handle, driver: Created)
    returns (r: Result<VulkanCore.Framebuffer, Error>)
    ensures r.Ok? <==> driver.result == Success
    ensures r.Ok? ==> r.value == ViewportFramebuffer(driver.handle, pass, extent, colorView, depthView)
  {
    var created := VulkanCore.CreateFramebuffers(pass, extent, [colorView], Some(depthView), 1, [driver]);
    if created.Fail? {
      return Fail(created.error);
    }
    return Ok(created.value[0]);
  }

  /**
   * The framebuffer loop of AddRenderPass: frame slot i gets viewport colour
   * view i followed by the shared viewport depth view.  It stops at the first
   * failed creation, which raises `Error` in the source, and returns the
   * framebuffers made before it.
   */
  method CreateViewportFramebuffers(pass: Handle, extent: Extent, colorViews: seq<Handle>, depthView: Handle,
                                    count: nat, driver: seq<Created>)
    returns (ok: bool, made: seq<VulkanCore.Framebuffer>, handles: seq<Handle>, ghost events: seq<Event>)
    requires count <= |colorViews| && count <= |driver|
    ensures ok <==> VulkanCore.AllCreated(driver, count)
    ensures |handles| <= count && (ok ==> |handles| == count)
    ensures handles == HandlesOf(driver[..|handles|])
    ensures |made| == |handles|
    ensures forall j :: 0 <= j < |made| ==>
      made[j] == ViewportFramebuffer(driver[j].handle, pass, extent, colorViews[j], depthView)
    ensures events == ViewportFramebufferEvents(pass, extent, colorViews, depthView, driver, |made|)
  {
    made, handles, events := [], [], [];
    var i := 0;
    while i < count
      invariant i <= count && |made| == |handles| == i
      invariant handles == HandlesOf(driver[..i])
      invariant forall j :: 0 <= j < i ==> driver[j].result == Success
      invariant forall j :: 0 <= j < i ==>
        made[j] == ViewportFramebuffer(driver[j].handle, pass, extent, colorViews[j], depthView)
      invariant events == ViewportFramebufferEvents(pass, extent, colorViews, depthView, driver, i)
    {
      var created := CreateViewportFramebuffer(pass, extent, colorViews[i], depthView, driver[i]);
      if created.Fail? {
        return false, made, handles, events;
      }
      var framebuffer := created.value;
      assert driver[..i + 1] == driver[..i] + [driver[i]];
      made := made + [framebuffer];
      handles := handles + [framebuffer.handle];
      events := events + [FramebufferCreated(framebuffer)];
      i := i + 1;
    }
    return true, made, handles, events;
  }

  /** What Shutdown destroys, slot by slot: the two semaphores, then the fence. */
  function DestroyEvents(imageAvailable: seq<Handle>, renderFinished: seq<Handle>, fences: seq<VulkanCore.Fence>, n: nat)
    : seq<Event>
    requires n <= |imageAvailable| && n <= |renderFinished| && n <= |fences|
  {
    if n == 0 then []
    else
      DestroyEvents(imageAvailable, renderFinished, fences, n - 1)
      + [DestroySemaphore(imageAvailable[n - 1]), DestroySemaphore(renderFinished[n - 1]), DestroyFence(fences[n - 1].handle)]
  }

  /**
   * Every frame slot's objects are destroyed exactly once, in slot order:
   * events 3k, 3k+1, 3k+2 destroy slot k's image-available semaphore,
   * render-finished semaphore and fence.
   */
  lemma {:induction false} DestroyEventsAt(imageAvailable: seq<Handle>, renderFinished: seq<Handle>,
                                           fences: seq<VulkanCore.Fence>, n: nat, k: nat)
    requires n <= |imageAvailable| && n <= |renderFinished| && n <= |fences| && k < n
    ensures |DestroyEvents(imageAvailable, renderFinished, fences, n)| == 3 * n
    ensures DestroyEvents(imageAvailable, renderFinished, fences, n)[3 * k .. 3 * k + 3]
      == [DestroySemaphore(imageAvailable[k]), DestroySemaphore(renderFinished[k]), DestroyFence(fences[k].handle)]
    decreases n
  {
    var prefix := DestroyEvents(imageAvailable, renderFinished, fences, n - 1);
    if n - 1 == 0 {
      assert prefix == [];
    } else if k < n - 1 {
      DestroyEventsAt(imageAvailable, renderFinished, fences, n - 1, k);
    } else {
      DestroyEventsAt(imageAvailable, renderFinished, fences, n - 1, 0);
    }
  }

  // ---------------------------------------------------------------------------
  // What the driver reports during Init

  datatype ChainDriver = ChainDriver(
    support: SwapchainSupport,
    framebufferWidth: int,
    framebufferHeight: int,
    indices: QueueFamilyIndices,
    created: Created,
    images: seq<Handle>,
    views: seq<Created>)
  {
    /** What the driver guarantees about a surface the device was chosen for. */
    predicate WellFormed()
    {
      && |support.formats| > 0
      && (support.capabilities.currentExtent.width == U32_MAX ==>
            && support.capabilities.minImageExtent.width <= support.capabilities.maxImageExtent.width
            && support.capabilities.minImageExtent.height <= support.capabilities.maxImageExtent.height)
      && 0 < |images| <= |views|
    }
  }

  datatype InitDriver = InitDriver(
    chain: ChainDriver,
    fences: seq<Created>,
    imageAvailable: seq<Created>,
    renderFinished: seq<Created>,
    commandPool: Created,
    commandBuffers: VkResult,
    commandBufferHandles: seq<Handle>,
    guiCommandBuffers: seq<Handle>)
  {
    predicate WellFormed()
    {
      && chain.WellFormed()
      && |fences| >= MAX_FRAMES_IN_FLIGHT && |imageAvailable| >= MAX_FRAMES_IN_FLIGHT
      && |renderFinished| >= MAX_FRAMES_IN_FLIGHT
      && |commandBufferHandles| >= MAX_FRAMES_IN_FLIGHT && |guiCommandBuffers| >= MAX_FRAMES_IN_FLIGHT
    }
  }

  // ---------------------------------------------------------------------------
  // The renderer

  class Renderer {
    var maxFramesInFlight: nat
    var currentFrame: nat
    var swapchain: Sw.Swapchain
    /** The swapchain's acquire counters (a file-level global of the swapchain). */
    var stats: Sw.ImageStatistics

    // one of each per frame in flight
    var frameFences: seq<VulkanCore.Fence>
    var imageAvailableSemaphores: seq<Handle>
    var renderFinishedSemaphores: seq<Handle>

    var graphicsCommandPool: Handle
    var graphicsCommandBuffers: seq<Handle>
    /** The GUI layer's command buffers, one per frame in flight. */
    var guiCommandBuffers: seq<Handle>

    var clientRenderQueue: seq<string>
    var clientRenderPasses: map<string, RenderPassContainer>

    ghost var trace: seq<Event>

    /** Every queued name can be dispatched; the drain loop terminates only under this. */
    ghost predicate QueueRegistered()
      reads this
    {
      AllDispatchable(clientRenderQueue, clientRenderPasses)
    }

    ghost predicate Valid()
      reads this, swapchain, stats
    {
      && maxFramesInFlight == MAX_FRAMES_IN_FLIGHT
      && currentFrame < maxFramesInFlight
      && |frameFences| == maxFramesInFlight
      && |imageAvailableSemaphores| == maxFramesInFlight
      && |renderFinishedSemaphores| == maxFramesInFlight
      && |graphicsCommandBuffers| == maxFramesInFlight
      && |guiCommandBuffers| == maxFramesInFlight
      && swapchain.Valid()
      && |stats.occurrences| == swapchain.imageCount
      && QueueRegistered()
    }

    /** A renderer object before Init: no passes, nothing queued. */
    constructor ()
      ensures clientRenderQueue == [] && clientRenderPasses == map[] && trace == []
      ensures QueueRegistered()
      ensures fresh(swapchain) && fresh(stats)
    {
      maxFramesInFlight := 0;
      currentFrame := 0;
      swapchain := new Sw.Swapchain();
      stats := new Sw.ImageStatistics();
      frameFences := [];
      imageAvailableSemaphores := [];
      renderFinishedSemaphores := [];
      graphicsCommandPool := NULL_HANDLE;
      graphicsCommandBuffers := [];
      guiCommandBuffers := [];
      clientRenderQueue := [];
      clientRenderPasses := map[];
      trace := [];
    }

    /**
     * Frame slot 0, two frames in flight, a new swapchain, and one fence
     * (signalled), two semaphores and one command buffer per frame slot.
     * Each driver failure raises `Error`.
     */
    method Init(d: InitDriver) returns (r: Result<(), Error>, poolInfo: Option<VulkanCore.CommandPoolCreateInfo>)
      requires d.WellFormed() && QueueRegistered()
      modifies this`currentFrame, this`maxFramesInFlight, this`swapchain, stats
      modifies this`frameFences, this`imageAvailableSemaphores, this`renderFinishedSemaphores
      modifies this`graphicsCommandPool, this`graphicsCommandBuffers, this`guiCommandBuffers
      ensures currentFrame == 0 && maxFramesInFlight == MAX_FRAMES_IN_FLIGHT
      ensures clientRenderQueue == old(clientRenderQueue) && clientRenderPasses == old(clientRenderPasses)
      ensures stats == old(stats) && trace == old(trace)
      ensures r.Ok? <==>
        && Sw.BuildSucceeds(d.chain.indices, d.chain.created, d.chain.images, d.chain.views)
        && VulkanCore.AllCreated(d.fences, MAX_FRAMES_IN_FLIGHT)
        && VulkanCore.AllCreated(d.imageAvailable, MAX_FRAMES_IN_FLIGHT)
        && VulkanCore.AllCreated(d.renderFinished, MAX_FRAMES_IN_FLIGHT)
        && d.commandPool.result == Success && d.commandBuffers == Success
      ensures r.Ok? ==> Valid() && fresh(swapchain) && swapchain.images == d.chain.images
      ensures r.Ok? ==> forall i :: 0 <= i < MAX_FRAMES_IN_FLIGHT ==>
        && frameFences[i] == VulkanCore.Fence(d.fences[i].handle, true)
        && imageAvailableSemaphores[i] == d.imageAvailable[i].handle
        && renderFinishedSemaphores[i] == d.renderFinished[i].handle
        && graphicsCommandBuffers[i] == d.commandBufferHandles[i]
      ensures r.Ok? ==> graphicsCommandPool == d.commandPool.handle
      ensures poolInfo.Some? ==>
        && d.chain.indices.graphics.Some?
        && poolInfo.value.queueFamilyIndex == d.chain.indices.graphics.value
        && poolInfo.value.flags & VulkanCore.COMMAND_POOL_CREATE_RESET_COMMAND_BUFFER != 0
      ensures poolInfo.Some? <==>
        && Sw.BuildSucceeds(d.chain.indices, d.chain.created, d.chain.images, d.chain.views)
        && VulkanCore.AllCreated(d.fences, MAX_FRAMES_IN_FLIGHT)
        && VulkanCore.AllCreated(d.imageAvailable, MAX_FRAMES_IN_FLIGHT)
        && VulkanCore.AllCreated(d.renderFinished, MAX_FRAMES_IN_FLIGHT)
    {
      currentFrame := 0;
      maxFramesInFlight := MAX_FRAMES_IN_FLIGHT;
      var c := d.chain;
      var built, _ := Sw.BuildWithStatistics(stats, null, c.support, c.framebufferWidth, c.framebufferHeight,
                                             c.indices, c.created, c.images, c.views);
      if built.Fail? {
        return Fail(built.error), None;
      }
      swapchain := built.value;

      r, poolInfo := CreateFrameObjects(d, c.indices.graphics.value);
    }

    /** The synchronisation objects, then the command objects on `graphicsFamily`. */
    method CreateFrameObjects(d: InitDriver, graphicsFamily: nat)
      returns (r: Result<(), Error>, poolInfo: Option<VulkanCore.CommandPoolCreateInfo>)
      requires d.WellFormed() && maxFramesInFlight == MAX_FRAMES_IN_FLIGHT
      modifies this`frameFences, this`imageAvailableSemaphores, this`renderFinishedSemaphores
      modifies this`graphicsCommandPool, this`graphicsCommandBuffers, this`guiCommandBuffers
      ensures r.Ok? <==>
        && VulkanCore.AllCreated(d.fences, MAX_FRAMES_IN_FLIGHT)
        && VulkanCore.AllCreated(d.imageAvailable, MAX_FRAMES_IN_FLIGHT)
        && VulkanCore.AllCreated(d.renderFinished, MAX_FRAMES_IN_FLIGHT)
        && d.commandPool.result == Success && d.commandBuffers == Success
      ensures poolInfo.Some? <==>
        && VulkanCore.AllCreated(d.fences, MAX_FRAMES_IN_FLIGHT)
        && VulkanCore.AllCreated(d.imageAvailable, MAX_FRAMES_IN_FLIGHT)
        && VulkanCore.AllCreated(d.renderFinished, MAX_FRAMES_IN_FLIGHT)
      ensures poolInfo.Some? ==>
        && poolInfo.value.queueFamilyIndex == graphicsFamily
        && poolInfo.value.flags & VulkanCore.COMMAND_POOL_CREATE_RESET_COMMAND_BUFFER != 0
      ensures r.Ok? ==>
        && |frameFences| == MAX_FRAMES_IN_FLIGHT && |imageAvailableSemaphores| == MAX_FRAMES_IN_FLIGHT
        && |renderFinishedSemaphores| == MAX_FRAMES_IN_FLIGHT
        && |graphicsCommandBuffers| == MAX_FRAMES_IN_FLIGHT && |guiCommandBuffers| == MAX_FRAMES_IN_FLIGHT
        && graphicsCommandPool == d.commandPool.handle
      ensures r.Ok? ==> forall i :: 0 <= i < MAX_FRAMES_IN_FLIGHT ==>
        && frameFences[i] == VulkanCore.Fence(d.fences[i].handle, true)
        && imageAvailableSemaphores[i] == d.imageAvailable[i].handle
        && renderFinishedSemaphores[i] == d.renderFinished[i].handle
        && graphicsCommandBuffers[i] == d.commandBufferHandles[i]
    {
      var synced := CreateSyncObjects(d.fences, d.imageAvailable, d.renderFinished);
      if synced.Fail? {
        return synced, None;
      }
      var info;
      r, info := CreateCommandObjects(graphicsFamily, d.commandPool, d.commandBuffers,
                                      d.commandBufferHandles, d.guiCommandBuffers);
      poolInfo := Some(info);
    }

    /** One signalled fence and two semaphores per frame slot; the first failure raises `Error`. */
    method CreateSyncObjects(fences: seq<Created>, imageAvailable: seq<Created>, renderFinished: seq<Created>)
      returns (r: Result<(), Error>)
      requires maxFramesInFlight <= |fences| && maxFramesInFlight <= |imageAvailable|
      requires maxFramesInFlight <= |renderFinished|
      modifies this`frameFences, this`imageAvailableSemaphores, this`renderFinishedSemaphores
      ensures r.Ok? <==>
        && VulkanCore.AllCreated(fences, maxFramesInFlight)
        && VulkanCore.AllCreated(imageAvailable, maxFramesInFlight)
        && VulkanCore.AllCreated(renderFinished, maxFramesInFlight)
      ensures r.Ok? ==>
        && |frameFences| == maxFramesInFlight && |imageAvailableSemaphores| == maxFramesInFlight
        && |renderFinishedSemaphores| == maxFramesInFlight
      ensures r.Ok? ==> forall i :: 0 <= i < maxFramesInFlight ==>
        && frameFences[i] == VulkanCore.Fence(fences[i].handle, true)
        && imageAvailableSemaphores[i] == imageAvailable[i].handle
        && renderFinishedSemaphores[i] == renderFinished[i].handle
    {
      var createdFences := VulkanCore.CreateFences(maxFramesInFlight, fences);
      if createdFences.Fail? {
        return Fail(createdFences.error);
      }
      frameFences := createdFences.value;
      var available := VulkanCore.CreateSemaphores(maxFramesInFlight, imageAvailable);
      if available.Fail? {
        return Fail(available.error);
      }
      imageAvailableSemaphores := available.value;
      var finished := VulkanCore.CreateSemaphores(maxFramesInFlight, renderFinished);
      if finished.Fail? {
        return Fail(finished.error);
      }
      renderFinishedSemaphores := finished.value;
      return Ok(());
    }

    /**
     * The command pool on the graphics family, then one command buffer per
     * frame slot in a single allocation; either failure raises `Error`.
     */
    method CreateCommandObjects(graphicsFamily: nat, pool: Created, allocation: VkResult, buffers: seq<Handle>,
                                guiBuffers: seq<Handle>)
      returns (r: Result<(), Error>, poolInfo: VulkanCore.CommandPoolCreateInfo)
      requires maxFramesInFlight <= |buffers| && maxFramesInFlight <= |guiBuffers|
      modifies this`graphicsCommandPool, this`graphicsCommandBuffers, this`guiCommandBuffers
      ensures poolInfo.queueFamilyIndex == graphicsFamily
      ensures poolInfo.flags & VulkanCore.COMMAND_POOL_CREATE_RESET_COMMAND_BUFFER != 0
      ensures r.Ok? <==> pool.result == Success && allocation == Success
      ensures pool.result != Success ==> r == Fail(CommandPoolCreateFailed)
      ensures pool.result == Success && allocation != Success ==> r == Fail(CommandBufferAllocateFailed)
      ensures r.Ok? ==>
        && graphicsCommandPool == pool.handle
        && graphicsCommandBuffers == buffers[..maxFramesInFlight]
        && guiCommandBuffers == guiBuffers[..maxFramesInFlight]
    {
      var created;
      created, poolInfo := VulkanCore.CreateCommandPool(graphicsFamily, pool);
      if created.Fail? {
        return Fail(created.error), poolInfo;
      }
      graphicsCommandPool := created.value;
      if allocation != Success {
        return Fail(CommandBufferAllocateFailed), poolInfo;
      }
      graphicsCommandBuffers := buffers[..GetFramesCount()];
      guiCommandBuffers := guiBuffers[..maxFramesInFlight];
      return Ok(()), poolInfo;
    }

    /** Every per-frame array holds one object per frame in flight. */
    function GetFramesCount(): (n: nat)
      reads this, swapchain, stats
      ensures Valid() ==>
        && n == MAX_FRAMES_IN_FLIGHT
        && n == |frameFences| == |imageAvailableSemaphores| == |renderFinishedSemaphores|
        && n == |graphicsCommandBuffers| == |guiCommandBuffers|
    {
      maxFramesInFlight
    }

    /** The frame slot in use is always one of the frames in flight. */
    function GetCurrentFrame(): (f: nat)
      reads this, swapchain, stats
      requires Valid()
      ensures f < GetFramesCount()
    {
      currentFrame
    }

    function GetSwapchainImageFormat(): (f: Format)
      reads this, swapchain
      ensures f == swapchain.imageFormat
    {
      swapchain.imageFormat
    }

    function GetSwapchainExtent(): (e: Extent)
      reads this, swapchain
      ensures e == swapchain.extent
    {
      swapchain.extent
    }

    /** There is at least one image, with one view and one acquisition counter each. */
    function GetSwapchainImageCount(): (n: nat)
      reads this, swapchain, stats
      ensures Valid() ==> 0 < n && n == |swapchain.images| == |swapchain.imageViews| == |stats.occurrences|
    {
      swapchain.imageCount
    }

    /** The acquired image is always one of the swapchain's images. */
    function GetSwapchainCurrentImage(): (i: nat)
      reads this, swapchain, stats
      requires Valid()
      ensures i < GetSwapchainImageCount()
    {
      swapchain.currentImage
    }

    /**
     * Logs the acquire statistics (which raises `Error` when no image was
     * ever acquired) and then destroys the two semaphores and the fence of
     * every frame slot.
     */
    method Shutdown() returns (r: Result<seq<Sw.ImageUsage>, Error>)
      requires Valid()
      modifies this`trace
      ensures Valid()
      ensures r.Fail? ==> trace == old(trace)
      ensures r.Fail? <==>
        (forall i :: 0 <= i < |stats.occurrences| ==> stats.occurrences[i] <= 0)
        && (exists i :: 0 <= i < |stats.occurrences| && stats.occurrences[i] == 0)
      ensures r.Ok? ==>
        trace == old(trace) + DestroyEvents(imageAvailableSemaphores, renderFinishedSemaphores, frameFences, maxFramesInFlight)
    {
      r := swapchain.LogStatistics(stats);
      if r.Fail? {
        return;
      }
      ghost var events: seq<Event> := [];
      var i := 0;
      while i < maxFramesInFlight
        invariant i <= maxFramesInFlight
        invariant events == DestroyEvents(imageAvailableSemaphores, renderFinishedSemaphores, frameFences, i)
      {
        events := events + [DestroySemaphore(imageAvailableSemaphores[i]), DestroySemaphore(renderFinishedSemaphores[i]),
                            DestroyFence(frameFences[i].handle)];
        i := i + 1;
      }
      trace := trace + events;
    }

    /**
     * Waits for and resets the frame slot's fence, then acquires an image.
     * Returns `Ok(true)` when the chain must be rebuilt: then no GUI frame
     * is started.  The frame slot does not change.
     */
    method BeginFrame(acquireResult: VkResult, acquiredImage: Option<nat>) returns (r: Result<bool, Error>)
      requires Valid()
      requires acquiredImage.Some? ==> acquiredImage.value < swapchain.imageCount
      modifies this`frameFences, this`trace, swapchain`currentImage, stats
      ensures Valid()
      ensures currentFrame == old(currentFrame)
      ensures frameFences == old(frameFences)[currentFrame := old(frameFences)[currentFrame].(signaled := false)]
      ensures swapchain.currentImage == if acquiredImage.Some? then acquiredImage.value else old(swapchain.currentImage)
      ensures stats.occurrences == old(stats.occurrences)[swapchain.currentImage := old(stats.occurrences)[swapchain.currentImage] + 1]
      ensures r == Sw.ClassifyAcquire(acquireResult)
      ensures trace == old(trace) + [WaitFence(frameFences[currentFrame].handle), ResetFence(frameFences[currentFrame].handle)]
                      + (if r == Ok(false) then [GuiNewFrame] else [])
    {
      var fence := frameFences[currentFrame];
      trace := trace + [WaitFence(fence.handle), ResetFence(fence.handle)];
      frameFences := frameFences[currentFrame := fence.(signaled := false)];

      r := swapchain.AcquireNextImageCounted(stats, imageAvailableSemaphores[currentFrame], acquireResult, acquiredImage);
      if r.Fail? || r.value {
        return;
      }
      trace := trace + [GuiNewFrame];
    }

    /**
     * Records the frame's command buffer (dispatching the whole queue) and
     * submits it together with the GUI's, then presents.  When presenting
     * asks for a rebuild the frame slot stays; otherwise it advances to the
     * next slot, modulo the number of frames in flight.
     */
    method EndFrame(beginResult: VkResult, endResult: VkResult, submitResult: VkResult, presentResult: VkResult)
      returns (r: Result<bool, Error>)
      requires Valid()
      modifies this`clientRenderQueue, this`trace, this`currentFrame
      ensures Valid()
      ensures r.Ok? ==> clientRenderQueue == []
      ensures r.Ok? <==>
        beginResult == Success && endResult == Success && submitResult == Success
        && Sw.ClassifyPresent(presentResult).Ok?
      ensures r.Ok? ==> r == Sw.ClassifyPresent(presentResult)
      ensures currentFrame == if r == Ok(false) then (old(currentFrame) + 1) % maxFramesInFlight else old(currentFrame)
      ensures beginResult != Success ==>
        trace == old(trace) + old([ResetCommandBuffer(graphicsCommandBuffers[currentFrame]),
                                   BeginCommandBuffer(graphicsCommandBuffers[currentFrame])])
      ensures beginResult == Success ==>
        trace == old(trace) + old(FrameCommands(clientRenderQueue, endResult))
          + (if endResult == Success && submitResult == Success
             then old([Present(Sw.PresentInfo([renderFinishedSemaphores[currentFrame]], [swapchain.handle],
                                              [swapchain.currentImage]))])
             else [])
    {
      var recorded := RecordCommandBuffers(beginResult, endResult, submitResult);
      if recorded.Fail? {
        return Fail(recorded.error);
      }
      var presented, info := swapchain.PresentImage(renderFinishedSemaphores[currentFrame], presentResult);
      trace := trace + [Present(info)];
      if presented.Fail? {
        return presented;
      }
      if presented.value {
        return presented;
      }
      currentFrame := (currentFrame + 1) % maxFramesInFlight;
      return presented;
    }

    /**
     * The dispatch loop of RecordCommandBuffers: names are popped from the
     * front of the queue and each pass's Begin, delegate call and End are
     * recorded, so the queue ends empty and is dispatched in FIFO order.
     */
    method DispatchClientQueue(commandBuffer: Handle, image: nat)
      requires QueueRegistered()
      modifies this`clientRenderQueue, this`trace
      ensures clientRenderQueue == []
      ensures trace == old(trace) + DispatchEvents(old(clientRenderQueue), clientRenderPasses, commandBuffer, image, currentFrame)
    {
      var queue := clientRenderQueue;
      var passes := clientRenderPasses;
      var frame := currentFrame;
      ghost var dispatched: seq<string> := [];
      ghost var events: seq<Event> := [];
      while queue != []
        invariant old(clientRenderQueue) == dispatched + queue && trace == old(trace)
        invariant AllDispatchable(dispatched, passes) && AllDispatchable(queue, passes)
        invariant events == DispatchEvents(dispatched, passes, commandBuffer, image, frame)
        decreases |queue|
      {
        var passName := queue[0];
        if passName in passes {
          var pass := passes[passName];
          DispatchStep(dispatched, queue, passes, commandBuffer, image, frame);
          queue := queue[1..];
          events := events + [BeginPass(commandBuffer, pass.pass, pass.framebuffers[pass.currentFramebufferIndex], pass.area),
                              CallDelegate(pass.delegate, RenderPassContext(commandBuffer, pass.layout, image, frame)),
                              EndPass(commandBuffer, pass.pass)];
          dispatched := dispatched + [passName];
        } else {
          // an unregistered name would never be popped; the queue invariant rules it out
          assert false;
        }
      }
      assert dispatched == old(clientRenderQueue);
      clientRenderQueue := queue;
      trace := trace + events;
    }

    /**
     * The commands of one frame once its command buffer could begin: reset
     * and begin, the dispatch of `queue`, end; then, when ending succeeded,
     * the GUI and the submission of both buffers, waiting on the slot's
     * image-available semaphore and signalling its render-finished
     * semaphore and fence.
     */
    ghost function FrameCommands(queue: seq<string>, endResult: VkResult): seq<Event>
      reads this, swapchain, stats
      requires Valid() && AllDispatchable(queue, clientRenderPasses)
    {
      var cmd := graphicsCommandBuffers[currentFrame];
      [ResetCommandBuffer(cmd), BeginCommandBuffer(cmd)]
      + DispatchEvents(queue, clientRenderPasses, cmd, swapchain.currentImage, currentFrame)
      + [EndCommandBuffer(cmd)]
      + (if endResult != Success then []
         else [RecordGui(currentFrame), Submit(SubmitInfo(
                 [imageAvailableSemaphores[currentFrame]],
                 [VulkanCore.STAGE_COLOR_ATTACHMENT_OUTPUT],
                 [cmd, guiCommandBuffers[currentFrame]],
                 [renderFinishedSemaphores[currentFrame]],
                 frameFences[currentFrame].handle))])
    }

    /**
     * Resets and begins the frame slot's command buffer, dispatches every
     * queued pass in FIFO order, ends the buffer, records the GUI and
     * submits both buffers: waiting on the slot's image-available
     * semaphore, signalling its render-finished semaphore, with its fence.
     */
    method RecordCommandBuffers(beginResult: VkResult, endResult: VkResult, submitResult: VkResult)
      returns (r: Result<(), Error>)
      requires Valid()
      modifies this`clientRenderQueue, this`trace
      ensures Valid()
      ensures r.Ok? <==> beginResult == Success && endResult == Success && submitResult == Success
      ensures beginResult != Success ==>
        && r == Fail(CommandBufferBeginFailed) && clientRenderQueue == old(clientRenderQueue)
        && trace == old(trace) + [ResetCommandBuffer(graphicsCommandBuffers[currentFrame]),
                                  BeginCommandBuffer(graphicsCommandBuffers[currentFrame])]
      ensures beginResult == Success ==> clientRenderQueue == []
      ensures beginResult == Success ==> trace == old(trace) + old(FrameCommands(clientRenderQueue, endResult))
      ensures beginResult == Success && endResult != Success ==> r == Fail(CommandBufferEndFailed)
      ensures beginResult == Success && endResult == Success && submitResult != Success ==> r == Fail(SubmitFailed)
    {
      var commandBuffer := graphicsCommandBuffers[currentFrame];
      trace := trace + [ResetCommandBuffer(commandBuffer), BeginCommandBuffer(commandBuffer)];
      if beginResult != Success {
        return Fail(CommandBufferBeginFailed);
      }
      ghost var expected := old(FrameCommands(clientRenderQueue, endResult));
      ghost var dispatch := DispatchEvents(clientRenderQueue, clientRenderPasses, commandBuffer, swapchain.currentImage, currentFrame);

      DispatchClientQueue(commandBuffer, swapchain.currentImage);
      assert trace == old(trace) + [ResetCommandBuffer(commandBuffer), BeginCommandBuffer(commandBuffer)] + dispatch;

      trace := trace + [EndCommandBuffer(commandBuffer)];
      if endResult != Success {
        assert trace == old(trace) + expected;
        return Fail(CommandBufferEndFailed);
      }

      var submit := SubmitInfo(
        [imageAvailableSemaphores[currentFrame]],
        [VulkanCore.STAGE_COLOR_ATTACHMENT_OUTPUT],
        [graphicsCommandBuffers[currentFrame], guiCommandBuffers[currentFrame]],
        [renderFinishedSemaphores[currentFrame]],
        frameFences[currentFrame].handle);
      trace := trace + [RecordGui(currentFrame), Submit(submit)];
      assert trace == old(trace) + expected;
      if submitResult != Success {
        return Fail(SubmitFailed);
      }
      return Ok(());
    }

    /**
     * Registers `name` unless it is registered already (emplace never
     * replaces), then appends one framebuffer per frame slot to that
     * pass's list: frame slot i's viewport colour view plus the shared
     * viewport depth view.
     */
    method AddRenderPass(name: string, pass: Handle, layout: Handle, viewportColorViews: seq<Handle>,
                         viewportDepthView: Handle, viewportExtent: Extent, driver: seq<Created>)
      returns (r: Result<(), Error>)
      requires Valid()
      requires |viewportColorViews| >= maxFramesInFlight && |driver| >= maxFramesInFlight
      modifies this`clientRenderPasses, this`trace
      ensures Valid()
      ensures name in clientRenderPasses
      ensures clientRenderPasses == old(clientRenderPasses)[name := clientRenderPasses[name]]
      ensures var base := Registered(old(clientRenderPasses), name, pass, layout);
        var made := |clientRenderPasses[name].framebuffers| - |base.framebuffers|;
        && clientRenderPasses[name].(framebuffers := base.framebuffers) == base
        && 0 <= made <= maxFramesInFlight
        && clientRenderPasses[name].framebuffers == base.framebuffers + HandlesOf(driver[..made])
        && trace == old(trace)
             + ViewportFramebufferEvents(base.pass, viewportExtent, viewportColorViews, viewportDepthView, driver, made)
      ensures r.Ok? <==> VulkanCore.AllCreated(driver, maxFramesInFlight)
      ensures r.Ok? ==>
        clientRenderPasses[name].framebuffers
          == Registered(old(clientRenderPasses), name, pass, layout).framebuffers + HandlesOf(driver[..maxFramesInFlight])
    {
      var base := Registered(clientRenderPasses, name, pass, layout);
      var ok, made, handles, events :=
        CreateViewportFramebuffers(base.pass, viewportExtent, viewportColorViews, viewportDepthView, GetFramesCount(), driver);
      var updated := base.(framebuffers := base.framebuffers + handles);
      AddingFramebuffersKeepsDispatchable(clientRenderQueue, clientRenderPasses, name, updated);
      clientRenderPasses := clientRenderPasses[name := updated];
      trace := trace + events;
      if !ok {
        return Fail(FramebufferCreateFailed);
      }
      return Ok(());
    }

    /**
     * Framebuffers for presenting through the registered pass `renderPass`:
     * one per swapchain image, each with just that image's view.  An
     * unregistered name raises `Error`.
     */
    method CreateSwapchainFramebuffers(renderPass: string, driver: seq<Created>)
      returns (r: Result<seq<VulkanCore.Framebuffer>, Error>)
      requires Valid() && |driver| >= swapchain.imageCount
      ensures renderPass !in clientRenderPasses ==> r == Fail(RenderPassNotRegistered)
      ensures renderPass in clientRenderPasses ==>
        (r.Ok? <==> VulkanCore.AllCreated(driver, swapchain.imageCount))
      ensures r.Ok? ==> |r.value| == swapchain.imageCount
      ensures r.Ok? ==> forall i :: 0 <= i < swapchain.imageCount ==>
        && r.value[i].attachments == [swapchain.imageViews[i]]
        && r.value[i].renderPass == clientRenderPasses[renderPass].pass
        && r.value[i].width == swapchain.extent.width && r.value[i].height == swapchain.extent.height
    {
      if renderPass !in clientRenderPasses {
        return Fail(RenderPassNotRegistered);
      }
      var pass := clientRenderPasses[renderPass];
      var count := swapchain.imageCount;
      r := VulkanCore.CreateFramebuffers(pass.pass, swapchain.extent, swapchain.imageViews, None, count, driver);
    }

    /**
     * Requests `name` for this frame: an unregistered name is ignored; a
     * pass without a framebuffer for the current frame slot raises `Error`
     * before anything changes; otherwise the pass gets the current slot's
     * framebuffer, the area and the delegate, and its name joins the back
     * of the queue.
     */
    method EnqueueRenderPass(name: string, area: Rect, dependencies: seq<string>, delegate: DelegateId)
      returns (r: Result<(), Error>)
      requires Valid()
      modifies this`clientRenderPasses, this`clientRenderQueue
      ensures Valid()
      ensures name !in old(clientRenderPasses) ==>
        r.Ok? && clientRenderPasses == old(clientRenderPasses) && clientRenderQueue == old(clientRenderQueue)
      ensures name in old(clientRenderPasses) && |old(clientRenderPasses)[name].framebuffers| < currentFrame + 1 ==>
        && r == Fail(FramebufferMissing)
        && clientRenderPasses == old(clientRenderPasses) && clientRenderQueue == old(clientRenderQueue)
      ensures name in old(clientRenderPasses) && currentFrame < |old(clientRenderPasses)[name].framebuffers| ==>
        && r.Ok?
        && clientRenderPasses == old(clientRenderPasses)[name := old(clientRenderPasses)[name].(
             currentFramebufferIndex := currentFrame, area := area, delegate := delegate)]
        && clientRenderQueue == old(clientRenderQueue) + [name]
    {
      if name in clientRenderPasses {
        var pass := clientRenderPasses[name];
        if |pass.framebuffers| < currentFrame + 1 {
          return Fail(FramebufferMissing);
        }
        clientRenderPasses := clientRenderPasses[name := pass.(currentFramebufferIndex := currentFrame, area := area, delegate := delegate)];
        clientRenderQueue := clientRenderQueue + [name];
      }
      return Ok(());
    }
  }
}
