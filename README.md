# Etna, the Vulkan engine of VolumetricRenderer, in Dafny

This project models the decision logic of Etna, the small Vulkan engine
underneath VolumetricRenderer, and proves what that logic promises. It covers:

- how the engine picks a GPU, its queue families, a surface format, a present
  mode, an extent, an image count, memory types and depth formats;
- how it builds render passes, descriptor-set layouts, pools and writes,
  vertex layouts and framebuffers;
- how the renderer moves through a frame:
  - per-slot fences and semaphores;
  - the acquire and present result codes;
  - the client render-pass queue, drained in order;
- the application's layer stack and the window's present/rebuild loop;
- the Canvas layer registry and the global render queue;
- the two move-only owners, `Ref<T>` and `VulkanDevice`.

Vulkan objects are opaque handles (`nat`, where 0 stands for `VK_NULL_HANDLE`).
Each driver call is a parameter: its result code plus the handle or value it
writes. Commands recorded into command buffers, and calls into layer
callbacks, are events appended to a ghost trace. A C++ `Error(...)`, which
throws, is the `Fail` case of a `Result`.

The code base has two revisions of several files, under `Source/` and under
`source/`. The renderer follows `source/Etna/Core/Vulkan/VulkanRenderer.cpp`,
but it calls `Swapchain::LogStatistics`, which only the `Source/` swapchain
has. So the swapchain model is the `Source/` one, with the per-image acquire
counters. The two device-selection files differ only in the sampler
anisotropy feature, which `Device.Build` takes as a parameter. The two
queue-family scans are the same loop and share one model.

## Model

| member | source | states |
|---|---|---|
| QueueFamilies.GetQueueFamilies | source/Etna/Core/Vulkan/VulkanCore.cpp:149-188 | the loop's result is the left-to-right scan that records each capable family and stops at the first index where all three are known |
| QueueFamilies.LastGraphics | source/Etna/Core/Vulkan/VulkanCore.cpp:158-184 | the graphics index a scan of the first p families holds is the last graphics-capable one before p, or none when none is |
| QueueFamilies.LastTransfer | source/Etna/Core/Vulkan/VulkanCore.cpp:158-184 | the same for the transfer family |
| QueueFamilies.LastPresent | source/Etna/Core/Vulkan/VulkanCore.cpp:158-184 | the same for presentation support |
| QueueFamilies.SnapshotMonotone | source/Etna/Core/Vulkan/VulkanCore.cpp:158-184 | once the indices are complete after p families they stay complete after any later q |
| QueueFamilies.ScanFromSnapshot | source/Etna/Core/Vulkan/VulkanCore.cpp:158-184 | scanning on from the state after i families ends in the state after the first complete prefix k |
| QueueFamilies.QueueFamiliesStopAtFirstComplete | source/Etna/Core/Vulkan/VulkanCore.cpp:180-183 | the result equals the indices after the first prefix that completes them: later families change nothing |
| QueueFamilies.ScanFromSound | source/Etna/Core/Vulkan/VulkanCore.cpp:158-184 | the scan ends complete exactly when the scan of all families is complete |
| QueueFamilies.ScanFromAgrees | source/Etna/Core/Vulkan/VulkanCore.cpp:158-184 | every scan result equals the indices of some prefix |
| QueueFamilies.QueueFamiliesSound | source/Etna/Core/Vulkan/VulkanUtils.cpp:33-72 | every returned index has its capability, and the result is complete exactly when some family has graphics, some transfer and some presentation |
| VulkanCore.ChooseMemoryType | source/Etna/Core/Vulkan/VulkanCore.cpp:260-274 | the first memory type allowed by the filter that has every requested property; NoSuitableMemoryType exactly when none fits |
| VulkanCore.FindSupportedFormat | source/Etna/Core/Vulkan/VulkanCore.cpp:389-407 | the first candidate whose linear or optimal features (by tiling) contain the requested ones; an error exactly when no candidate does |
| VulkanCore.FindDepthFormat | source/Etna/Core/Vulkan/VulkanCore.cpp:376-382 | the first of D32, D32S8, D24S8 whose optimal tiling supports depth attachments; an error exactly when none does |
| VulkanCore.SingleBitContained | source/Etna/Core/Vulkan/VulkanCore.cpp:376-382 | for the one-bit depth feature mask, containing the mask and sharing a bit with it agree |
| VulkanCore.HasStencilComponent | source/Etna/Core/Vulkan/VulkanCore.cpp:384-387 | true exactly for D32S8 and D24S8; among the depth candidates, exactly for those other than D32 |
| VulkanCore.TransitionImageLayout | source/Etna/Core/Vulkan/VulkanCore.cpp:542-613 | the barrier for the three supported layout changes (access masks, stages, depth/stencil aspect) and an error for every other pair |
| VulkanCore.ChooseSharing | Source/Etna/Core/Vulkan/VulkanSwapchain.cpp:127-140 | both families are read before comparing, so a missing one throws; concurrent with both indices exactly when they differ, exclusive with none otherwise |
| VulkanCore.BufferSharing | source/Etna/Core/Vulkan/VulkanCore.cpp:287-300 | a buffer is shared between the graphics and transfer families exactly when they differ, and needs both to be known |
| VulkanCore.CreateFramebuffers | source/Etna/Core/Vulkan/VulkanCore.cpp:409-445 | framebuffer i gets colour view i, then the shared depth view if any; fails exactly when some creation call fails |
| VulkanCore.CreateCommandPool | source/Etna/Core/Vulkan/VulkanCore.cpp:212-226 | the create info names the given queue family and sets the reset-command-buffer flag; the driver's handle on success, CommandPoolCreateFailed otherwise |
| VulkanCore.CreateFences | source/Etna/Core/Vulkan/VulkanCore.cpp:342-355 | count fences, each created signalled; fails exactly when some creation call fails |
| VulkanCore.CreateSemaphores | source/Etna/Core/Vulkan/VulkanCore.cpp:328-340 | count semaphores with the driver's handles; fails exactly when some creation call fails |
| VulkanCore.GetSwapChainSupportDetails | source/Etna/Core/Vulkan/VulkanCore.cpp:123-147 | capabilities always overwritten; each list replaced only when the driver reports at least one entry |
| VulkanCore.SupportDetailsFromEmpty | Source/Etna/Core/Vulkan/VulkanSwapchain.cpp:102-103 | from the value-initialised struct callers pass, the lists are exactly the reported ones |
| VulkanCore.DebugCallback | source/Etna/Core/Vulkan/VulkanCore.cpp:22-41 | an error-severity message throws; warnings log as warnings, info and verbose only in verbose builds |
| VulkanCore.DebugCallbackSwitch | source/Etna/Core/Vulkan/VulkanUtils.cpp:78-97 | the switch throws exactly on the ERROR value, warns exactly on WARNING, never logs at info |
| VulkanCore.DebugCallbacksAgree | source/Etna/Core/Vulkan/VulkanUtils.cpp:78-97 | on the single-bit severities both callbacks agree on errors, and differ only on info/verbose in verbose builds |
| VulkanCore.PopulateDebugMessengerCreateInfo | source/Etna/Core/Vulkan/VulkanCore.cpp:110-121 | nothing of the previous struct survives: verbose, warning and error severities but not info, all three message types, the callback set, no user data |
| Swapchain.ClassifyAcquire | Source/Etna/Core/Vulkan/VulkanSwapchain.cpp:24-33 | out-of-date asks for a rebuild; success and suboptimal carry on; anything else is an error |
| Swapchain.ClassifyPresent | Source/Etna/Core/Vulkan/VulkanSwapchain.cpp:53-62 | out-of-date and suboptimal ask for a rebuild; success carries on; anything else is an error |
| Swapchain.SuboptimalAsymmetry | Source/Etna/Core/Vulkan/VulkanSwapchain.cpp:16-63 | the two classifications fail on the same codes and differ on suboptimal alone |
| Swapchain.ChooseSwapChainSurfaceFormat | Source/Etna/Core/Vulkan/VulkanSwapchain.cpp:175-186 | the result is listed; it is the sRGB R8G8B8A8 / non-linear pair exactly when that pair is listed, else the first entry |
| Swapchain.ChooseSwapChainPresentMode | Source/Etna/Core/Vulkan/VulkanSwapchain.cpp:188-200 | MAILBOX exactly when it is listed, otherwise FIFO |
| Swapchain.ToU32 | Source/Etna/Core/Vulkan/VulkanSwapchain.cpp:213-216 | the cast to uint32_t stays in range, keeps in-range values and wraps negative ones by 2^32 |
| Swapchain.Clamp | Source/Etna/Core/Vulkan/VulkanSwapchain.cpp:218-219 | std::clamp: the result is within bounds and equals the value when it already is |
| Swapchain.ChooseSwapChainExtent | Source/Etna/Core/Vulkan/VulkanSwapchain.cpp:202-223 | the surface's extent unless its width is the UINT32_MAX marker; then each framebuffer dimension, cast to uint32_t (negative sizes wrap), becomes the minimum when below it, the maximum when above it, and is kept when within range |
| Swapchain.ImageCountAsWritten | Source/Etna/Core/Vulkan/VulkanSwapchain.cpp:109-115 | the written rule only raises the count: minimum + 1, or the maximum |
| Swapchain.ImageCountAsWrittenExceedsMaximum | Source/Etna/Core/Vulkan/VulkanSwapchain.cpp:109-115 | with minimum = maximum = 2 the written rule asks for 3 images; with 2 and 8 it asks for all 8 |
| Swapchain.RequestedImageCount | Source/Etna/Core/Vulkan/VulkanSwapchain.cpp:109-115 | the intended rule: minimum + 1 capped by a non-zero maximum |
| Swapchain.ImageCountRulesAgree | Source/Etna/Core/Vulkan/VulkanSwapchain.cpp:109-115 | the two rules agree exactly when the written one stays at minimum + 1 within the limit |
| Swapchain.ImageStatistics.Reset | Source/Etna/Core/Vulkan/VulkanSwapchain.cpp:169-170 | after a build the counters are imageCount zeros |
| Swapchain.TotalAfterIncrement | Source/Etna/Core/Vulkan/VulkanSwapchain.cpp:22 | one acquire raises the total count by exactly one |
| Swapchain.TotalOfZeros | Source/Etna/Core/Vulkan/VulkanSwapchain.cpp:169-170 | freshly reset counters total zero |
| Swapchain.Swapchain.AcquireNextImage | source/Etna/Core/Vulkan/VulkanSwapchain.cpp:12-28 | the acquired index becomes current; rebuild exactly on out-of-date; an error on any code other than success, suboptimal and out-of-date |
| Swapchain.Swapchain.AcquireNextImageCounted | Source/Etna/Core/Vulkan/VulkanSwapchain.cpp:16-34 | the acquired image's counter rises by one before the code is classified, also on failure |
| Swapchain.Swapchain.PresentImage | Source/Etna/Core/Vulkan/VulkanSwapchain.cpp:36-63 | presents the current image after the semaphore; rebuild exactly on out-of-date or suboptimal |
| Swapchain.Swapchain.LogStatistics | Source/Etna/Core/Vulkan/VulkanSwapchain.cpp:65-76 | an error exactly when the largest counter is 0; otherwise one report per image |
| Swapchain.Swapchain.CreateImageViews | Source/Etna/Core/Vulkan/VulkanSwapchain.cpp:225-253 | one colour view per image of the chain's format; fails exactly when some creation call fails |
| Swapchain.Build | Source/Etna/Core/Vulkan/VulkanSwapchain.cpp:84-173 | destroys the old chain's views and handle; succeeds exactly when indices and creation calls succeed; the new chain has the driver's images and views and the corrected image count RequestedImageCount; the format is the sRGB pair when listed, else the first listed one; the mode is MAILBOX when listed, else FIFO; the extent is the chosen one |
| Swapchain.DestroyChain | Source/Etna/Core/Vulkan/VulkanSwapchain.cpp:89-99 | every view of the old chain is destroyed, in order, and then the chain itself |
| Swapchain.NewChain | Source/Etna/Core/Vulkan/VulkanSwapchain.cpp:148-165 | the chain takes the created handle, the driver's images, the format and extent, starts at image 0 and gets one view per image; an error exactly when a view creation fails |
| Swapchain.BuildWithStatistics | Source/Etna/Core/Vulkan/VulkanSwapchain.cpp:169-170 | a successful build resets the counters to one zero per image; a failed one leaves them |
| Descriptors.MinKey | source/Etna/Core/Vulkan/VulkanDescriptors.cpp:35-38 | the least binding number, where the ordered map's iteration starts |
| Descriptors.RemoveKey | source/Etna/Core/Vulkan/VulkanDescriptors.cpp:35-38 | taking the least binding out leaves one key fewer and the other entries unchanged |
| Descriptors.AscendingEntries | source/Etna/Core/Vulkan/VulkanDescriptors.cpp:35-38 | the collected list has one entry per binding, each stored under its own number |
| Descriptors.AscendingSorted | source/Etna/Core/Vulkan/VulkanDescriptors.cpp:35-38 | the collected list is strictly increasing in binding number |
| Descriptors.AscendingComplete | source/Etna/Core/Vulkan/VulkanDescriptors.cpp:35-38 | every binding of the map appears in the collected list |
| Descriptors.LayoutBuilder.AddBinding | source/Etna/Core/Vulkan/VulkanDescriptors.cpp:7-30 | an occupied binding number is an error and changes nothing; otherwise exactly that entry is added |
| Descriptors.LayoutBuilder.Build | source/Etna/Core/Vulkan/VulkanDescriptors.cpp:32-53 | the create info lists the bindings in ascending order with their count; the layout keeps the map; creation failure is an error |
| Descriptors.CollectAscending | source/Etna/Core/Vulkan/VulkanDescriptors.cpp:34-38 | the loop collects the map's entries in ascending key order |
| Descriptors.CreatePool | source/Etna/Core/Vulkan/VulkanDescriptors.cpp:55-74 | one pool size per binding, in ascending binding order, with that binding's type and descriptor count equal to the set count; maxSets is the set count; creation failure is an error |
| Descriptors.AllocateSet | source/Etna/Core/Vulkan/VulkanDescriptors.cpp:80-101 | an error exactly on out-of-pool-memory; any other code returns the written set |
| Descriptors.DescriptorSetWriter.WriteBuffer | source/Etna/Core/Vulkan/VulkanDescriptors.cpp:110-139 | a binding missing from the layout is an error; otherwise one buffer info and one write of that binding's type are appended |
| Descriptors.DescriptorSetWriter.WriteImage | source/Etna/Core/Vulkan/VulkanDescriptors.cpp:141-169 | the same for an image info |
| Descriptors.DescriptorSetWriter.Write | source/Etna/Core/Vulkan/VulkanDescriptors.cpp:171-176 | submits every queued write, each aimed at the writer's set and a binding of its layout |
| Descriptors.NewDescriptorSetWriter | source/Etna/Core/Vulkan/VulkanDescriptors.cpp:103-108 | the writer allocates its set on construction: out-of-pool-memory is an error, otherwise an empty writer on that set |
| VertexLayout.FormatOf | source/Etna/Core/Vulkan/VulkanVertexLayout.h:36-54 | each attribute type's format has the type's size; the 64-bit formats are exactly the double types |
| VertexLayout.FormatOfInjective | source/Etna/Core/Vulkan/VulkanVertexLayout.h:36-54 | distinct attribute types get distinct formats |
| VertexLayout.TotalSizePrefix | source/Etna/Core/Vulkan/VulkanVertexLayout.h:64-75 | an attribute ends no later than the start of any later one |
| VertexLayout.AttributesDoNotOverlap | source/Etna/Core/Vulkan/VulkanVertexLayout.h:64-75 | in a built layout attributes do not overlap and all fit in the stride |
| VertexLayout.VertexLayout.AddAttribute | source/Etna/Core/Vulkan/VulkanVertexLayout.h:9-22 | appends one description at the next location and returns the offset plus the type's size |
| VertexLayout.CreateVertexLayout | source/Etna/Core/Vulkan/VulkanVertexLayout.h:64-75 | locations 0..n-1, offsets the running sums of the sizes, stride the total, per-vertex rate |
| Instance.IsExtensionAvailable | source/Etna/Core/Vulkan/VulkanInstance.cpp:11-17 | true exactly when the extension is listed |
| Instance.AllAvailable | source/Etna/Core/Vulkan/VulkanInstance.cpp:78-108 | the nested found-flag loops hold exactly when every required name is available |
| Instance.CheckInstanceExtensionsSupport | source/Etna/Core/Vulkan/VulkanInstance.cpp:78-108 | true exactly when every required extension is available |
| Instance.CheckValidationLayersSupport | source/Etna/Core/Vulkan/VulkanInstance.cpp:110-138 | true exactly when every validation layer is available |
| Instance.GetRequiredExtensions | source/Etna/Core/Vulkan/VulkanInstance.cpp:50-76 | the window's extensions, then the properties-2 extension when offered, then the debug-report extension |
| Instance.Build | source/Etna/Core/Vulkan/VulkanInstance.cpp:140-207 | errors in source order: missing validation layers, then unsupported extensions, then creation, debug-report loading and creation; the enabled layers are the validation layers exactly when validation is on; the enabled extensions are the window's, then properties-2 when offered, then debug-report |
| Device.CheckDeviceExtensionsSupport | Source/Etna/Core/Vulkan/VulkanDevice.cpp:115-131 | erasing available names from the required set leaves it empty exactly when every required extension is available |
| Device.CheckDeviceSuitable | Source/Etna/Core/Vulkan/VulkanDevice.cpp:133-148 | suitable exactly when extensions, formats, present modes and queue families all hold; details are queried only when extensions hold |
| Device.SelectPhysicalDevice | Source/Etna/Core/Vulkan/VulkanDevice.cpp:31-54 | no device is an error, otherwise the first suitable one; an error exactly when none is suitable |
| Device.AscendingOrdered | Source/Etna/Core/Vulkan/VulkanDevice.cpp:69-87 | iterating a std::set visits each element once, in increasing order |
| Device.Least | Source/Etna/Core/Vulkan/VulkanDevice.cpp:69-87 | the smallest element, where set iteration starts |
| Device.CreateQueueInfos | Source/Etna/Core/Vulkan/VulkanDevice.cpp:69-87 | one create info per distinct family, in increasing family order, each with one queue |
| Device.QueueInfosDeduplicated | Source/Etna/Core/Vulkan/VulkanDevice.cpp:69-87 | 1 to 3 infos, one queue each, strictly increasing, covering exactly the three families |
| Device.Build | Source/Etna/Core/Vulkan/VulkanDevice.cpp:23-113 | no device is NoVulkanDevice and no suitable one NoSuitableDevice; otherwise the logical device of the first suitable GPU, whose graphics, transfer and presentation families are the indices the queue-family scan returns for it; one queue info per distinct family, one queue each, strictly ascending by family; the swapchain extension; anisotropy as the revision sets it; creation failure is an error |
| RenderPass.RenderPassBuilder.constructor | source/Etna/Core/Vulkan/VulkanRenderPass.h:39-41 | no depth, the FORMAT_MAX_ENUM placeholder, no type |
| RenderPass.RenderPassBuilder.SetRTFormat | source/Etna/Core/Vulkan/VulkanRenderPass.h:27 | sets the render-target format |
| RenderPass.RenderPassBuilder.SetType | source/Etna/Core/Vulkan/VulkanRenderPass.h:33 | sets the render-pass type |
| RenderPass.RenderPassBuilder.AddDepthBuffer | source/Etna/Core/Vulkan/VulkanRenderPass.h:34 | enables the depth attachment |
| RenderPass.FirstDepthFormatUnique | source/Etna/Core/Vulkan/VulkanCore.cpp:376-382 | the first supported depth candidate is unique, so the device fixes the depth format |
| RenderPass.RenderPassBuilder.Build | source/Etna/Core/Vulkan/VulkanRenderPass.cpp:10-106 | colour attachment 0 always; with depth, attachment 1 is the depth attachment (depth cleared and stored, stencil cleared and not stored, undefined to depth/stencil-optimal) whose format is the first candidate the device supports, referenced by the subpass, plus the outgoing dependency; counts match the arrays; errors on no depth format and failed creation |
| Renderer.NewRenderPassContainer | Source/Etna/Core/Vulkan/VulkanRenderer.h:38-44 | a new container has an empty area, no framebuffers, frame index 0, a no-op delegate, and the given pass and layout |
| Renderer.DispatchEventsLength | source/Etna/Core/Vulkan/VulkanRenderer.cpp:187-199 | draining the queue records three commands per queued pass |
| Renderer.DispatchEventsAt | source/Etna/Core/Vulkan/VulkanRenderer.cpp:187-199 | the commands of the k-th queued pass are its begin, delegate call and end, in queue order |
| Renderer.DelegateBetweenBeginAndEnd | source/Etna/Core/Vulkan/VulkanRenderer.cpp:187-199 | each delegate is called between its pass's begin and end, on this frame's framebuffer |
| Renderer.Registered | source/Etna/Core/Vulkan/VulkanRenderer.cpp:234 | emplace keeps an existing container and adds a new one only for a new name |
| Renderer.AddingFramebuffersKeepsDispatchable | source/Etna/Core/Vulkan/VulkanRenderer.cpp:236-255 | giving a pass more framebuffers keeps every queued pass dispatchable |
| Renderer.Renderer.Init | source/Etna/Core/Vulkan/VulkanRenderer.cpp:17-36 | frame 0 of 2; the swapchain is built; fences (signalled) and semaphores per slot; the command pool requested on the graphics family of the queue indices, exactly when the swapchain and sync objects succeeded; command buffers; errors in source order |
| Renderer.Renderer.CreateSyncObjects | source/Etna/Core/Vulkan/VulkanRenderer.cpp:24-30 | one fence and two semaphores per frame slot, with the driver's handles; fails exactly when a creation fails |
| Renderer.Renderer.CreateFrameObjects | source/Etna/Core/Vulkan/VulkanRenderer.cpp:24-36 | sync objects first; the command pool is requested, for the given family, exactly when they all succeed; the result is Ok exactly when every creation succeeds |
| Renderer.Renderer.CreateCommandObjects | source/Etna/Core/Vulkan/VulkanRenderer.cpp:32-36 | the pool is requested for the given graphics family with the reset-command-buffer flag; then one command buffer per frame; pool failure comes before allocation failure |
| Renderer.Renderer.GetFramesCount | source/Etna/Core/Vulkan/VulkanRenderer.cpp:316-319 | for a valid renderer, MAX_FRAMES_IN_FLIGHT, which is the number of fences, of each kind of semaphore and of each kind of command buffer |
| Renderer.Renderer.GetCurrentFrame | source/Etna/Core/Vulkan/VulkanRenderer.cpp:321-324 | the current frame slot, always below the frame count |
| Renderer.Renderer.GetSwapchainImageCount | source/Etna/Core/Vulkan/VulkanRenderer.cpp:326-329 | for a valid renderer, a positive count equal to the number of swapchain images, of their views and of their acquire counters |
| Renderer.Renderer.GetSwapchainCurrentImage | source/Etna/Core/Vulkan/VulkanRenderer.cpp:287-290 | the current image, always one of the swapchain's images |
| Renderer.Renderer.Shutdown | source/Etna/Core/Vulkan/VulkanRenderer.cpp:120-140 | statistics are logged first and their error propagates; then the slots' semaphores and fences are destroyed as DestroyEvents lists them |
| Renderer.DestroyEventsAt | source/Etna/Core/Vulkan/VulkanRenderer.cpp:132-137 | Shutdown destroys each frame slot's image-available semaphore, render-finished semaphore and fence exactly once, slot by slot in that order |
| Renderer.Renderer.BeginFrame | source/Etna/Core/Vulkan/VulkanRenderer.cpp:142-159 | waits for and resets the current slot's fence, acquires an image and counts it, and reports rebuild or error as acquire classifies it |
| Renderer.Renderer.EndFrame | source/Etna/Core/Vulkan/VulkanRenderer.cpp:161-172 | the trace is the slot's reset and begin, each queued pass's begin, delegate and end, the end of recording, the GUI recording and the submit, and then a present of the current image after the render-finished semaphore; a failure cuts the trace at that step; the frame slot advances modulo the frame count only when presenting carries on |
| Renderer.Renderer.RecordCommandBuffers | source/Etna/Core/Vulkan/VulkanRenderer.cpp:174-230 | the trace grows by FrameCommands: reset, begin, each queued pass's begin, delegate and end in FIFO order, end, then the GUI recording and a submit that waits on the image-available semaphore at the colour-output stage, runs both command buffers and signals the render-finished semaphore and the slot's fence; a failed begin or end stops there with its error |
| Renderer.DispatchStep | source/Etna/Core/Vulkan/VulkanRenderer.cpp:187-199 | popping the queue front appends exactly that pass's begin, delegate and end, and the rest stays dispatchable |
| Renderer.Renderer.DispatchClientQueue | source/Etna/Core/Vulkan/VulkanRenderer.cpp:187-199 | the queue ends empty and its passes are recorded in FIFO order, three commands each |
| Renderer.Renderer.AddRenderPass | source/Etna/Core/Vulkan/VulkanRenderer.cpp:232-256 | registers the pass only under a new name; appends the driver's framebuffers, one per frame slot, each over that slot's viewport colour view and the depth view with the viewport extent, and records their creation in the trace; stops at the first failed creation with an error |
| Renderer.CreateViewportFramebuffer | source/Etna/Core/Vulkan/VulkanRenderer.cpp:243-253 | one framebuffer of the pass over a colour view and the depth view at the viewport extent, one layer; it succeeds exactly when the driver does |
| Renderer.CreateViewportFramebuffers | source/Etna/Core/Vulkan/VulkanRenderer.cpp:236-255 | frame slot i gets a framebuffer over viewport colour view i and the shared depth view, with the driver's handle; the loop stops at the first failed creation |
| Renderer.Renderer.CreateSwapchainFramebuffers | source/Etna/Core/Vulkan/VulkanRenderer.cpp:258-275 | an unknown pass is an error; otherwise one framebuffer per swapchain image over that image's view |
| Renderer.Renderer.EnqueueRenderPass | source/Etna/Core/Vulkan/VulkanRenderer.cpp:292-314 | an unknown pass is ignored and nothing changes; a missing framebuffer for this frame is an error; otherwise area, delegate and framebuffer index are set and the pass is queued |
| Application.SurvivorsAreTheStayingLayers | source/Etna/Core/Etna.cpp:361-369 | a layer survives exactly when it was there and did not ask to leave; survivors and leavers partition the list |
| Application.UpdatedLayersAppend | source/Etna/Core/Etna.cpp:361-369 | the layers updated (and shut down) by two runs of events are those of the first run, then of the second |
| Application.ReversedSameLayers | source/Etna/Core/Etna.cpp:361-369 | walking the stack back to front visits exactly the layers of the stack |
| Application.UpdatePhaseVisitsBackToFront | source/Etna/Core/Etna.cpp:361-369 | every layer is updated exactly once, last first, and exactly the leaving layers are shut down, in that same order |
| Application.Application.RenderFrame | source/Etna/Core/Etna.cpp:356-384 | the layers become the survivors in order followed by the queued layers; the queue ends empty; events are the updates, the inits, then one render per final layer |
| Application.Application.UpdateLayers | source/Etna/Core/Etna.cpp:361-369 | the backward erase loop leaves exactly the survivors, in order |
| Application.Application.AttachPushedLayers | source/Etna/Core/Etna.cpp:371-378 | the queue is drained first-in first-out, each layer initialised and appended |
| Application.Application.RenderLayers | source/Etna/Core/Etna.cpp:380-383 | every layer renders once, in list order |
| Application.MainWindow.constructor | source/Etna/Core/Etna.cpp:121-122 | no rebuild is pending at start |
| Application.MainWindow.FramePresent | source/Etna/Core/Etna.cpp:82-101 | nothing while a rebuild is pending; out-of-date or suboptimal flags a rebuild without advancing; otherwise the semaphore slot advances modulo the image count |
| Application.MainWindow.HandleRebuild | source/Etna/Core/Etna.cpp:254-264 | a pending rebuild happens only for a non-empty framebuffer, asks for at least 2 images, restarts at image 0 and clears the flag; otherwise nothing changes |
| Application.PresentAfterRebuild | source/Etna/Core/Etna.cpp:82-101 | after an out-of-date present nothing is presented until a rebuild for a non-empty framebuffer, and then image 0 is presented |
| Canvas.Registry.GetViewport | source/Etna/Layers/Canvas.cpp:62-66 | the stored viewport exactly when the id was handed out and its viewport is set, else an error |
| Canvas.Registry.SetClearColor | source/Etna/Layers/Canvas.cpp:68-72 | for a handed-out id only that background changes, to the colour with alpha 1; otherwise an error and no change |
| Canvas.Canvas.Init | source/Etna/Layers/Canvas.cpp:8-15 | the canvas takes the counter as its id, the counter goes up by one, and one empty viewport and one default background are appended |
| Canvas.Canvas.Shutdown | source/Etna/Layers/Canvas.cpp:17-21 | only this canvas's viewport is cleared, so it is no longer available |
| Canvas.Canvas.StoreViewport | source/Etna/Layers/Canvas.cpp:39-46 | rendering stores this canvas's viewport, which is then what GetViewport returns |
| Canvas.ClosedCanvasLeavesTheStack | source/Etna/Layers/Canvas.cpp:57-60 | in the application loop a canvas survives the frame exactly while its window is open, and it is shut down exactly when the window has been closed |
| Canvas.InitAll | source/Etna/Layers/Canvas.cpp:8-15 | canvases initialised in turn get consecutive ids, with one empty viewport each |
| RenderUtils.RenderQueue.AddRenderPass | source/Etna/Render/RenderUtils.cpp:11-14 | exactly one callback is appended; the list length counts the calls |
| RenderUtils.RenderQueue.DispatchRenderQueue | source/Etna/Render/RenderUtils.cpp:16-22 | every stored callback is called once, in insertion order, and none is removed |
| RenderUtils.DispatchTwice | source/Etna/Render/RenderUtils.cpp:5-22 | dispatching twice replays the same sequence twice |
| Memory.Ref.Empty | source/Etna/Core/Vulkan/VulkanMemory.h:12 | a default Ref holds null |
| Memory.Ref.Own | source/Etna/Core/Vulkan/VulkanMemory.h:13 | Ref(p) holds p |
| Memory.Ref.Move | source/Etna/Core/Vulkan/VulkanMemory.h:14 | the new Ref takes the pointer and the source is left null |
| Memory.Ref.MoveAssignAsWritten | source/Etna/Core/Vulkan/VulkanMemory.h:15-21 | self-assignment changes nothing; otherwise the pointer moves over and the source is nulled, without deleting the old one |
| Memory.Ref.MoveAssign | source/Etna/Core/Vulkan/VulkanMemory.h:15-21 | the releasing assignment: as above, and the previously held object is deleted |
| Memory.Ref.Destroy | source/Etna/Core/Vulkan/VulkanMemory.h:22 | the destructor deletes the held object; null deletes nothing |
| Memory.Ref.Get | source/Etna/Core/Vulkan/VulkanMemory.h:24-30 | Get and * return the held pointer, which is live |
| Memory.Ref.Arrow | source/Etna/Core/Vulkan/VulkanMemory.h:32-34 | -> returns the held pointer, null included |
| Memory.Unowned | source/Etna/Core/Vulkan/VulkanMemory.h:7-10 | the live objects neither of two Refs holds |
| Memory.MoveAssignLeaks | source/Etna/Core/Vulkan/VulkanMemory.h:15-21 | moving Ref(2) into Ref(1) orphans object 1 as written, and orphans nothing with the releasing assignment |
| Memory.MoveAssignKeepsOwnership | source/Etna/Core/Vulkan/VulkanMemory.h:15-21 | the releasing assignment never orphans an object |
| Memory.MoveAssignAsWrittenOrphans | source/Etna/Core/Vulkan/VulkanMemory.h:15-21 | as written, moving into a Ref that owns a different live object orphans it |
| DeviceHandle.VulkanDevice.constructor | source/Etna/Core/VulkanDevice.cpp:3-5 | stores exactly the given physical and logical handles |
| DeviceHandle.VulkanDevice.Move | source/Etna/Core/VulkanDevice.cpp:7-14 | the new object takes both handles, the source is nulled, and exactly one of them then holds the device |
| DeviceHandle.VulkanDevice.MoveAssign | source/Etna/Core/VulkanDevice.h:16-30 | self-assignment changes nothing; otherwise both handles move over and the source is nulled |

## Left out

- The Dear ImGui integration is not modelled: the GUI render pass, descriptor pool and draw calls, the docking UI, and `Canvas::Render` except the viewport it stores. It is user interface, not engine logic.
- GLFW windowing and input are not modelled. The framebuffer size read by `ChooseSwapChainExtent` and by the rebuild branch is a parameter.
- Raw Vulkan calls are not modelled. Each call is its result code and the handle or value it writes, given as a parameter. Recorded commands are events of a ghost trace.
- Fence waits and semaphore signalling are trace events only. `vkDeviceWaitIdle` (VulkanRenderer.cpp:130 in `Shutdown`, VulkanSwapchain.cpp:92 before the old chain is destroyed in `Build`) is not modelled. Real GPU/CPU synchronisation is concurrency the model does not cover.
- Floating-point values (colours, viewports, queue priorities, the statistics ratio, the minimised check) are opaque values. Nothing computes on them.
- File and image I/O, shaders, textures, buffer uploads and the pipeline builder are not part of this model. They copy bytes or fill fixed configuration structs and make no decisions.
- The lower-case `source/` swapchain file has no image counters. Only its uncounted `AcquireNextImage` is modelled; everything else follows the `Source/` file.
- Swapchain.Build: requests the corrected image count RequestedImageCount, not the rule written at VulkanSwapchain.cpp:109-115, which can exceed the maximum (see Findings; ImageCountAsWritten models the written rule).
- Swapchain.Build: requires at least one driver image and one view answer per image. The driver reports at least minImageCount >= 1 images and answers every creation call.
- Swapchain.NewChain: requires at least one driver image and one view answer per image, for the same reason.
- Swapchain.BuildWithStatistics: requires at least one driver image and one view answer per image, for the same reason.
- Swapchain.ImageCountAsWritten: does not model the uint32_t wrap of `minImageCount + 1` at 2^32 - 1. No surface reports such a minimum.
- VertexLayout.VertexLayout.AddAttribute: does not model the uint32_t wrap of the running offset. A vertex of 4 GiB is not realistic.
- Canvas.Canvas.Init: does not model the uint32_t wrap of the global canvas counter.
- Device.CheckDeviceSuitable: requires a non-null handle and one presentation answer per queue family. The driver enumerates only real devices, and the source asks once per family.
- QueueFamilies.GetQueueFamilies: requires one presentation answer per queue family, for the same reason.
- VulkanCore.ChooseMemoryType: requires at most 32 memory types. `VK_MAX_MEMORY_TYPES` is 32 and the type filter is a 32-bit mask.
- Swapchain.ChooseSwapChainExtent: requires the minimum extent to be at most the maximum when the size comes from the framebuffer. `std::clamp` is undefined otherwise, and the driver reports ordered bounds.
- Swapchain.Swapchain.LogStatistics: requires at least one counter. `std::max_element` on an empty list returns the end iterator, and dereferencing it is undefined.
- Canvas.Canvas.Shutdown: requires the canvas's id to be registered. `Init` always runs first.
- Canvas.Canvas.StoreViewport: requires the canvas's id to be registered, for the same reason.
- Memory.Ref.Get: requires a live pointer. Dereferencing an empty Ref is undefined.
- Renderer.Renderer.BeginFrame: requires an acquired image index below the image count. The driver guarantees this.
- Renderer.Renderer.CreateSyncObjects: requires one driver answer per object created. The driver answers every creation call.
- Renderer.Renderer.CreateCommandObjects: requires one command-buffer handle per frame slot, for the same reason.
- Renderer.Renderer.CreateFrameObjects: requires one driver answer per object created, for the same reason.
- `Renderer::Init` asks `GetQueueFamilies` again for the graphics family. The model uses the indices the swapchain was built with: the same physical device and surface give the same answer.
- Renderer.Renderer.AddRenderPass: requires one colour view and one driver answer per frame slot, for the same reason.
- Renderer.CreateViewportFramebuffers: requires one colour view and one driver answer per framebuffer, for the same reason.
- Renderer.Renderer.CreateSwapchainFramebuffers: requires one driver answer per swapchain image, for the same reason.
- Swapchain.ChooseSwapChainSurfaceFormat: requires a non-empty format list. `formats[0]` is undefined on an empty list, and a device is only picked when it reports at least one format.
- `debug_report` in `VulkanInstance.cpp` is defined only under `_DEBUG`, so a release build does not compile. Instance.Build models the debug build.
- `Etna.cpp` does not compile: `g_Device` and `wd` are undefined and line 138 is unfinished. Only `RenderFrame`, `FramePresent` and the rebuild branch are modelled.
- The image count and semaphore slot chosen by the GUI back end when it resizes the window are parameters of Application.MainWindow.HandleRebuild.
- `Etna.cpp` and the two renderer headers come from different revisions. The model follows the `.cpp` files and takes only types from the headers.
- `&BufferInfos.back()` and `&ImageInfos.back()` can dangle after a later `push_back`. Writes refer to their infos by index, so the model cannot show the dangling pointer.
- `depthReference` in `VulkanRenderPass.cpp` goes out of scope before `vkCreateRenderPass` reads it. The model keeps the reference as a value.
- The layout builder's map is moved into the layout, which leaves the builder empty. The model keeps the builder's map unchanged.
- When `emplace` meets an existing name in `AddRenderPass`, the discarded `RenderPassContainer` is a side effect the model does not keep. The existing container is kept, as in the source.
- `RecordCommandBuffers` never pops a queued name that is not registered, so the loop would not end. `EnqueueRenderPass` only queues registered names, so the model proves that branch is unreachable.
- Copy construction and copy assignment of `VulkanDevice` and `Ref` are deleted in the source. The model offers no copy operation.
- The destructor of `VulkanDevice` is defaulted and releases nothing. It is not modelled.
- The `InfoLog` messages and the debug-messenger object lifetime are not modelled.

## Findings

| source | as written | input that shows it | evidently intended | confidence | as-written member | corrected member |
|---|---|---|---|---|---|---|
| Source/Etna/Core/Vulkan/VulkanSwapchain.cpp:109-115 | the count becomes `maxImageCount` when `minImageCount > 0` and `minImageCount + 1 < maxImageCount`, otherwise stays `minImageCount + 1` | minImageCount = maxImageCount = 2 asks for 3 images, more than the surface allows | `minImageCount + 1`, capped at `maxImageCount` when that is non-zero | high, not executed | Swapchain.ImageCountAsWrittenExceedsMaximum | Swapchain.RequestedImageCount |
| source/Etna/Core/Vulkan/VulkanMemory.h:15-21 | move assignment overwrites `Ptr` without deleting the object it held | a Ref owning object 1 is move-assigned from a Ref owning object 2; object 1 is still allocated and no Ref holds it | delete the held object before taking the other pointer | high, not executed | Memory.MoveAssignLeaks | Memory.Ref.MoveAssign |
