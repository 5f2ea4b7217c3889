# VulkanPlayground engine core in Dafny

This project models the core of the VulkanPlayground rendering engine, a
small Vulkan 1.0 viewer written in C++, and proves properties of that model.
The engine's own logic is modelled in Dafny. The Vulkan driver is not: every
result or handle the driver would return is a parameter, and the driver calls
the engine makes are returned as a trace of `Call` values or `Release`
values.

The modules follow the engine's source files:

- `Vulkan` (vulkan.dfy): the result codes, enum values and flag bits the
  engine uses, with the values from the Vulkan headers. Handles are opaque
  natural numbers and flag masks are `bv32`. `VkCall` models the `VK_CALL`
  macro: any result other than `VK_SUCCESS` throws.
- `MemoryPool` (memory_pool.dfy): the first-fit sub-allocator.
  - Its record set, which is ordered by offset alone, is a sorted sequence.
  - `FindSlot` is the slot search. Lemmas prove it is first fit over every
    gap, including the tail gap, and that the slot it finds is free.
  - The class `MemoryPool` holds the records, size, buffer, memory and
    mapped pointer. Its methods are proved against those functions.
- `MemoryUtils` (memory_utils.dfy): the copy of records from one pool into
  records of another.
- `PhysicalDeviceProperties` (physical_device.dfy): the queue-family scan,
  the extension, feature and tiling-format checks.
- `DeviceSelection` (device_selection.dfy): the suitability test and the
  device pick. It also has the instance-extension check, both as written
  (with its `uint8_t` counter) and corrected.
- `DebugMessenger` (debug_messenger.dfy): the validation-layer check, the
  messenger entry points looked up at run time, and the log callback.
- `Swapchain` (swapchain.dfy): surface format, present mode, extent, image
  count, image sharing, and the framebuffers built over the image views.
- `Utils` (utils.dfy): the sample-count choice, memory-type search, buffer
  creation, single-time commands, buffer copy and image layout transitions.
- `FrameLoop` (frame_loop.dfy): `drawFrame` as a state machine.
  - The state is the frame slot, the resize flag and whether each slot's
    fence is signalled.
  - `Run` chains frames together.
  - The fence-reset-before-acquire hazard of the code as written is kept and
    exhibited. A corrected step is proved never to wait forever.
- `Engine` (engine.dfy): the `Engine` class with the fields its methods
  update in place, covering:
  - instance creation, device choice, logical device, command pools and
    swapchain build and rebuild;
  - framebuffers, sync objects and `drawFrame`;
  - `cleanup`, which returns the handles it releases, in order.

Three behaviours of the code are easy to miss:

- `findQueueFamilies` keeps scanning and overwrites each role, so each role
  ends up with the *last* qualifying family visited, not the first.
  `PhysicalDeviceProperties.LaterFamilyOverwrites` shows this.
- `UnhandledResult`, the catch-all failure of `allocatePool`, follows
  `MemoryMapFailed` (-5) in its enumeration, so its value is -4. That is the
  value of `VK_ERROR_DEVICE_LOST`; the model keeps it.
- The debug messenger asks for verbose, warning and error messages. The
  callback logs info, warning and error. So only warnings and errors ever
  reach the log (`DebugMessenger.OnlyWarningsAndErrorsReachTheLog`).

## Model

| member | source | states |
|---|---|---|
| Vulkan.VkCall | src/engine/engine/assert.hpp:9-14 | VK_CALL succeeds exactly on VK_SUCCESS and otherwise throws its one runtime error |
| Vulkan.ToUint32 | src/engine/engine/Engine.cpp:256-267 | a conversion to uint32_t stays below 2^32, keeps values already in range, and is congruent to its argument modulo 2^32 |
| MemoryPool.FailureResult | src/engine/engine/MemoryPool.cpp:37-75 | a failed create, allocate or bind is never reported as success or map failure; out of host or device memory keep their own code, and every other failure (exactly the others) is UnhandledResult |
| MemoryPool.WfTail | src/engine/engine/MemoryPool.hpp:65-72 | dropping the lowest record of an offset-ordered, non-overlapping set keeps the set well formed, and that record precedes every other |
| MemoryPool.WfCons | src/engine/engine/MemoryPool.hpp:65-72 | a record inside the pool that precedes every record of a well-formed set can be put in front of it |
| MemoryPool.HasOffsetCons | src/engine/engine/MemoryPool.hpp:65-72 | a set holds a record at an offset exactly when its first record or the rest does |
| MemoryPool.LookupOffset | src/engine/engine/MemoryPool.hpp:65-72 | finding by offset returns a member of the set at that offset, and nothing exactly when no record has that offset |
| MemoryPool.InsertByOffset | src/engine/engine/MemoryPool.cpp:89 | set insertion with the offset-only comparator adds nothing but the new record, loses no record, and really adds it when its offset is free |
| MemoryPool.EraseOffset | src/engine/engine/MemoryPool.cpp:105-108 | erasing by offset keeps exactly the records at other offsets and never grows the set |
| MemoryPool.FirstFittingRecord | src/engine/engine/MemoryPool.cpp:149-168 | the find_if scan stops at or after where it started and never past the last record |
| MemoryPool.FirstFittingRecordStops | src/engine/engine/MemoryPool.cpp:149-168 | no interior gap the scan passes over fits the request, and the gap it stops at does |
| MemoryPool.FindSlotIsFirstFit | src/engine/engine/MemoryPool.cpp:149-168 | a slot is found exactly when some gap, the tail gap included, fits; the slot is the start of the lowest gap that fits |
| MemoryPool.GapBounds | src/engine/engine/MemoryPool.cpp:149-168 | records before a gap end no later than its start, records after it start no earlier than its end, and every gap ends inside the pool |
| MemoryPool.FoundSlotIsFree | src/engine/engine/MemoryPool.cpp:149-168 | the range at the found slot lies inside the pool and overlaps no record |
| MemoryPool.InsertByOffsetKeepsWf | src/engine/engine/MemoryPool.cpp:84-92 | inserting a free range inside the pool keeps the set ordered, non-overlapping and inside the pool |
| MemoryPool.InsertAtOccupiedOffset | src/engine/engine/MemoryPool.cpp:89 | inserting at an offset already in the set leaves the set unchanged |
| MemoryPool.EraseOffsetKeepsWf | src/engine/engine/MemoryPool.cpp:105-108 | destroying a record keeps the set well formed |
| MemoryPool.EraseAbsentOffset | src/engine/engine/MemoryPool.cpp:105-108 | erasing an offset that no record has leaves the set unchanged |
| MemoryPool.EraseUndoesInsert | src/engine/engine/MemoryPool.cpp:84-108 | destroying a record that creation really added restores the set it was added to |
| MemoryPool.PositiveRequestGetsFreshOffset | src/engine/engine/MemoryPool.cpp:149-168 | when every record has positive size, a positive request never gets an offset already in the set |
| MemoryPool.CapacityHundredExample | src/engine/engine/MemoryPool.cpp:84-168 | in a 100-byte pool, 60 bytes go to offset 0, 50 more do not fit, and after the 60 are destroyed 50 go to offset 0 |
| MemoryPool.ZeroSizeRequestIsRecorded | src/engine/engine/MemoryPool.cpp:84-92 | as written, a zero-size request in an empty pool is granted offset 0 and recorded as {0, 0} |
| MemoryPool.ZeroSizeRecordIsShared | src/engine/engine/MemoryPool.cpp:84-92 | as written, once {0, 0} is recorded, any fitting positive request finds offset 0, its insert is refused, and it is handed the zero-size record |
| MemoryPool.MemoryPool.constructor | src/engine/engine/MemoryPool.hpp:76-79 | a new pool has no records and no mapping |
| MemoryPool.MemoryPool.FindSlotAvailableForSize | src/engine/engine/MemoryPool.cpp:149-168 | the loop with its running candidate offset and the tail test computes FindSlot |
| MemoryPool.MemoryPool.CreateResource | src/engine/engine/MemoryPool.cpp:84-92 | as written: keeps the pool invariant; with no slot the set is unchanged and nothing is returned; otherwise the set is the insert of {slot, size} and the element the insert designates is returned |
| MemoryPool.MemoryPool.CreateResourceCorrected | src/engine/engine/MemoryPool.cpp:84-92 | with zero-size requests refused: keeps the invariant and positive sizes; grants exactly when the size is positive and a slot exists; the grant is a new record of the requested size that overlaps no other, adds exactly one record, and destroying it restores the set |
| MemoryPool.MemoryPool.PointerToResource | src/engine/engine/MemoryPool.cpp:93-98 | the pointer is the mapped base plus the record's offset, and the record's bytes end inside the mapping |
| MemoryPool.MemoryPool.DestroyResource | src/engine/engine/MemoryPool.cpp:105-108 | the set becomes the erase of the record's offset and stays well formed |
| MemoryPool.MemoryPool.DeallocatePool | src/engine/engine/MemoryPool.cpp:110-118 | unmaps first exactly when mapped, then destroys the buffer and frees the memory |
| MemoryPool.MemoryPool.AllocatePool | src/engine/engine/MemoryPool.cpp:16-83 | creates the buffer first and records its handle; maps each failing step to its result code; throws exactly when no memory type fits; once the allocation is reached it records the memory handle and allocates from the lowest fitting memory type; on success records the size, binds, and maps exactly when host visible |
| MemoryUtils.Regions | src/engine/engine/memoryUtils.hpp:27-32 | one copy region per source record |
| MemoryUtils.CopyRegions | src/engine/engine/memoryUtils.hpp:27-32 | region k copies source record k to destination record k with their common size |
| MemoryUtils.CopyMemoryPoolResourceToMemoryPool | src/engine/engine/memoryUtils.hpp:18-38 | one copy command between the two pools' buffers carrying every region, between the begin and the end of one single-time command |
| MemoryUtils.DistinctRecordsDisjoint | src/engine/engine/MemoryPool.hpp:65-72 | two different records of a well-formed pool do not overlap |
| MemoryUtils.RegionsStayInsidePools | src/engine/engine/memoryUtils.hpp:27-32 | for records of well-formed pools, every region reads inside the source pool and writes inside the destination pool, and regions aimed at different records do not overlap |
| PhysicalDeviceProperties.ScanLength | src/engine/engine/PhysicalDeviceProperties.cpp:41-46 | the scan visits at least the families already visited and no more than all of them |
| PhysicalDeviceProperties.FindQueueFamilies | src/engine/engine/PhysicalDeviceProperties.cpp:10-49 | the loop's indices are, for each role, the last qualifying family among those visited before the early stop |
| PhysicalDeviceProperties.LastMatchIsLast | src/engine/engine/PhysicalDeviceProperties.cpp:21-39 | a role's index is the last qualifying family, later families do not qualify, and it is -1 exactly when none qualifies |
| PhysicalDeviceProperties.ScanLengthIsFirstStop | src/engine/engine/PhysicalDeviceProperties.cpp:41-46 | the scan stops right after the first family at which graphics and present are assigned with a distinct transfer family, and visits all families when that never happens |
| PhysicalDeviceProperties.QueueFamiliesCompleteIff | src/engine/engine/PhysicalDeviceProperties.hpp:14-17 | the chosen indices are complete exactly when some family does graphics and some family presents |
| PhysicalDeviceProperties.QueueFamiliesSound | src/engine/engine/PhysicalDeviceProperties.cpp:21-39 | every assigned role names an existing family that qualifies for that role |
| PhysicalDeviceProperties.ThreeSeparateFamilies | src/engine/engine/PhysicalDeviceProperties.cpp:10-49 | graphics-only, transfer-only and present-only families give the indices (0, 2, 1), complete and with transfer available |
| PhysicalDeviceProperties.LaterFamilyOverwrites | src/engine/engine/PhysicalDeviceProperties.cpp:21-39 | with two graphics families that both present, the later one wins both roles |
| PhysicalDeviceProperties.CheckDeviceExtensionSupport | src/engine/engine/PhysicalDeviceProperties.cpp:76-92 | true exactly when every required extension is available |
| PhysicalDeviceProperties.FindSupportedTilingFormat | src/engine/engine/PhysicalDeviceProperties.cpp:94-115 | returns the first candidate whose features for the tiling contain the request; throws exactly when none does |
| PhysicalDeviceProperties.IsDeviceContainingFeatures | src/engine/engine/PhysicalDeviceProperties.cpp:117-135 | true exactly when every required feature is present on the device |
| DeviceSelection.IsDeviceSuitable | src/engine/engine/Engine.cpp:1501-1527 | true exactly for a discrete GPU with the features and extensions, a format and a present mode, and complete queue families |
| DeviceSelection.GetBestPhysicalDevice | src/engine/engine/Engine.cpp:1528-1564 | throws on no device; otherwise returns the first suitable device; throws exactly when none is suitable |
| DeviceSelection.AreInstanceExtensionsCompatible | src/engine/engine/Engine.cpp:274-306 | corrected: success exactly when every requested extension is available, EXTENSION_NOT_PRESENT otherwise |
| DeviceSelection.AreInstanceExtensionsCompatibleAsWritten | src/engine/engine/Engine.cpp:274-306 | as written: a success or not-present answer is right; under 256 extensions it answers; with 256 or more whose first 256 are available it never returns |
| DebugMessenger.CheckValidationLayerSupport | src/engine/engine/DebugMessenger.cpp:100-128 | true exactly when every validation layer is installed |
| DebugMessenger.CreateDebugMessenger | src/engine/engine/DebugMessenger.cpp:20-36 | succeeds exactly when the entry point exists and returns success; a missing entry point throws |
| DebugMessenger.DestroyDebugMessenger | src/engine/engine/DebugMessenger.cpp:38-41 | succeeds exactly when the destroy entry point exists |
| DebugMessenger.DefaultDebugCallback | src/engine/engine/DebugMessenger.cpp:43-60 | the callback always returns VK_FALSE |
| DebugMessenger.OnlyWarningsAndErrorsReachTheLog | src/engine/engine/DebugMessenger.cpp:20-60 | of the four severities, exactly warnings and errors are both requested and logged |
| Swapchain.ChosenSurfaceFormat | src/engine/engine/Engine.cpp:1437-1455 | the preferred format exactly when any format is accepted or it is offered; otherwise the first offered format |
| Swapchain.ChosenPresentMode | src/engine/engine/Engine.cpp:1459-1477 | mailbox exactly when offered; immediate exactly when offered without mailbox; otherwise FIFO |
| Swapchain.Clamp | src/engine/engine/Engine.cpp:1479-1495 | std::max(lo, std::min(hi, v)): values in range are kept, values below lo become lo, values above an ordered hi become hi, and crossed bounds give lo |
| Swapchain.ChosenExtent | src/engine/engine/Engine.cpp:1479-1495 | the surface's current extent unless its width is the 0xFFFFFFFF sentinel; otherwise each dimension of the window is clamped into the surface's bounds: kept when inside, raised to the minimum when below, lowered to the maximum when above |
| Swapchain.ImageCount | src/engine/engine/Engine.cpp:388-394 | one more than the minimum image count, capped by a non-zero maximum |
| Swapchain.SwapchainImageSharing | src/engine/engine/Engine.cpp:407-422 | concurrent over the graphics and present families exactly when they differ, with two distinct indices; exclusive with none otherwise |
| Swapchain.FramebufferInfos | src/engine/engine/Engine.cpp:551-576 | one framebuffer per view, in order, with the render pass, the attachments followed by that view, and the extent |
| Swapchain.FramebufferInfosSnoc | src/engine/engine/Engine.cpp:551-576 | one more view adds exactly one framebuffer, at the end |
| Swapchain.FramebuffersOwnTheirView | src/engine/engine/Engine.cpp:551-576 | framebuffers over different views have different attachment lists |
| Swapchain.Resized | src/engine/engine/Engine.cpp:1232-1253 | std::vector::resize keeps the first entries and fills the new ones |
| Swapchain.Built | src/engine/engine/Engine.cpp:1334-1347 | a rebuilt swapchain record carries the chosen format, extent and present mode; its equal image, view and framebuffer counts come from the build's well-formedness |
| Swapchain.RebuiltExtentFollowsWindow | src/engine/engine/Engine.cpp:1479-1495 | after a rebuild, a surface that lets the swapchain choose and a window inside its bounds give exactly the window's extent; otherwise the surface's current extent |
| Utils.HighestSampleCount | src/engine/engine/utils.cpp:33-64 | one sample, or the highest of 32, 16, 8, 4, 2 whose bit is set; no higher count is set |
| Utils.GetMaxUsableSampleCountCorrected | src/engine/engine/utils.cpp:33-64 | corrected: a count both attachment kinds support, and no higher count is supported by both |
| Utils.SampleCountMinPicksUnsupportedCount | src/engine/engine/utils.cpp:35-36 | as written, colour {1, 4, 16} and depth {1, 4, 8} give 8 samples, which colour does not support; corrected gives 4 |
| Utils.FindMemoryType | src/engine/engine/utils.cpp:72-85 | the lowest memory type allowed by the filter with every requested property; throws exactly when none exists |
| Utils.BufferInfo | src/engine/engine/utils.cpp:105-116 | concurrent over the graphics and transfer families exactly when transfer is available, exclusive on graphics otherwise |
| Utils.BufferSharingFamiliesDistinct | src/engine/engine/utils.cpp:105-116 | a concurrent buffer names two distinct families |
| Utils.CreateBuffer | src/engine/engine/utils.cpp:86-133 | creates first; allocates exactly when the create succeeded and a memory type fits, the requirement's size from the lowest fitting type; succeeds exactly when the allocation does too, and then binds the buffer to its memory |
| Utils.SingleTimeCommandOrdering | src/engine/engine/utils.cpp:183-218 | the buffer is begun before it is submitted, submitted with no fence before the queue wait, and freed last |
| Utils.CopyBuffer | src/engine/engine/utils.cpp:307-320 | one copy of the whole size from offset 0 to offset 0 inside one single-time command |
| Utils.AspectMask | src/engine/engine/utils.cpp:250-262 | stencil exactly for a depth-stencil target with a stencil format, depth for the other depth-stencil targets, colour otherwise |
| Utils.TransitionImageLayout | src/engine/engine/utils.cpp:220-305 | succeeds exactly for the four known transitions, each with its full set of masks: UNDEFINED to TRANSFER_DST gives (0, transfer write, top of pipe, transfer); TRANSFER_DST to SHADER_READ_ONLY gives (transfer write, shader read, transfer, fragment shader); UNDEFINED to DEPTH_STENCIL_ATTACHMENT gives (0, depth-stencil read and write, top of pipe, early fragment tests); UNDEFINED to COLOR_ATTACHMENT gives (0, colour read and write, top of pipe, colour attachment output); the barrier waits on nothing at the top of the pipe exactly when leaving UNDEFINED, otherwise on the transfer's writes; it makes the image available to the new layout's access at that layout's first stage; any other pair throws invalid_argument after the command buffer was begun |
| FrameLoop.PresentStep | src/engine/engine/Engine.cpp:115-124 | the present leaves the fences as they were and the slot valid; an out-of-date or suboptimal present, or a pending resize, clears the resize flag and rebuilds, then advances the slot and reports Presented(true), or throws VK_CALL_ERROR without advancing when the rebuild fails; any other failed present throws PRESENT_ERROR and changes nothing; a successful present with no resize pending advances the slot and reports Presented(false) |
| FrameLoop.DrawFrameStep | src/engine/engine/Engine.cpp:52-125 | as written: waits forever exactly on an unsignalled fence; an out-of-date acquire resets the fence and rebuilds; a bad acquire throws; a failed submit throws VK_CALL_ERROR with the fence left reset and the slot unchanged; after a good submit the present follows PresentStep, so a failed present throws PRESENT_ERROR; a presented frame advances the slot and clears the resize flag, and implies the fence was signalled, the acquire succeeded or was suboptimal, and the submit succeeded |
| FrameLoop.DrawFrameStepCorrected | src/engine/engine/Engine.cpp:52-125 | with the reset moved after the acquire: waits forever exactly on an unsignalled fence; a presented frame advances the slot |
| FrameLoop.Run | src/engine/engine/Engine.cpp:52-125 | a run has one outcome per frame until the first that throws or waits forever, and stops there; every earlier outcome is a normal one |
| FrameLoop.CorrectedStepKeepsFencesSignalled | src/engine/engine/Engine.cpp:58-60 | corrected, a frame that starts with every fence signalled never waits and, if it does not throw, keeps every fence signalled |
| FrameLoop.CorrectedRunNeverWaitsForever | src/engine/engine/Engine.cpp:52-125 | the corrected loop never waits forever, whatever the driver answers |
| FrameLoop.OutOfDateAcquireBlocksNextFrame | src/engine/engine/Engine.cpp:58-73 | as written, after an out-of-date acquire the next frame waits forever, whatever the driver answers |
| FrameLoop.OutOfDateThenNormalFrame | src/engine/engine/Engine.cpp:58-73 | an out-of-date frame then a normal frame: as written the second waits forever, corrected it is presented |
| FrameLoop.NoOutOfDateNoWait | src/engine/engine/Engine.cpp:52-125 | as written, without an out-of-date acquire the loop never waits forever |
| FrameLoop.TwoPresentedFramesReturnToSlot | src/engine/engine/Engine.cpp:121-124 | two frames presented without errors move to the other slot and come back to the same state |
| Engine.ReleaseAll | src/engine/engine/Engine.cpp:1349-1378 | one release per handle, in order |
| Engine.SwapchainFixedReleases | src/engine/engine/Engine.cpp:1356-1370 | the eleven releases of cleanUpSwapChain between the framebuffers and the image views, exactly eleven of them; their order is stated by Engine.SwapchainReleasesOrder |
| Engine.SwapchainReleases | src/engine/engine/Engine.cpp:1349-1377 | the reference list of what cleanUpSwapChain releases: one entry per framebuffer and per image view plus twelve more (the eleven fixed releases and the swapchain); its sections are stated by Engine.SwapchainReleasesSections |
| Engine.BufferReleases | src/engine/engine/Engine.cpp:1395-1399 | the reference list of the uniform-buffer loop: two releases per slot, a buffer and its memory; positions and kinds are stated by Engine.BufferReleasesAt |
| Engine.SyncReleases | src/engine/engine/Engine.cpp:1408-1413 | the reference list of the frame-slot loop: three releases per slot; positions by Engine.SyncReleasesAt, kinds by Engine.SyncReleasesKinds |
| Engine.Engine.DeviceReleases | src/engine/engine/Engine.cpp:1380-1424 | the reference list of cleanup up to the surface: no shorter than the swapchain's releases plus two per swapchain image (uniform buffer and memory) and three per frame slot; its order is stated by Engine.Engine.DeviceReleasesOrder |
| Engine.Engine.constructor | src/engine/engine/Engine.cpp:36-50 | a new engine needs no cleanup, is at frame 0 with no resize, uses one sample, requires sample-rate shading only, and requires the debug-utils extension exactly when validation is on |
| Engine.Engine.AddRequiredExtensions | src/engine/engine/Engine.cpp:132-135 | the window system's extensions are appended |
| Engine.Engine.SetSurface | src/engine/engine/Engine.cpp:163-166 | the surface is stored |
| Engine.Engine.CreateInstance | src/engine/engine/Engine.cpp:196-249 | marks the engine as needing cleanup; succeeds exactly when the layers, extensions, instance and (with validation) the messenger are all available; stores what was created |
| Engine.Engine.PickPhysicalDevice | src/engine/engine/Engine.cpp:316-326 | throws exactly when no device is suitable; otherwise stores the first suitable device and its sample count |
| Engine.Engine.CreateLogicalDevice | src/engine/engine/Engine.cpp:328-376 | stores the device's queue families, asks for one queue per distinct family, and stores the device and queues exactly when the create succeeds |
| Engine.Engine.CreateCommandPool | src/engine/engine/Engine.cpp:758-778 | a graphics pool, and a transfer pool exactly when transfer is available; succeeds exactly when the pools it creates are created |
| Engine.Engine.GetTransferQueue | src/engine/engine/Engine.cpp:168-175 | the transfer queue when transfer is available, the graphics queue otherwise |
| Engine.Engine.GetCommandPoolTransfer | src/engine/engine/Engine.cpp:182-189 | the transfer pool when transfer is available, the graphics pool otherwise |
| Engine.Engine.ResizeExtent | src/engine/engine/Engine.cpp:256-267 | an unchanged size (after uint32_t conversion) changes nothing; otherwise stores the size, flags a resize and stores the new surface support |
| Engine.Engine.ChooseSwapSurfaceFormat | src/engine/engine/Engine.cpp:1437-1455 | the loop stores ChosenSurfaceFormat and changes nothing else |
| Engine.Engine.ChooseSwapPresentMode | src/engine/engine/Engine.cpp:1459-1477 | the loop stores ChosenPresentMode and changes nothing else |
| Engine.Engine.ChooseSwapExtent | src/engine/engine/Engine.cpp:1479-1495 | stores ChosenExtent for the window extent and changes nothing else |
| Engine.Engine.CreateSwapChain | src/engine/engine/Engine.cpp:378-445 | makes the three choices; succeeds exactly when the create does, with the image count and sharing derived from them; stores the swapchain, images and views exactly then |
| Engine.Engine.CreateFramebuffers | src/engine/engine/Engine.cpp:551-576 | succeeds exactly when every create does, building FramebufferInfos; otherwise the first failing create throws, after the earlier framebuffers were stored |
| Engine.Engine.CleanUpSwapChain | src/engine/engine/Engine.cpp:1349-1378 | releases exactly SwapchainReleases, in order, whose order the lemmas beside it state |
| Engine.Engine.RecreateSwapChain | src/engine/engine/Engine.cpp:1334-1347 | releases the old swapchain resources; succeeds exactly when every build call does, storing the rebuilt swapchain and its render pass, pipeline, attachments and command buffers; a failed swapchain create keeps the old objects; a later failure keeps the old command buffers |
| Engine.Engine.CreateSyncObjects | src/engine/engine/Engine.cpp:1232-1253 | succeeds exactly when all six creates do, storing each slot's two semaphores and fence in creation order with both fences signalled; on failure the first failing create throws, and exactly the handles created before it are stored and exactly their fences signalled |
| Engine.CommandBuffersRecreated | src/engine/engine/Engine.cpp:1116-1128 | after the reallocation the primary vector has one entry per framebuffer, holding the driver's handles, or all null when its allocation failed, in which case the secondary vector is not touched; after a good primary allocation the secondary vector likewise has one entry per framebuffer, handles or all null; nothing but the two vectors changes |
| Engine.Engine.RecreateCommandBuffer | src/engine/engine/Engine.cpp:881-892 | the primary and then the secondary command buffers are released to the graphics pool; the call succeeds exactly when both allocations do, throws VK_CALL_ERROR otherwise, and leaves the vectors as CommandBuffersRecreated gives them |
| Engine.Engine.CheckApplicationState | src/engine/engine/Engine.cpp:1255-1272 | with the model-modified flag unset nothing changes and nothing is released; with it set the command buffers are recreated, and the flag is cleared exactly when that succeeds; the material flag is never changed |
| Engine.Engine.PresentFrame | src/engine/engine/Engine.cpp:115-124 | the engine's frame state follows PresentStep, and the swapchain is rebuilt exactly when the present asks for it or a resize is pending |
| Engine.Engine.DrawFrame | src/engine/engine/Engine.cpp:52-125 | a failed command-buffer recreation throws VK_CALL_ERROR before the fence is looked at, with the frame state, the flags and the swapchain unchanged; otherwise the model-modified flag is cleared, the engine's frame state and result follow DrawFrameStep, a successful swapchain rebuild stores the rebuilt swapchain, and without one the swapchain is untouched except for the recreated command buffers |
| Engine.Engine.Cleanup | src/engine/engine/Engine.cpp:1380-1433 | a second cleanup releases nothing; the first releases what DeviceReleases lists, then with validation the messenger, and the instance last; a missing destroy entry point throws and the instance is never destroyed |
| DebugMessenger.CreateDebugUtilMessengerEXT | src/engine/engine/DebugMessenger.cpp:64-80 | success exactly when the looked-up create entry point exists and returns success; the entry point's own result when it exists; EXTENSION_NOT_PRESENT when it does not |
| DebugMessenger.DestroyDebugUtilMessengerEXT | src/engine/engine/DebugMessenger.cpp:85-98 | success exactly when the destroy entry point exists; EXTENSION_NOT_PRESENT when it does not |
| Utils.GetMaxUsableSampleCount | src/engine/engine/utils.cpp:33-64 | as written: one sample or one of 32, 16, 8, 4, 2, supported by the numerically smaller of the two masks, with none of 32, 16, 8, 4, 2 above the result set in that mask |
| Utils.SampleCountAgreesWhenColorNested | src/engine/engine/utils.cpp:33-64 | when every colour count is also a depth count, the count as written equals the corrected one |
| Utils.HasStencilComponent | src/engine/engine/utils.cpp:66-70 | true exactly for the formats D16_UNORM_S8_UINT to D32_SFLOAT_S8_UINT, never for D32_SFLOAT |
| Utils.BeginSingleTimeCommands | src/engine/engine/utils.cpp:183-203 | allocates one command buffer from the given pool, then begins it; nothing is submitted or freed |
| Utils.EndSingleTimeCommands | src/engine/engine/utils.cpp:205-218 | ends the buffer first; every submission has no fence and is followed by a queue wait; the buffer is freed back to its pool last |
| Utils.UploadChainSynchronised | src/engine/engine/utils.cpp:264-300 | UNDEFINED to TRANSFER_DST and TRANSFER_DST to SHADER_READ_ONLY are both known, and the second waits on exactly the access and the stage the first made the image available to |
| Engine.SwapchainReleasesSections | src/engine/engine/Engine.cpp:1349-1378 | position by position, the release list is the framebuffers, the eleven fixed releases, the swapchain image views, then the swapchain |
| Engine.SwapchainReleasesOrder | src/engine/engine/Engine.cpp:1349-1370 | every framebuffer first, and none later; then the secondary and primary command buffers; the depth view, image and memory; the colour view, image and memory; the pipeline, its layout and the render pass |
| Engine.SwapchainReleasedLast | src/engine/engine/Engine.cpp:1372-1377 | every swapchain image view is released, and the swapchain is released last and nowhere else |
| Engine.SwapchainReleasesFromDevice | src/engine/engine/Engine.cpp:1349-1378 | cleanUpSwapChain releases only objects made from the device |
| Engine.BufferReleasesAt | src/engine/engine/Engine.cpp:1395-1399 | slot k's uniform buffer is released at 2k and its memory right after it, and nothing else is released |
| Engine.SyncReleasesAt | src/engine/engine/Engine.cpp:1408-1413 | for every slot k below the count, slot k's image-available and render-finished semaphores are released at 3k and 3k + 1 and its fence at 3k + 2 |
| Engine.SyncReleasesKinds | src/engine/engine/Engine.cpp:1408-1413 | the slot loop releases nothing but semaphores and fences |
| Engine.ReleaseBuffers | src/engine/engine/Engine.cpp:1395-1399 | the loop releases exactly BufferReleases |
| Engine.ReleaseSyncObjects | src/engine/engine/Engine.cpp:1408-1413 | the loop releases exactly SyncReleases |
| Engine.CreateFrameSyncObjects | src/engine/engine/Engine.cpp:1246-1251 | one slot: on success its three creates succeeded and it holds the new handles and a signalled fence; otherwise the first failing create throws, with exactly the handles created before it stored |
| Engine.Engine.DeviceReleasesOrder | src/engine/engine/Engine.cpp:1380-1424 | the swapchain releases come first and the device then the surface last; everything before them is made from the device; every semaphore, fence, uniform buffer and uniform memory is released, and every command pool created |
| Engine.Engine.DeviceReleasesShape | src/engine/engine/Engine.cpp:1380-1424 | the swapchain releases are a prefix, the device and the surface end the list, and every earlier release is made from the device |
| Engine.Engine.DeviceReleasesSync | src/engine/engine/Engine.cpp:1408-1413 | both semaphores and the fence of every frame slot are released |
| Engine.Engine.DeviceReleasesUniformsAndPools | src/engine/engine/Engine.cpp:1395-1421 | every uniform buffer and its memory is released, and so is the graphics pool, and the transfer pool exactly when it was created |
| Engine.Engine.ReleaseDeviceObjects | src/engine/engine/Engine.cpp:1385-1424 | cleanup's releases up to the surface are exactly DeviceReleases |

## Left out

- Mesh and image loading (DataIO, Mesh), the camera, the scene, descriptor
  sets and the user interface are not part of this model. The constructor's
  mesh load, and the exception it throws on a missing file, are left out.
- updateUniformBuffer, updatePrimaryCommandBuffers and the recording of
  command buffers are left out. These are matrix arithmetic and
  driver-struct filling that change none of the modelled state.
- GPU concurrency is not modelled. A fence is a flag. A submission counts as
  signalling its fence, because drawFrame waits for the queue to be idle
  before it returns. Semaphore handles are created and released, but their
  signalling is not modelled.
- checkApplicationState's walk over the two ApplicationStateChange flags by
  pointer arithmetic is modelled by its outcome: only the model-modified flag
  is acted on.
- Engine.Engine.RecreateCommandBuffer: the vkDeviceWaitIdle before the frees
  is not modelled, and neither are the VK_CALLs of vkBeginCommandBuffer and
  vkEndCommandBuffer while the secondary buffers are recorded, which could
  also throw; the model treats the recording as always succeeding.
- Engine.CommandBuffersRecreated: the entries of a vector whose allocation
  failed are taken to be null, as the Vulkan specification's description
  of vkAllocateCommandBuffers requires of the driver.
- querySwapChainSupport and every other driver query are inputs: the
  surface's capabilities, formats and present modes come in a
  `SwapchainSupportDetails`.
- Image, image-view, render-pass, pipeline, attachment and command-buffer
  creation are not modelled. Their handles are inputs of
  `Swapchain.SwapchainBuild`, the render pass, pipeline, attachments and
  command buffers in its `objects`.
- Descriptor pools and layout, uniform buffers and the mesh buffers are
  created by code outside this model. The engine holds their handles as
  fields, and cleanup releases them.
- Swapchain.Built: the numbers of images, views and framebuffers are driver
  inputs, which `SwapchainBuild.WellFormed` requires to be equal; they are
  not derived from one another. `Swapchain.RebuiltExtentFollowsWindow` states
  the rebuilt extent.
- Engine.Engine.Cleanup: requires the three sync vectors to hold a slot per
  frame in flight and the uniform vectors an entry per swapchain image. The
  code indexes them unconditionally, which is out of bounds when
  initialisation stopped before createSyncObjects.
- Fields the C++ leaves uninitialised start at 0 or the null handle.
- The results of vkMapMemory and of the bind in createBuffer are ignored by
  the code, and so by the model.
- Logger output and the assertion macros other than VK_CALL are left out.
  The debug callback's outcome records the level it would log at.
- Engine.Engine.DrawFrame: after a rebuild that throws, the model does not
  state the swapchain fields. Which of them were already replaced depends on
  the step that failed, and Engine.Engine.RecreateSwapChain states that part.
- Engine.Engine.RecreateSwapChain: when the swapchain is created but a later
  step (the framebuffers) throws, the state of the swapchain record is not
  stated, and the command buffers freed by the cleanup stay recorded.
- Engine.Engine.CreateInstance: the instance handle is stored only when the
  create succeeds; the value vkCreateInstance writes on failure is not
  modelled. The extension check it uses is the corrected
  `DeviceSelection.AreInstanceExtensionsCompatible`. With 256 or more
  required extensions whose first 256 are available, the code as written
  never returns, and the model does not capture that.
  `DeviceSelection.AreInstanceExtensionsCompatibleAsWritten` has that
  behaviour, and it answers like the corrected check below 256.
- DeviceSelection.AreInstanceExtensionsCompatibleAsWritten: a `fuel` bound
  stands for the loop that never ends; `None` means it was still running.
- Engine.Engine.PickPhysicalDevice: the sample count stored is the one the
  code computes (the numeric minimum of the two masks), not the corrected
  one.
- The engine's main loop, the window system and main.cpp are not part of
  this model.

## Findings

| source | as written | input that shows it | evidently intended | confidence | as-written member | corrected member |
|---|---|---|---|---|---|---|
| src/engine/engine/MemoryPool.cpp:84-92 | a zero-size request is granted and recorded as {slot, 0}; a later positive request at that offset is refused by the set and handed the zero-size record | empty 100-byte pool: create(0), then create(10) twice | a granted request is a new record of the requested size that overlaps no other | not executed | MemoryPool.ZeroSizeRecordIsShared | MemoryPool.MemoryPool.CreateResourceCorrected |
| src/engine/engine/Engine.cpp:274-306 | the loop counter is a uint8_t, so it wraps after 255 and the loop starts over | 256 requested extensions, all available | every requested extension is checked once, then success | not executed | DeviceSelection.AreInstanceExtensionsCompatibleAsWritten | DeviceSelection.AreInstanceExtensionsCompatible |
| src/engine/engine/utils.cpp:35-36 | the usable sample counts are the numeric minimum of the colour and depth masks | colour {1, 4, 16}, depth {1, 4, 8}: 8 samples, which colour does not support | the bitwise intersection of the two masks | not executed | Utils.SampleCountMinPicksUnsupportedCount | Utils.GetMaxUsableSampleCountCorrected |
| src/engine/engine/Engine.cpp:58-73 | the frame's fence is reset before the acquire; an out-of-date acquire returns with it reset and nothing submitted | an out-of-date acquire, then any frame on the same slot | reset the fence only once the frame will be submitted | not executed | FrameLoop.OutOfDateAcquireBlocksNextFrame | FrameLoop.DrawFrameStepCorrected |
