/** The engine object: its life cycle (instance creation, device choice,
    swapchain build and rebuild, cleanup), the frame loop that draws with it,
    and the fallbacks to the graphics queue and command pool when there is no
    separate transfer family. Results and handles the driver gives are
    parameters; the handles the engine releases are returned in order. */
module Engine {
  import opened Vulkan
  import opened PhysicalDeviceProperties
  import opened Swapchain
  import opened DeviceSelection
  import FrameLoop
  import DebugMessenger
  import Utils

  /** ApplicationStateChange: what the user interface changed since the last
      frame. */
  datatype ApplicationStateChange = ApplicationStateChange(materialModified: bool, modelModified: bool)

  /** What the driver answers when recreateCommandBuffer allocates the
      primary and then the secondary command buffers again: each
      vkAllocateCommandBuffers result and the handles it writes. */
  datatype CommandBufferRebuild = CommandBufferRebuild(
    primaryResult: VkResult, primary: seq<Handle>,
    secondaryResult: VkResult, secondary: seq<Handle>)
  {
    predicate Succeeds() {
      primaryResult == VK_SUCCESS && secondaryResult == VK_SUCCESS
    }
  }

  /** The command-buffer vectors after recreateCommandBuffer with `n`
      framebuffers: each vector is resized to `n` and its entries are
      written by the allocation, the driver's handles in order. A failed
      vkAllocateCommandBuffers leaves every entry of its vector null, and
      when the primary allocation fails the secondary vector is not
      reallocated. Nothing else changes. */
  function CommandBuffersRecreated(objects: SwapchainObjects, rebuild: CommandBufferRebuild, n: nat): (recreated: SwapchainObjects)
    ensures recreated.(primaryCommandBuffers := objects.primaryCommandBuffers,
                       secondaryCommandBuffers := objects.secondaryCommandBuffers) == objects
    ensures |recreated.primaryCommandBuffers| == n
    ensures rebuild.primaryResult == VK_SUCCESS ==>
      forall i :: 0 <= i < n && i < |rebuild.primary| ==> recreated.primaryCommandBuffers[i] == rebuild.primary[i]
    ensures rebuild.primaryResult != VK_SUCCESS ==>
      && (forall i :: 0 <= i < n ==> recreated.primaryCommandBuffers[i] == NULL_HANDLE)
      && recreated.secondaryCommandBuffers == objects.secondaryCommandBuffers
    ensures rebuild.primaryResult == VK_SUCCESS ==> |recreated.secondaryCommandBuffers| == n
    ensures rebuild.Succeeds() ==>
      forall i :: 0 <= i < n && i < |rebuild.secondary| ==> recreated.secondaryCommandBuffers[i] == rebuild.secondary[i]
    ensures rebuild.primaryResult == VK_SUCCESS && rebuild.secondaryResult != VK_SUCCESS ==>
      forall i :: 0 <= i < n ==> recreated.secondaryCommandBuffers[i] == NULL_HANDLE
  {
    if rebuild.primaryResult != VK_SUCCESS then
      objects.(primaryCommandBuffers := seq(n, _ => NULL_HANDLE))
    else if rebuild.secondaryResult != VK_SUCCESS then
      objects.(primaryCommandBuffers := Resized(rebuild.primary, n, NULL_HANDLE),
               secondaryCommandBuffers := seq(n, _ => NULL_HANDLE))
    else
      objects.(primaryCommandBuffers := Resized(rebuild.primary, n, NULL_HANDLE),
               secondaryCommandBuffers := Resized(rebuild.secondary, n, NULL_HANDLE))
  }

  /** A handle the engine destroys or frees; CommandBuffers is one
      vkFreeCommandBuffers of a whole vector back to its pool. */
  datatype Release =
    | Framebuffer(handle: Handle)
    | CommandBuffers(pool: Handle, commandBuffers: seq<Handle>)
    | ImageView(handle: Handle)
    | Image(handle: Handle)
    | Memory(handle: Handle)
    | Pipeline(handle: Handle)
    | PipelineLayout(handle: Handle)
    | RenderPass(handle: Handle)
    | SwapchainKHR(handle: Handle)
    | DescriptorPool(handle: Handle)
    | DescriptorSetLayout(handle: Handle)
    | Buffer(handle: Handle)
    | Semaphore(handle: Handle)
    | Fence(handle: Handle)
    | CommandPool(handle: Handle)
    | DebugUtilsMessenger(handle: Handle)
    | Device(handle: Handle)
    | Surface(handle: Handle)
    | Instance(handle: Handle)

  /** A release of an object made from the logical device, which must come
      before the device itself is destroyed. */
  predicate DeviceChild(r: Release) {
    !(r.Device? || r.Surface? || r.DebugUtilsMessenger? || r.Instance?)
  }

  /** The vertex and index buffers of the loaded mesh and their memory. */
  datatype MeshBuffers = MeshBuffers(vertexBuffer: Handle, vertexBufferMemory: Handle,
                                     indexBuffer: Handle, indexBufferMemory: Handle)

  const DEBUG_UTILS_EXTENSION_NAME: string := "VK_EXT_debug_utils"

  /** DEVICE_EXTENSIONS: the swapchain extension. */
  const DEVICE_EXTENSIONS: seq<string> := ["VK_KHR_swapchain"]

  /** Position of sampleRateShading among the members of VkPhysicalDeviceFeatures. */
  const SAMPLE_RATE_SHADING: nat := 6

  /** The features the engine requires: sample-rate shading only. */
  const REQUIRED_DEVICE_FEATURES: seq<VkBool32> :=
    seq(FEATURE_COUNT, i => if i == SAMPLE_RATE_SHADING then VK_TRUE else VK_FALSE)

  /** Releasing each handle of `handles` in order. */
  function ReleaseAll(handles: seq<Handle>, release: Handle -> Release): (released: seq<Release>)
    ensures |released| == |handles|
    ensures forall k :: 0 <= k < |handles| ==> released[k] == release(handles[k])
  {
    seq(|handles|, k requires 0 <= k < |handles| => release(handles[k]))
  }

  /** The releases of cleanUpSwapChain between the framebuffers and the
      swapchain image views. */
  function SwapchainFixedReleases(objects: SwapchainObjects, commandPool: Handle): (released: seq<Release>)
    ensures |released| == 11
  {
    [CommandBuffers(commandPool, objects.secondaryCommandBuffers), CommandBuffers(commandPool, objects.primaryCommandBuffers),
     ImageView(objects.depthImageView), Image(objects.depthImage), Memory(objects.depthImageMemory),
     ImageView(objects.colorImageView), Image(objects.colorImage), Memory(objects.colorImageMemory),
     Pipeline(objects.graphicsPipeline), PipelineLayout(objects.pipelineLayout), RenderPass(objects.renderPass)]
  }

  /** What cleanUpSwapChain releases, in order: every framebuffer; the
      secondary then the primary command buffers, back to `commandPool`;
      the depth attachment's view, image and memory, then the colour
      attachment's; the pipeline, its layout and the render pass; every
      swapchain image view; and last the swapchain itself. */
  function SwapchainReleases(data: SwapchainData, objects: SwapchainObjects, commandPool: Handle)
    : (released: seq<Release>)
    ensures |released| == |data.framebuffers| + |data.imageViews| + 12
  {
    ReleaseAll(data.framebuffers, (h: Handle) => Framebuffer(h))
    + SwapchainFixedReleases(objects, commandPool)
    + ReleaseAll(data.imageViews, (h: Handle) => ImageView(h))
    + [SwapchainKHR(data.swapchain)]
  }

  /** The three sections of cleanUpSwapChain's release list: the
      framebuffers, the eleven fixed releases, the swapchain image views, and
      then the swapchain. */
  lemma SwapchainReleasesSections(data: SwapchainData, objects: SwapchainObjects, commandPool: Handle)
    ensures var released := SwapchainReleases(data, objects, commandPool);
            var n := |data.framebuffers|;
      forall k :: 0 <= k < |released| ==>
        && (k < n ==> released[k] == Framebuffer(data.framebuffers[k]))
        && (n <= k < n + 11 ==> released[k] == SwapchainFixedReleases(objects, commandPool)[k - n])
        && (n + 11 <= k < |released| - 1 ==> released[k] == ImageView(data.imageViews[k - n - 11]))
        && (k == |released| - 1 ==> released[k] == SwapchainKHR(data.swapchain))
  {
    var released := SwapchainReleases(data, objects, commandPool);
    var n := |data.framebuffers|;
    var framebuffers := ReleaseAll(data.framebuffers, (h: Handle) => Framebuffer(h));
    var middle := SwapchainFixedReleases(objects, commandPool);
    var views := ReleaseAll(data.imageViews, (h: Handle) => ImageView(h));
    assert released == framebuffers + middle + views + [SwapchainKHR(data.swapchain)];
    forall k | 0 <= k < |released|
      ensures k < n ==> released[k] == Framebuffer(data.framebuffers[k])
      ensures n <= k < n + 11 ==> released[k] == middle[k - n]
      ensures n + 11 <= k < |released| - 1 ==> released[k] == ImageView(data.imageViews[k - n - 11])
      ensures k == |released| - 1 ==> released[k] == SwapchainKHR(data.swapchain)
    {
      if k < n {
        assert released[k] == framebuffers[k];
      } else if k < n + 11 {
        assert released[k] == middle[k - n];
      } else if k < |released| - 1 {
        assert released[k] == views[k - n - 11];
      }
    }
  }

  /** The order of cleanUpSwapChain's releases: framebuffers first, so each
      goes before the render pass and the views it was created over; the
      command buffers; each attachment's view, then its image, then its
      memory; the pipeline before its layout and the render pass. */
  lemma SwapchainReleasesOrder(data: SwapchainData, objects: SwapchainObjects, commandPool: Handle)
    ensures var released := SwapchainReleases(data, objects, commandPool);
            var n := |data.framebuffers|;
      && (forall k :: 0 <= k < n ==> released[k] == Framebuffer(data.framebuffers[k]))
      && (forall k :: n <= k < |released| ==> !released[k].Framebuffer?)
      && released[n] == CommandBuffers(commandPool, objects.secondaryCommandBuffers)
      && released[n + 1] == CommandBuffers(commandPool, objects.primaryCommandBuffers)
      && released[n + 2] == ImageView(objects.depthImageView) && released[n + 3] == Image(objects.depthImage)
      && released[n + 4] == Memory(objects.depthImageMemory)
      && released[n + 5] == ImageView(objects.colorImageView) && released[n + 6] == Image(objects.colorImage)
      && released[n + 7] == Memory(objects.colorImageMemory)
      && released[n + 8] == Pipeline(objects.graphicsPipeline) && released[n + 9] == PipelineLayout(objects.pipelineLayout)
      && released[n + 10] == RenderPass(objects.renderPass)
  {
    SwapchainReleasesSections(data, objects, commandPool);
  }

  /** Every swapchain image view is released, and the swapchain is released
      last and only there. */
  lemma SwapchainReleasedLast(data: SwapchainData, objects: SwapchainObjects, commandPool: Handle)
    ensures var released := SwapchainReleases(data, objects, commandPool);
      && (forall v :: v in data.imageViews ==> ImageView(v) in released)
      && released[|released| - 1] == SwapchainKHR(data.swapchain)
      && (forall k :: 0 <= k < |released| - 1 ==> !released[k].SwapchainKHR?)
  {
    var released := SwapchainReleases(data, objects, commandPool);
    SwapchainReleasesSections(data, objects, commandPool);
    forall v | v in data.imageViews
      ensures ImageView(v) in released
    {
      var j :| 0 <= j < |data.imageViews| && data.imageViews[j] == v;
      assert released[|data.framebuffers| + 11 + j] == ImageView(v);
    }
  }

  /** cleanUpSwapChain releases only objects made from the device. */
  lemma SwapchainReleasesFromDevice(data: SwapchainData, objects: SwapchainObjects, commandPool: Handle)
    ensures var released := SwapchainReleases(data, objects, commandPool);
      forall k :: 0 <= k < |released| ==> DeviceChild(released[k])
  {
  }

  /** For each of the first `n` slots, the buffer and then its memory. */
  function BufferReleases(buffers: seq<Handle>, memories: seq<Handle>, n: nat): (released: seq<Release>)
    requires n <= |buffers| && n <= |memories|
    ensures |released| == 2 * n
  {
    if n == 0 then [] else BufferReleases(buffers, memories, n - 1) + [Buffer(buffers[n - 1]), Memory(memories[n - 1])]
  }

  /** Slot k's buffer is at 2k and its memory right after it, and nothing
      else is released. */
  lemma {:induction false} BufferReleasesAt(buffers: seq<Handle>, memories: seq<Handle>, n: nat)
    requires n <= |buffers| && n <= |memories|
    ensures var released := BufferReleases(buffers, memories, n);
      && (forall k :: 0 <= k < n ==> released[2 * k] == Buffer(buffers[k]) && released[2 * k + 1] == Memory(memories[k]))
      && (forall k :: 0 <= k < |released| ==> released[k].Buffer? || released[k].Memory?)
  {
    if n > 0 {
      BufferReleasesAt(buffers, memories, n - 1);
      var previous := BufferReleases(buffers, memories, n - 1);
      var released := BufferReleases(buffers, memories, n);
      assert released == previous + [Buffer(buffers[n - 1]), Memory(memories[n - 1])];
      forall k | 0 <= k < |released|
        ensures k < 2 * (n - 1) ==> released[k] == previous[k]
      {
      }
    }
  }

  /** For each of the first `n` frame slots, the image-available semaphore,
      the render-finished semaphore and the in-flight fence. */
  function SyncReleases(imageAvailable: seq<Handle>, renderFinished: seq<Handle>, fences: seq<Handle>, n: nat)
    : (released: seq<Release>)
    requires n <= |imageAvailable| && n <= |renderFinished| && n <= |fences|
    ensures |released| == 3 * n
  {
    if n == 0 then []
    else SyncReleases(imageAvailable, renderFinished, fences, n - 1)
         + [Semaphore(imageAvailable[n - 1]), Semaphore(renderFinished[n - 1]), Fence(fences[n - 1])]
  }

  /** Slot `slot`'s two semaphores are at 3 slot and 3 slot + 1 and its
      fence right after them. */
  lemma {:induction false} SyncReleasesAt(imageAvailable: seq<Handle>, renderFinished: seq<Handle>, fences: seq<Handle>,
                                          n: nat, slot: nat)
    requires n <= |imageAvailable| && n <= |renderFinished| && n <= |fences| && slot < n
    ensures var released := SyncReleases(imageAvailable, renderFinished, fences, n);
      && released[3 * slot] == Semaphore(imageAvailable[slot])
      && released[3 * slot + 1] == Semaphore(renderFinished[slot])
      && released[3 * slot + 2] == Fence(fences[slot])
  {
    var previous := SyncReleases(imageAvailable, renderFinished, fences, n - 1);
    var released := SyncReleases(imageAvailable, renderFinished, fences, n);
    assert released == previous + [Semaphore(imageAvailable[n - 1]), Semaphore(renderFinished[n - 1]), Fence(fences[n - 1])];
    if slot < n - 1 {
      SyncReleasesAt(imageAvailable, renderFinished, fences, n - 1, slot);
      assert 3 * slot + 2 < |previous|;
    }
  }

  /** Every release in `released` is of a semaphore or a fence. */
  predicate OnlySyncObjects(released: seq<Release>)
  {
    forall k :: 0 <= k < |released| ==> released[k].Semaphore? || released[k].Fence?
  }

  /** Only semaphores and fences are released. */
  lemma {:induction false} SyncReleasesKinds(imageAvailable: seq<Handle>, renderFinished: seq<Handle>, fences: seq<Handle>, n: nat)
    requires n <= |imageAvailable| && n <= |renderFinished| && n <= |fences|
    ensures OnlySyncObjects(SyncReleases(imageAvailable, renderFinished, fences, n))
  {
    if n > 0 {
      SyncReleasesKinds(imageAvailable, renderFinished, fences, n - 1);
      var previous := SyncReleases(imageAvailable, renderFinished, fences, n - 1);
      var released := SyncReleases(imageAvailable, renderFinished, fences, n);
      var last := [Semaphore(imageAvailable[n - 1]), Semaphore(renderFinished[n - 1]), Fence(fences[n - 1])];
      assert released == previous + last;
      forall k | 0 <= k < |released|
        ensures released[k].Semaphore? || released[k].Fence?
      {
        if k < |previous| {
          assert released[k] == previous[k];
        } else {
          assert released[k] == last[k - |previous|];
        }
      }
    }
  }

  /** The handles of one kind (0: image-available semaphore, 1:
      render-finished semaphore, 2: in-flight fence) once the first `m` of
      createSyncObjects' creations have run: the created handle where its
      creation ran, the resized vector's entry elsewhere. */
  function SyncHandles(created: seq<Handle>, kind: nat, m: nat, initial: seq<Handle>): seq<Handle>
    requires |created| == 3 * FrameLoop.MAX_FRAMES_IN_FLIGHT && kind < 3 && |initial| == FrameLoop.MAX_FRAMES_IN_FLIGHT
  {
    seq(FrameLoop.MAX_FRAMES_IN_FLIGHT, slot requires 0 <= slot < FrameLoop.MAX_FRAMES_IN_FLIGHT =>
      if 3 * slot + kind < m then created[3 * slot + kind] else initial[slot])
  }

  /** Which in-flight fences are signalled once the first `m` creations
      have run: a fence is created signalled, so its slot is signalled from
      its creation (number 3 * slot + 2) on; the resized vector's entry
      stands before that. */
  function FencesSignalled(m: nat, initial: seq<bool>): seq<bool>
    requires |initial| == FrameLoop.MAX_FRAMES_IN_FLIGHT
  {
    seq(FrameLoop.MAX_FRAMES_IN_FLIGHT, slot requires 0 <= slot < FrameLoop.MAX_FRAMES_IN_FLIGHT =>
      3 * slot + 2 < m || initial[slot])
  }

  /** Running creation 3 * slot + kind stores its handle in `slot` of that
      kind and changes no other entry. */
  lemma SyncHandlesStep(created: seq<Handle>, kind: nat, slot: nat, step: nat, initial: seq<Handle>)
    requires |created| == 3 * FrameLoop.MAX_FRAMES_IN_FLIGHT && kind < 3 && |initial| == FrameLoop.MAX_FRAMES_IN_FLIGHT
    requires slot < FrameLoop.MAX_FRAMES_IN_FLIGHT && step < 3
    ensures SyncHandles(created, kind, 3 * slot + step + 1, initial) ==
      if step == kind then SyncHandles(created, kind, 3 * slot + step, initial)[slot := created[3 * slot + step]]
      else SyncHandles(created, kind, 3 * slot + step, initial)
  {
    var before, after := SyncHandles(created, kind, 3 * slot + step, initial), SyncHandles(created, kind, 3 * slot + step + 1, initial);
    forall other | 0 <= other < FrameLoop.MAX_FRAMES_IN_FLIGHT
      ensures after[other] == if step == kind && other == slot then created[3 * slot + step] else before[other]
    {
      assert (3 * other + kind == 3 * slot + step) <==> (step == kind && other == slot);
    }
  }

  /** SyncHandlesStep for the three kinds at once, and the fence of `slot`
      signalled when the creation is that slot's fence. */
  lemma StoreSyncHandle(created: seq<Handle>, slot: nat, step: nat, available: seq<Handle>, finished: seq<Handle>,
                        fences: seq<Handle>, signalled: seq<bool>)
    requires |created| == 3 * FrameLoop.MAX_FRAMES_IN_FLIGHT && slot < FrameLoop.MAX_FRAMES_IN_FLIGHT && step < 3
    requires |available| == |finished| == |fences| == |signalled| == FrameLoop.MAX_FRAMES_IN_FLIGHT
    ensures var m := 3 * slot + step;
      && SyncHandles(created, 0, m + 1, available) ==
           (if step == 0 then SyncHandles(created, 0, m, available)[slot := created[m]] else SyncHandles(created, 0, m, available))
      && SyncHandles(created, 1, m + 1, finished) ==
           (if step == 1 then SyncHandles(created, 1, m, finished)[slot := created[m]] else SyncHandles(created, 1, m, finished))
      && SyncHandles(created, 2, m + 1, fences) ==
           (if step == 2 then SyncHandles(created, 2, m, fences)[slot := created[m]] else SyncHandles(created, 2, m, fences))
      && FencesSignalled(m + 1, signalled) ==
           (if step == 2 then FencesSignalled(m, signalled)[slot := true] else FencesSignalled(m, signalled))
  {
    SyncHandlesStep(created, 0, slot, step, available);
    SyncHandlesStep(created, 1, slot, step, finished);
    SyncHandlesStep(created, 2, slot, step, fences);
    var m := 3 * slot + step;
    var before, after := FencesSignalled(m, signalled), FencesSignalled(m + 1, signalled);
    forall other | 0 <= other < FrameLoop.MAX_FRAMES_IN_FLIGHT
      ensures after[other] == if step == 2 && other == slot then true else before[other]
    {
      assert (3 * other + 2 == m) <==> (step == 2 && other == slot);
    }
  }

  /** cleanup's loop over the first `n` uniform buffers: each buffer and
      then its memory. */
  method ReleaseBuffers(buffers: seq<Handle>, memories: seq<Handle>, n: nat) returns (released: seq<Release>)
    requires n <= |buffers| && n <= |memories|
    ensures released == BufferReleases(buffers, memories, n)
  {
    released := [];
    var i := 0;
    while i < n
      invariant i <= n
      invariant released == BufferReleases(buffers, memories, i)
    {
      released := released + [Buffer(buffers[i]), Memory(memories[i])];
      i := i + 1;
    }
  }

  /** cleanup's loop over the frame slots: both semaphores and the fence of
      each of the first `n` slots. */
  method ReleaseSyncObjects(imageAvailable: seq<Handle>, renderFinished: seq<Handle>, fences: seq<Handle>, n: nat)
    returns (released: seq<Release>)
    requires n <= |imageAvailable| && n <= |renderFinished| && n <= |fences|
    ensures released == SyncReleases(imageAvailable, renderFinished, fences, n)
  {
    released := [];
    var i := 0;
    while i < n
      invariant i <= n
      invariant released == SyncReleases(imageAvailable, renderFinished, fences, i)
    {
      released := released + [Semaphore(imageAvailable[i]), Semaphore(renderFinished[i]), Fence(fences[i])];
      i := i + 1;
    }
  }

  /** The three handle vectors createSyncObjects fills and which in-flight
      fences are signalled. */
  datatype SyncObjects = SyncObjects(imageAvailable: seq<Handle>, renderFinished: seq<Handle>, fences: seq<Handle>,
                                     signalled: seq<bool>)

  /** The synchronisation objects once the first `m` creations have run. */
  function SyncObjectsAfter(created: seq<Handle>, m: nat, available: seq<Handle>, finished: seq<Handle>,
                            fences: seq<Handle>, signalled: seq<bool>): SyncObjects
    requires |created| == 3 * FrameLoop.MAX_FRAMES_IN_FLIGHT
    requires |available| == |finished| == |fences| == |signalled| == FrameLoop.MAX_FRAMES_IN_FLIGHT
  {
    SyncObjects(SyncHandles(created, 0, m, available), SyncHandles(created, 1, m, finished),
                SyncHandles(created, 2, m, fences), FencesSignalled(m, signalled))
  }

  /** One iteration of createSyncObjects' loop: the image-available
      semaphore, the render-finished semaphore and the fence of `slot`, each
      through VK_CALL; a handle is stored once its creation succeeded. */
  method CreateFrameSyncObjects(results: seq<VkResult>, created: seq<Handle>, slot: nat, objects: SyncObjects,
                                available: seq<Handle>, finished: seq<Handle>, fences: seq<Handle>, signalled: seq<bool>)
    returns (r: Result<()>, ghost failedAt: nat, after: SyncObjects)
    requires |results| == 3 * FrameLoop.MAX_FRAMES_IN_FLIGHT && |created| == 3 * FrameLoop.MAX_FRAMES_IN_FLIGHT
    requires |available| == |finished| == |fences| == |signalled| == FrameLoop.MAX_FRAMES_IN_FLIGHT
    requires slot < FrameLoop.MAX_FRAMES_IN_FLIGHT
    requires forall m :: 0 <= m < 3 * slot ==> results[m] == VK_SUCCESS
    requires objects == SyncObjectsAfter(created, 3 * slot, available, finished, fences, signalled)
    ensures r.Ok? ==>
      && (forall m :: 0 <= m < 3 * slot + 3 ==> results[m] == VK_SUCCESS)
      && after == SyncObjectsAfter(created, 3 * slot + 3, available, finished, fences, signalled)
    ensures r.Throw? ==>
      && r.error == VK_CALL_ERROR
      && FailsFirstAt(results, failedAt)
      && after == SyncObjectsAfter(created, failedAt, available, finished, fences, signalled)
  {
    after := objects;
    var first := VkCall(results[3 * slot]);
    if first.Throw? {
      return first, 3 * slot, after;
    }
    StoreSyncHandle(created, slot, 0, available, finished, fences, signalled);
    after := after.(imageAvailable := after.imageAvailable[slot := created[3 * slot]]);
    var second := VkCall(results[3 * slot + 1]);
    if second.Throw? {
      return second, 3 * slot + 1, after;
    }
    StoreSyncHandle(created, slot, 1, available, finished, fences, signalled);
    after := after.(renderFinished := after.renderFinished[slot := created[3 * slot + 1]]);
    var third := VkCall(results[3 * slot + 2]);
    if third.Throw? {
      return third, 3 * slot + 2, after;
    }
    StoreSyncHandle(created, slot, 2, available, finished, fences, signalled);
    after := after.(fences := after.fences[slot := created[3 * slot + 2]], signalled := after.signalled[slot := true]);
    return Ok(()), 0, after;
  }

  /** Storing `created[i]` at position i of a sequence that holds `created`
      before i and `resized` from i on extends the created prefix by one. */
  lemma PrefixReplaced(created: seq<Handle>, resized: seq<Handle>, i: nat)
    requires i < |created| == |resized|
    ensures (created[..i] + resized[i..])[i := created[i]] == created[..i + 1] + resized[i + 1..]
  {
  }

  class Engine {
    /** ENABLE_VALIDATION_LAYERS: true in debug builds. */
    const enableValidationLayers: bool

    var requiredExtensions: seq<string>
    var requiredDeviceFeatures: seq<VkBool32>
    var isCleaned: bool

    var instance: Handle
    var debugMessenger: Handle
    var surface: Handle
    var physicalDevice: Handle
    var msaaSamples: Flags
    var indices: QueueFamilyIndices
    var logicalDevice: Handle
    var graphicsQueue: Handle
    var presentQueue: Handle
    var transferQueue: Handle
    var commandPool: Handle
    var commandPoolTransfer: Handle

    var windowExtent: Extent2D
    var swapchainDetails: SwapchainSupportDetails
    var swapchainData: SwapchainData
    var objects: SwapchainObjects

    var descriptorPool: Handle
    var imguiDescriptorPool: Handle
    var descriptorSetLayout: Handle
    /** One uniform buffer and its memory per swapchain image. */
    var uniformBuffers: seq<Handle>
    var uniformBuffersMemory: seq<Handle>
    var meshData: MeshBuffers
    var imageAvailableSemaphores: seq<Handle>
    var renderFinishedSemaphores: seq<Handle>
    var inFlightFenceHandles: seq<Handle>

    var currentFrame: nat
    var framebufferResize: bool
    /** Whether the in-flight fence of each frame slot is signalled. */
    var inFlightFences: seq<bool>
    var applicationChanges: ApplicationStateChange

    /** The frame slot is always 0 or 1. */
    predicate Valid()
      reads this
    {
      currentFrame < FrameLoop.MAX_FRAMES_IN_FLIGHT
    }

    /** The part of the state the frame loop works on. */
    function Frame(): FrameLoop.FrameState
      reads this
    {
      FrameLoop.FrameState(currentFrame, framebufferResize, inFlightFences)
    }

    /** Engine(): frame slot 0, no resize pending, one sample per pixel,
        nothing to clean up yet, sample-rate shading required, and the debug
        utils extension required when validation is on. Handles start null
        and the extent empty. */
    constructor(enableValidationLayers: bool)
      ensures this.enableValidationLayers == enableValidationLayers
      ensures Valid()
      ensures isCleaned && currentFrame == 0 && !framebufferResize
      ensures msaaSamples == VK_SAMPLE_COUNT_1_BIT
      ensures applicationChanges == ApplicationStateChange(false, false)
      ensures requiredDeviceFeatures == REQUIRED_DEVICE_FEATURES
      ensures requiredExtensions == if enableValidationLayers then [DEBUG_UTILS_EXTENSION_NAME] else []
      ensures indices == UNASSIGNED && inFlightFences == [] && objects == NO_SWAPCHAIN_OBJECTS
    {
      this.enableValidationLayers := enableValidationLayers;
      requiredExtensions := if enableValidationLayers then [DEBUG_UTILS_EXTENSION_NAME] else [];
      requiredDeviceFeatures := REQUIRED_DEVICE_FEATURES;
      isCleaned := true;
      instance, debugMessenger, surface, physicalDevice, logicalDevice := NULL_HANDLE, NULL_HANDLE, NULL_HANDLE, NULL_HANDLE, NULL_HANDLE;
      msaaSamples := VK_SAMPLE_COUNT_1_BIT;
      indices := UNASSIGNED;
      graphicsQueue, presentQueue, transferQueue := NULL_HANDLE, NULL_HANDLE, NULL_HANDLE;
      commandPool, commandPoolTransfer := NULL_HANDLE, NULL_HANDLE;
      windowExtent := Extent2D(0, 0);
      swapchainDetails := SwapchainSupportDetails(SurfaceCapabilities(0, 0, Extent2D(0, 0), Extent2D(0, 0), Extent2D(0, 0)), [], []);
      swapchainData := SwapchainData(NULL_HANDLE, [], [], [], SurfaceFormat(VK_FORMAT_UNDEFINED, VK_COLOR_SPACE_SRGB_NONLINEAR_KHR),
                                     Extent2D(0, 0), VK_PRESENT_MODE_FIFO_KHR);
      objects := NO_SWAPCHAIN_OBJECTS;
      descriptorPool, imguiDescriptorPool, descriptorSetLayout := NULL_HANDLE, NULL_HANDLE, NULL_HANDLE;
      uniformBuffers, uniformBuffersMemory := [], [];
      meshData := MeshBuffers(NULL_HANDLE, NULL_HANDLE, NULL_HANDLE, NULL_HANDLE);
      imageAvailableSemaphores, renderFinishedSemaphores, inFlightFenceHandles := [], [], [];
      currentFrame := 0;
      framebufferResize := false;
      inFlightFences := [];
      applicationChanges := ApplicationStateChange(false, false);
    }

    /** addRequiredExtensions: appends the window system's extensions. */
    method AddRequiredExtensions(extensions: seq<string>)
      modifies this`requiredExtensions
      ensures requiredExtensions == old(requiredExtensions) + extensions
    {
      requiredExtensions := requiredExtensions + extensions;
    }

    method SetSurface(surface: Handle)
      modifies this`surface
      ensures this.surface == surface
    {
      this.surface := surface;
    }

    /** createInstance: marks the engine as needing cleanup before anything
        can fail; throws when validation is on and the validation layer is
        missing, when a required extension is missing, when the instance
        cannot be created, or when the debug messenger cannot be created. */
    method CreateInstance(availableLayers: seq<string>, availableExtensions: seq<string>,
                          createResult: VkResult, createdInstance: Handle,
                          messengerCreateFunction: Option<VkResult>, createdMessenger: Handle)
      returns (r: Result<()>)
      modifies this`isCleaned, this`instance, this`debugMessenger
      ensures !isCleaned
      ensures var layersPresent := !enableValidationLayers ||
                (forall l :: l in DebugMessenger.VALIDATION_LAYERS ==> l in availableLayers);
              var instanceCreated := layersPresent && createResult == VK_SUCCESS &&
                (forall e :: e in requiredExtensions ==> e in availableExtensions);
              var messengerCreated := instanceCreated && enableValidationLayers &&
                messengerCreateFunction == Some(VK_SUCCESS);
      && (r.Ok? <==> instanceCreated && (!enableValidationLayers || messengerCreated))
      && instance == (if instanceCreated then createdInstance else old(instance))
      && debugMessenger == (if messengerCreated then createdMessenger else old(debugMessenger))
    {
      isCleaned := false;
      if enableValidationLayers {
        var supported := DebugMessenger.CheckValidationLayerSupport(availableLayers);
        if !supported {
          return Throw(RuntimeError("Validation layer requested, but not available !"));
        }
      }
      var compatible := AreInstanceExtensionsCompatible(availableExtensions, requiredExtensions);
      var checked := VkCall(compatible);
      if checked.Throw? {
        return Throw(checked.error);
      }
      var created := VkCall(createResult);
      if created.Throw? {
        return Throw(created.error);
      }
      instance := createdInstance;
      if enableValidationLayers {
        var messenger := DebugMessenger.CreateDebugMessenger(messengerCreateFunction);
        if messenger.Throw? {
          return Throw(messenger.error);
        }
        debugMessenger := createdMessenger;
      }
      return Ok(());
    }

    /** pickPhysicalDevice: the first suitable device for the swapchain
        extension and the required features, and the sample count used for
        multisampling on it. */
    method PickPhysicalDevice(devices: seq<PhysicalDeviceInfo>) returns (r: Result<nat>)
      requires forall k :: 0 <= k < |devices| ==> devices[k].WellFormed()
      requires |requiredDeviceFeatures| == FEATURE_COUNT
      modifies this`physicalDevice, this`msaaSamples
      ensures r.Throw? <==> forall k :: 0 <= k < |devices| ==> !Suitable(devices[k], DEVICE_EXTENSIONS, requiredDeviceFeatures)
      ensures r.Ok? ==>
        && r.value < |devices|
        && FirstSuitable(devices, DEVICE_EXTENSIONS, requiredDeviceFeatures, r.value)
        && physicalDevice == devices[r.value].handle
        && msaaSamples == Utils.GetMaxUsableSampleCount(devices[r.value].framebufferColorSampleCounts,
                                                        devices[r.value].framebufferDepthSampleCounts)
      ensures r.Throw? ==> physicalDevice == old(physicalDevice) && msaaSamples == old(msaaSamples)
    {
      r := GetBestPhysicalDevice(devices, DEVICE_EXTENSIONS, requiredDeviceFeatures);
      if r.Ok? {
        var device := devices[r.value];
        physicalDevice := device.handle;
        msaaSamples := Utils.GetMaxUsableSampleCount(device.framebufferColorSampleCounts, device.framebufferDepthSampleCounts);
      }
    }

    /** createLogicalDevice: picks the queue families of `device`, asks for
        one queue in each distinct family among graphics, present and
        transfer (an unassigned transfer family contributes -1), creates the
        device and fetches the three queues. */
    method CreateLogicalDevice(device: PhysicalDeviceInfo, createResult: VkResult, createdDevice: Handle,
                               graphics: Handle, present: Handle, transfer: Handle)
      returns (r: Result<()>, queueFamilies: set<int>)
      requires device.WellFormed()
      modifies this`indices, this`logicalDevice, this`graphicsQueue, this`presentQueue, this`transferQueue
      ensures indices == device.Indices()
      ensures queueFamilies == {indices.graphicsFamily, indices.presentingFamily, indices.transferFamily}
      ensures r.Ok? <==> createResult == VK_SUCCESS
      ensures r.Ok? ==> logicalDevice == createdDevice && graphicsQueue == graphics &&
                        presentQueue == present && transferQueue == transfer
      ensures r.Throw? ==> logicalDevice == old(logicalDevice) && graphicsQueue == old(graphicsQueue) &&
                           presentQueue == old(presentQueue) && transferQueue == old(transferQueue)
    {
      indices := FindQueueFamilies(device.queueFamilies, device.presentSupport);
      queueFamilies := {indices.graphicsFamily, indices.presentingFamily, indices.transferFamily};
      r := VkCall(createResult);
      if r.Ok? {
        logicalDevice := createdDevice;
        graphicsQueue, presentQueue, transferQueue := graphics, present, transfer;
      }
    }

    /** createCommandPool: a pool on the graphics family, and a second one on
        the transfer family only when that family is available. */
    method CreateCommandPool(createResult: VkResult, pool: Handle, transferCreateResult: VkResult, transferPool: Handle)
      returns (r: Result<()>)
      modifies this`commandPool, this`commandPoolTransfer
      ensures r.Ok? <==> createResult == VK_SUCCESS && (indices.TransferAvailable() ==> transferCreateResult == VK_SUCCESS)
      ensures commandPool == if createResult == VK_SUCCESS then pool else old(commandPool)
      ensures commandPoolTransfer ==
        if createResult == VK_SUCCESS && indices.TransferAvailable() && transferCreateResult == VK_SUCCESS
        then transferPool else old(commandPoolTransfer)
    {
      r := VkCall(createResult);
      if r.Throw? {
        return;
      }
      commandPool := pool;
      if indices.TransferAvailable() {
        r := VkCall(transferCreateResult);
        if r.Throw? {
          return;
        }
        commandPoolTransfer := transferPool;
      }
    }

    /** getTransfertQueue: the transfer queue, or the graphics queue when no
        separate transfer family is available. */
    function GetTransferQueue(): (queue: Handle)
      reads this
      ensures indices.TransferAvailable() ==> queue == transferQueue
      ensures !indices.TransferAvailable() ==> queue == graphicsQueue
    {
      if indices.TransferAvailable() then transferQueue else graphicsQueue
    }

    /** getCommandPoolTransfer: the transfer pool, or the graphics pool when
        no separate transfer family is available. */
    function GetCommandPoolTransfer(): (pool: Handle)
      reads this
      ensures indices.TransferAvailable() ==> pool == commandPoolTransfer
      ensures !indices.TransferAvailable() ==> pool == commandPool
    {
      if indices.TransferAvailable() then commandPoolTransfer else commandPool
    }

    /** resizeExtent: the int arguments are compared with, and stored into,
        the uint32_t extent; nothing happens when they equal the stored
        extent, otherwise the extent is stored, a resize is flagged and the
        surface support is queried again (`details`). */
    method ResizeExtent(width: int, height: int, details: SwapchainSupportDetails)
      modifies this`windowExtent, this`framebufferResize, this`swapchainDetails
      ensures old(windowExtent) == Extent2D(ToUint32(width), ToUint32(height)) ==>
        windowExtent == old(windowExtent) && framebufferResize == old(framebufferResize) &&
        swapchainDetails == old(swapchainDetails)
      ensures old(windowExtent) != Extent2D(ToUint32(width), ToUint32(height)) ==>
        windowExtent == Extent2D(ToUint32(width), ToUint32(height)) && framebufferResize && swapchainDetails == details
    {
      if windowExtent.width == ToUint32(width) && windowExtent.height == ToUint32(height) {
        return;
      }
      framebufferResize := true;
      windowExtent := Extent2D(ToUint32(width), ToUint32(height));
      swapchainDetails := details;
    }

    /** chooseSwapSurfaceFormat */
    method ChooseSwapSurfaceFormat(availableFormats: seq<SurfaceFormat>)
      requires |availableFormats| > 0
      modifies this`swapchainData
      ensures swapchainData == old(swapchainData).(format := ChosenSurfaceFormat(availableFormats))
    {
      if |availableFormats| == 1 && availableFormats[0].format == VK_FORMAT_UNDEFINED {
        swapchainData := swapchainData.(format := SurfaceFormat(VK_FORMAT_B8G8R8A8_UNORM, VK_COLOR_SPACE_SRGB_NONLINEAR_KHR));
        return;
      }
      var i := 0;
      while i < |availableFormats|
        invariant i <= |availableFormats|
        invariant PREFERRED_SURFACE_FORMAT !in availableFormats[..i]
      {
        var format := availableFormats[i];
        if format.format == VK_FORMAT_B8G8R8A8_UNORM && format.colorSpace == VK_COLOR_SPACE_SRGB_NONLINEAR_KHR {
          swapchainData := swapchainData.(format := format);
          return;
        }
        assert availableFormats[..i + 1] == availableFormats[..i] + [format];
        i := i + 1;
      }
      assert availableFormats[..i] == availableFormats;
      swapchainData := swapchainData.(format := availableFormats[0]);
    }

    /** chooseSwapPresentMode */
    method ChooseSwapPresentMode(availableModes: seq<VkPresentMode>)
      modifies this`swapchainData
      ensures swapchainData == old(swapchainData).(presentMode := ChosenPresentMode(availableModes))
    {
      var bestmode := VK_PRESENT_MODE_FIFO_KHR;
      var i := 0;
      while i < |availableModes|
        invariant i <= |availableModes|
        invariant VK_PRESENT_MODE_MAILBOX_KHR !in availableModes[..i]
        invariant bestmode == if VK_PRESENT_MODE_IMMEDIATE_KHR in availableModes[..i] then VK_PRESENT_MODE_IMMEDIATE_KHR
                              else VK_PRESENT_MODE_FIFO_KHR
      {
        var mode := availableModes[i];
        if mode == VK_PRESENT_MODE_MAILBOX_KHR {
          swapchainData := swapchainData.(presentMode := mode);
          return;
        } else if mode == VK_PRESENT_MODE_IMMEDIATE_KHR {
          bestmode := mode;
        }
        assert availableModes[..i + 1] == availableModes[..i] + [mode];
        i := i + 1;
      }
      assert availableModes[..i] == availableModes;
      swapchainData := swapchainData.(presentMode := bestmode);
    }

    /** chooseSwapExtent */
    method ChooseSwapExtent(capabilities: SurfaceCapabilities)
      modifies this`swapchainData
      ensures swapchainData == old(swapchainData).(extent := ChosenExtent(capabilities, windowExtent))
    {
      if capabilities.currentExtent.width != UINT32_MAX {
        swapchainData := swapchainData.(extent := capabilities.currentExtent);
        return;
      }
      var actualExtent := windowExtent;
      actualExtent := actualExtent.(width := Clamp(capabilities.minImageExtent.width, capabilities.maxImageExtent.width, actualExtent.width));
      actualExtent := actualExtent.(height := Clamp(capabilities.minImageExtent.height, capabilities.maxImageExtent.height, actualExtent.height));
      swapchainData := swapchainData.(extent := actualExtent);
    }

    /** createSwapChain: queries the surface support again, makes the three
        choices, derives the image count and sharing, creates the swapchain
        and keeps its images with one view per image. */
    method CreateSwapChain(details: SwapchainSupportDetails, createResult: VkResult, createdSwapchain: Handle,
                           images: seq<Handle>, imageViews: seq<Handle>)
      returns (r: Result<SwapchainCreateInfo>)
      requires |details.surfaceFormats| > 0 && |imageViews| == |images|
      modifies this`swapchainDetails, this`swapchainData
      ensures swapchainDetails == details
      ensures r.Ok? <==> createResult == VK_SUCCESS
      ensures r.Throw? ==> r.error == VK_CALL_ERROR
      ensures r.Ok? ==> r.value == SwapchainCreateInfo(ImageCount(details.surfaceCapabilities),
                                                       ChosenSurfaceFormat(details.surfaceFormats),
                                                       ChosenExtent(details.surfaceCapabilities, windowExtent),
                                                       ChosenPresentMode(details.presentModes),
                                                       SwapchainImageSharing(indices))
      ensures var chosen := old(swapchainData).(format := ChosenSurfaceFormat(details.surfaceFormats),
                                                extent := ChosenExtent(details.surfaceCapabilities, windowExtent),
                                                presentMode := ChosenPresentMode(details.presentModes));
        swapchainData == if r.Ok? then chosen.(swapchain := createdSwapchain, images := images, imageViews := imageViews)
                         else chosen
    {
      swapchainDetails := details;
      ChooseSwapSurfaceFormat(swapchainDetails.surfaceFormats);
      ChooseSwapExtent(swapchainDetails.surfaceCapabilities);
      ChooseSwapPresentMode(swapchainDetails.presentModes);
      var imageCount := ToUint32(swapchainDetails.surfaceCapabilities.minImageCount + 1);
      if swapchainDetails.surfaceCapabilities.maxImageCount > 0 && imageCount > swapchainDetails.surfaceCapabilities.maxImageCount {
        imageCount := swapchainDetails.surfaceCapabilities.maxImageCount;
      }
      var sharing;
      if indices.graphicsFamily != indices.presentingFamily {
        sharing := ImageSharing(Concurrent, [ToUint32(indices.graphicsFamily), ToUint32(indices.presentingFamily)]);
      } else {
        sharing := ImageSharing(Exclusive, []);
      }
      var info := SwapchainCreateInfo(imageCount, swapchainData.format, swapchainData.extent, swapchainData.presentMode, sharing);
      var created := VkCall(createResult);
      if created.Throw? {
        return Throw(created.error);
      }
      swapchainData := swapchainData.(swapchain := createdSwapchain, images := images, imageViews := imageViews);
      return Ok(info);
    }

    /** createFramebuffers: one framebuffer per swapchain view over the
        shared attachments followed by that view (pushed before and popped
        after each creation). Returns what each creation was given; a failing
        creation throws, leaving the framebuffers created so far. */
    method CreateFramebuffers(renderPass: Handle, attachments: seq<Handle>, results: seq<VkResult>, created: seq<Handle>)
      returns (r: Result<()>, infos: seq<FramebufferInfo>)
      requires |results| == |created| == |swapchainData.imageViews|
      modifies this`swapchainData
      ensures var views := old(swapchainData).imageViews;
              var resized := Resized(old(swapchainData).framebuffers, |views|, NULL_HANDLE);
        && (r.Ok? <==> AllSucceed(results))
        && (r.Ok? ==> infos == FramebufferInfos(renderPass, attachments, views, old(swapchainData).extent) &&
                      swapchainData == old(swapchainData).(framebuffers := created))
        && (r.Throw? ==>
              && r.error == VK_CALL_ERROR
              && exists k: nat :: FailsFirstAt(results, k) &&
                   infos == FramebufferInfos(renderPass, attachments, views[..k + 1], old(swapchainData).extent) &&
                   swapchainData == old(swapchainData).(framebuffers := created[..k] + resized[k..]))
    {
      var views := swapchainData.imageViews;
      var extent := swapchainData.extent;
      var resized := Resized(swapchainData.framebuffers, |views|, NULL_HANDLE);
      var framebuffers := resized;
      var frameAttachments := attachments;
      infos := [];
      var i := 0;
      while i < |views|
        invariant i <= |views|
        invariant frameAttachments == attachments
        invariant forall j :: 0 <= j < i ==> results[j] == VK_SUCCESS
        invariant infos == FramebufferInfos(renderPass, attachments, views[..i], extent)
        invariant framebuffers == created[..i] + resized[i..]
        invariant swapchainData == old(swapchainData)
      {
        frameAttachments := frameAttachments + [views[i]];
        FramebufferInfosSnoc(renderPass, attachments, views, extent, i);
        infos := infos + [FramebufferInfo(renderPass, frameAttachments, extent.width, extent.height)];
        var call := VkCall(results[i]);
        if call.Throw? {
          swapchainData := swapchainData.(framebuffers := framebuffers);
          assert FailsFirstAt(results, i) &&
                 infos == FramebufferInfos(renderPass, attachments, views[..i + 1], extent) &&
                 swapchainData == old(swapchainData).(framebuffers := created[..i] + resized[i..]);
          return Throw(call.error), infos;
        }
        PrefixReplaced(created, resized, i);
        framebuffers := framebuffers[i := created[i]];
        frameAttachments := frameAttachments[..|frameAttachments| - 1];
        i := i + 1;
      }
      assert views[..i] == views && created[..i] + resized[i..] == created;
      swapchainData := swapchainData.(framebuffers := framebuffers);
      return Ok(()), infos;
    }

    /** cleanUpSwapChain: releases every framebuffer, the command buffers,
        the attachments, the pipeline, the render pass, every swapchain image
        view and the swapchain. The records keep the released handles. */
    method CleanUpSwapChain() returns (released: seq<Release>)
      ensures released == SwapchainReleases(swapchainData, objects, commandPool)
    {
      var data := swapchainData;
      released := [];
      var i := 0;
      while i < |data.framebuffers|
        invariant i <= |data.framebuffers|
        invariant released == ReleaseAll(data.framebuffers[..i], (h: Handle) => Framebuffer(h))
      {
        released := released + [Framebuffer(data.framebuffers[i])];
        i := i + 1;
      }
      assert data.framebuffers[..i] == data.framebuffers;
      released := released + [CommandBuffers(commandPool, objects.secondaryCommandBuffers),
                              CommandBuffers(commandPool, objects.primaryCommandBuffers)];
      released := released + [ImageView(objects.depthImageView), Image(objects.depthImage), Memory(objects.depthImageMemory)];
      released := released + [ImageView(objects.colorImageView), Image(objects.colorImage), Memory(objects.colorImageMemory)];
      released := released + [Pipeline(objects.graphicsPipeline), PipelineLayout(objects.pipelineLayout),
                              RenderPass(objects.renderPass)];
      var prefix := released;
      assert prefix == ReleaseAll(data.framebuffers, (h: Handle) => Framebuffer(h)) + SwapchainFixedReleases(objects, commandPool);
      var j := 0;
      while j < |data.imageViews|
        invariant j <= |data.imageViews|
        invariant released == prefix + ReleaseAll(data.imageViews[..j], (h: Handle) => ImageView(h))
      {
        released := released + [ImageView(data.imageViews[j])];
        j := j + 1;
      }
      assert data.imageViews[..j] == data.imageViews;
      released := released + [SwapchainKHR(data.swapchain)];
      assert released == prefix + ReleaseAll(data.imageViews, (h: Handle) => ImageView(h)) + [SwapchainKHR(data.swapchain)];
    }

    /** recreateSwapChain: releases the old swapchain resources, builds the
        swapchain again for the current window extent, then the render pass,
        the pipeline, the attachments, the framebuffers and last the command
        buffers. */
    method RecreateSwapChain(build: SwapchainBuild) returns (r: Result<()>, released: seq<Release>)
      requires build.WellFormed()
      modifies this`swapchainDetails, this`swapchainData, this`objects
      ensures released == SwapchainReleases(old(swapchainData), old(objects), commandPool)
      ensures swapchainDetails == build.details
      ensures r.Ok? <==> build.Succeeds()
      ensures r.Throw? ==> r.error == VK_CALL_ERROR
      ensures r.Ok? ==> swapchainData == Built(build, windowExtent) && objects == build.objects
      ensures build.createResult != VK_SUCCESS ==>
        && swapchainData == old(swapchainData).(format := ChosenSurfaceFormat(build.details.surfaceFormats),
                                                extent := ChosenExtent(build.details.surfaceCapabilities, windowExtent),
                                                presentMode := ChosenPresentMode(build.details.presentModes))
        && objects == old(objects)
      ensures build.createResult == VK_SUCCESS && r.Throw? ==>
        objects == build.objects.(primaryCommandBuffers := old(objects).primaryCommandBuffers,
                                  secondaryCommandBuffers := old(objects).secondaryCommandBuffers)
    {
      released := CleanUpSwapChain();
      var created := CreateSwapChain(build.details, build.createResult, build.swapchain, build.images, build.imageViews);
      if created.Throw? {
        return Throw(created.error), released;
      }
      objects := build.objects.(primaryCommandBuffers := objects.primaryCommandBuffers,
                                secondaryCommandBuffers := objects.secondaryCommandBuffers);
      var framebuffers, _ := CreateFramebuffers(objects.renderPass, [objects.colorImageView, objects.depthImageView],
                                                build.framebufferResults, build.framebuffers);
      if framebuffers.Throw? {
        return Throw(framebuffers.error), released;
      }
      objects := objects.(primaryCommandBuffers := build.objects.primaryCommandBuffers,
                          secondaryCommandBuffers := build.objects.secondaryCommandBuffers);
      return Ok(()), released;
    }

    /** createSyncObjects: resizes the three handle vectors to one entry per
        frame slot, then per slot creates two semaphores and a fence created
        signalled, each through VK_CALL (`results` and `created` in that
        order). A handle is stored once its creation succeeded; a fence slot
        is signalled once its fence exists. */
    method CreateSyncObjects(results: seq<VkResult>, created: seq<Handle>) returns (r: Result<()>, ghost failedAt: nat)
      requires |results| == 3 * FrameLoop.MAX_FRAMES_IN_FLIGHT && |created| == 3 * FrameLoop.MAX_FRAMES_IN_FLIGHT
      modifies this`inFlightFences, this`imageAvailableSemaphores, this`renderFinishedSemaphores, this`inFlightFenceHandles
      ensures r.Ok? <==> AllSucceed(results)
      ensures r.Ok? ==>
        && inFlightFences == [true, true]
        && imageAvailableSemaphores == [created[0], created[3]]
        && renderFinishedSemaphores == [created[1], created[4]]
        && inFlightFenceHandles == [created[2], created[5]]
      ensures |inFlightFences| == FrameLoop.MAX_FRAMES_IN_FLIGHT
      ensures r.Throw? ==>
        && r.error == VK_CALL_ERROR
        && FailsFirstAt(results, failedAt)
        && SyncObjects(imageAvailableSemaphores, renderFinishedSemaphores, inFlightFenceHandles, inFlightFences) ==
           SyncObjectsAfter(created, failedAt,
                            Resized(old(imageAvailableSemaphores), FrameLoop.MAX_FRAMES_IN_FLIGHT, NULL_HANDLE),
                            Resized(old(renderFinishedSemaphores), FrameLoop.MAX_FRAMES_IN_FLIGHT, NULL_HANDLE),
                            Resized(old(inFlightFenceHandles), FrameLoop.MAX_FRAMES_IN_FLIGHT, NULL_HANDLE),
                            Resized(old(inFlightFences), FrameLoop.MAX_FRAMES_IN_FLIGHT, false))
    {
      var initialAvailable := Resized(imageAvailableSemaphores, FrameLoop.MAX_FRAMES_IN_FLIGHT, NULL_HANDLE);
      var initialFinished := Resized(renderFinishedSemaphores, FrameLoop.MAX_FRAMES_IN_FLIGHT, NULL_HANDLE);
      var initialHandles := Resized(inFlightFenceHandles, FrameLoop.MAX_FRAMES_IN_FLIGHT, NULL_HANDLE);
      var initial := Resized(inFlightFences, FrameLoop.MAX_FRAMES_IN_FLIGHT, false);
      var objects := SyncObjects(initialAvailable, initialFinished, initialHandles, initial);
      var i := 0;
      while i < FrameLoop.MAX_FRAMES_IN_FLIGHT
        invariant i <= FrameLoop.MAX_FRAMES_IN_FLIGHT
        invariant forall m :: 0 <= m < 3 * i ==> results[m] == VK_SUCCESS
        invariant objects == SyncObjectsAfter(created, 3 * i, initialAvailable, initialFinished, initialHandles, initial)
      {
        var slot;
        slot, failedAt, objects := CreateFrameSyncObjects(results, created, i, objects,
                                                          initialAvailable, initialFinished, initialHandles, initial);
        if slot.Throw? {
          imageAvailableSemaphores, renderFinishedSemaphores := objects.imageAvailable, objects.renderFinished;
          inFlightFenceHandles, inFlightFences := objects.fences, objects.signalled;
          return slot, failedAt;
        }
        i := i + 1;
      }
      imageAvailableSemaphores, renderFinishedSemaphores := objects.imageAvailable, objects.renderFinished;
      inFlightFenceHandles, inFlightFences := objects.fences, objects.signalled;
      return Ok(()), 0;
    }

    /** recreateCommandBuffer: frees the primary and then the secondary
        command buffers back to the graphics pool, then allocates both
        vectors again, one per framebuffer; a failed allocation throws. */
    method RecreateCommandBuffer(rebuild: CommandBufferRebuild) returns (r: Result<()>, released: seq<Release>)
      modifies this`objects
      ensures released == [CommandBuffers(commandPool, old(objects).primaryCommandBuffers),
                           CommandBuffers(commandPool, old(objects).secondaryCommandBuffers)]
      ensures r.Ok? <==> rebuild.Succeeds()
      ensures r.Throw? ==> r.error == VK_CALL_ERROR
      ensures objects == CommandBuffersRecreated(old(objects), rebuild, |swapchainData.framebuffers|)
    {
      released := [CommandBuffers(commandPool, objects.primaryCommandBuffers),
                   CommandBuffers(commandPool, objects.secondaryCommandBuffers)];
      var n := |swapchainData.framebuffers|;
      r := VkCall(rebuild.primaryResult);
      if r.Throw? {
        objects := objects.(primaryCommandBuffers := seq(n, _ => NULL_HANDLE));
        return;
      }
      objects := objects.(primaryCommandBuffers := Resized(rebuild.primary, n, NULL_HANDLE));
      r := VkCall(rebuild.secondaryResult);
      if r.Throw? {
        objects := objects.(secondaryCommandBuffers := seq(n, _ => NULL_HANDLE));
        return;
      }
      objects := objects.(secondaryCommandBuffers := Resized(rebuild.secondary, n, NULL_HANDLE));
    }

    /** checkApplicationState: of the flags only the model-modified one is
        looked at. When it is set the command buffers are recreated and, if
        that does not throw, the flag is cleared; the material flag is left
        alone. */
    method CheckApplicationState(rebuild: CommandBufferRebuild) returns (r: Result<()>, released: seq<Release>)
      modifies this`applicationChanges, this`objects
      ensures !old(applicationChanges).modelModified ==>
        r == Ok(()) && released == [] && applicationChanges == old(applicationChanges) && objects == old(objects)
      ensures old(applicationChanges).modelModified ==>
        && released == [CommandBuffers(commandPool, old(objects).primaryCommandBuffers),
                        CommandBuffers(commandPool, old(objects).secondaryCommandBuffers)]
        && (r.Ok? <==> rebuild.Succeeds())
        && (r.Throw? ==> r.error == VK_CALL_ERROR && applicationChanges == old(applicationChanges))
        && (r.Ok? ==> applicationChanges == old(applicationChanges).(modelModified := false))
        && objects == CommandBuffersRecreated(old(objects), rebuild, |swapchainData.framebuffers|)
    {
      r := Ok(());
      released := [];
      if applicationChanges.modelModified {
        r, released := RecreateCommandBuffer(rebuild);
        if r.Throw? {
          return;
        }
        applicationChanges := applicationChanges.(modelModified := false);
      }
    }

    /** The present at the end of drawFrame, once the frame is submitted: an
        OUT_OF_DATE or SUBOPTIMAL result, or a pending resize, clears the
        flag and rebuilds the swapchain; any other failure throws; then the
        frame slot advances. */
    method PresentFrame(presentResult: VkResult, build: SwapchainBuild) returns (r: Result<FrameLoop.Outcome>)
      requires Valid() && |inFlightFences| == FrameLoop.MAX_FRAMES_IN_FLIGHT
      requires build.WellFormed()
      modifies this`currentFrame, this`framebufferResize
      modifies this`swapchainDetails, this`swapchainData, this`objects
      ensures Valid()
      ensures var step := FrameLoop.PresentStep(old(Frame()), FrameLoop.FrameInputs(VK_SUCCESS, VK_SUCCESS, presentResult, build.Succeeds()));
        Frame() == step.state && r == step.result
      ensures (presentResult == VK_ERROR_OUT_OF_DATE_KHR || presentResult == VK_SUBOPTIMAL_KHR || old(framebufferResize)) &&
              build.Succeeds() ==>
        swapchainData == Built(build, windowExtent) && swapchainDetails == build.details && objects == build.objects
      ensures !(presentResult == VK_ERROR_OUT_OF_DATE_KHR || presentResult == VK_SUBOPTIMAL_KHR || old(framebufferResize)) ==>
        swapchainData == old(swapchainData) && swapchainDetails == old(swapchainDetails) && objects == old(objects)
    {
      if presentResult == VK_ERROR_OUT_OF_DATE_KHR || presentResult == VK_SUBOPTIMAL_KHR || framebufferResize {
        framebufferResize := false;
        var rebuilt, _ := RecreateSwapChain(build);
        if rebuilt.Throw? {
          return Throw(rebuilt.error);
        }
        r := Ok(FrameLoop.Presented(true));
      } else if presentResult != VK_SUCCESS {
        return Throw(FrameLoop.PRESENT_ERROR);
      } else {
        r := Ok(FrameLoop.Presented(false));
      }
      currentFrame := FrameLoop.NextFrame(currentFrame);
    }

    /** drawFrame, with the fence reset before the acquire as written. The
        answers of the acquire, submit and present calls are parameters,
        `commands` is what the driver gives if checkApplicationState
        recreates the command buffers (a failure there throws before the
        fence is looked at), and `build` is what the driver gives if the
        swapchain is rebuilt. A wait
        on an unsignalled fence that nothing will signal is reported as
        WaitsForever instead of never returning. */
    method DrawFrame(commands: CommandBufferRebuild, acquireResult: VkResult, submitResult: VkResult, presentResult: VkResult,
                     build: SwapchainBuild)
      returns (r: Result<FrameLoop.Outcome>)
      requires Valid() && |inFlightFences| == FrameLoop.MAX_FRAMES_IN_FLIGHT
      requires build.WellFormed()
      modifies this`currentFrame, this`framebufferResize, this`inFlightFences, this`applicationChanges
      modifies this`swapchainDetails, this`swapchainData, this`objects
      ensures Valid() && |inFlightFences| == FrameLoop.MAX_FRAMES_IN_FLIGHT
      ensures old(applicationChanges).modelModified && !commands.Succeeds() ==>
        && r == Throw(VK_CALL_ERROR) && Frame() == old(Frame()) && applicationChanges == old(applicationChanges)
        && swapchainData == old(swapchainData) && swapchainDetails == old(swapchainDetails)
        && objects == CommandBuffersRecreated(old(objects), commands, |old(swapchainData).framebuffers|)
      ensures !(old(applicationChanges).modelModified && !commands.Succeeds()) ==>
        && applicationChanges == old(applicationChanges).(modelModified := false)
        && var step := FrameLoop.DrawFrameStep(old(Frame()), FrameLoop.FrameInputs(acquireResult, submitResult, presentResult, build.Succeeds()));
           Frame() == step.state && r == step.result
      ensures !(old(applicationChanges).modelModified && !commands.Succeeds()) &&
              FrameLoop.Rebuilds(old(Frame()), FrameLoop.FrameInputs(acquireResult, submitResult, presentResult, build.Succeeds())) &&
              build.Succeeds() ==>
        swapchainData == Built(build, windowExtent) && swapchainDetails == build.details && objects == build.objects
      ensures !(old(applicationChanges).modelModified && !commands.Succeeds()) &&
              !FrameLoop.Rebuilds(old(Frame()), FrameLoop.FrameInputs(acquireResult, submitResult, presentResult, build.Succeeds())) ==>
        && swapchainData == old(swapchainData) && swapchainDetails == old(swapchainDetails)
        && objects == (if old(applicationChanges).modelModified
                       then CommandBuffersRecreated(old(objects), commands, |old(swapchainData).framebuffers|)
                       else old(objects))
    {
      var checked, _ := CheckApplicationState(commands);
      if checked.Throw? {
        return Throw(checked.error);
      }
      if !inFlightFences[currentFrame] {
        return Ok(FrameLoop.WaitsForever);
      }
      inFlightFences := inFlightFences[currentFrame := false];
      if acquireResult == VK_ERROR_OUT_OF_DATE_KHR {
        var rebuilt, _ := RecreateSwapChain(build);
        if rebuilt.Throw? {
          return Throw(rebuilt.error);
        }
        return Ok(FrameLoop.SwapchainOutOfDate);
      } else if acquireResult != VK_SUCCESS && acquireResult != VK_SUBOPTIMAL_KHR {
        return Throw(FrameLoop.ACQUIRE_ERROR);
      }
      var submitted := VkCall(submitResult);
      if submitted.Throw? {
        return Throw(submitted.error);
      }
      // the submitted work signals the fence; the queue is waited idle before returning
      inFlightFences := inFlightFences[currentFrame := true];
      r := PresentFrame(presentResult, build);
    }

    /** The vectors cleanup indexes are long enough: a uniform buffer and
        its memory per swapchain image, and the two semaphores and the fence
        of each frame slot. */
    predicate CleanupIndexable()
      reads this
    {
      && |uniformBuffers| >= |swapchainData.images| && |uniformBuffersMemory| >= |swapchainData.images|
      && |imageAvailableSemaphores| >= FrameLoop.MAX_FRAMES_IN_FLIGHT
      && |renderFinishedSemaphores| >= FrameLoop.MAX_FRAMES_IN_FLIGHT
      && |inFlightFenceHandles| >= FrameLoop.MAX_FRAMES_IN_FLIGHT
    }

    /** What cleanup releases up to and including the surface: the
        swapchain resources, the descriptor pools and layout, the uniform
        buffers, the mesh buffers, the synchronisation objects, the command
        pools (the transfer one only when its family is available), the
        device and the surface. */
    function DeviceReleases(): (released: seq<Release>)
      reads this
      requires CleanupIndexable()
      ensures |released| >= |swapchainData.framebuffers| + |swapchainData.imageViews| + 12 + 2 * |swapchainData.images| + 3 * FrameLoop.MAX_FRAMES_IN_FLIGHT
    {
      SwapchainReleases(swapchainData, objects, commandPool)
      + [DescriptorPool(descriptorPool), DescriptorPool(imguiDescriptorPool), DescriptorSetLayout(descriptorSetLayout)]
      + BufferReleases(uniformBuffers, uniformBuffersMemory, |swapchainData.images|)
      + [Buffer(meshData.vertexBuffer), Memory(meshData.vertexBufferMemory),
         Buffer(meshData.indexBuffer), Memory(meshData.indexBufferMemory)]
      + SyncReleases(imageAvailableSemaphores, renderFinishedSemaphores, inFlightFenceHandles, FrameLoop.MAX_FRAMES_IN_FLIGHT)
      + [CommandPool(commandPool)] + (if indices.TransferAvailable() then [CommandPool(commandPoolTransfer)] else [])
      + [Device(logicalDevice), Surface(surface)]
    }

    /** The order of cleanup's releases up to the surface: the swapchain
        resources come first; the device and then the surface come last, and
        everything before them is an object made from the device; every
        semaphore, fence, uniform buffer and uniform memory is released, and
        so is each command pool that was created. */
    lemma DeviceReleasesOrder()
      requires CleanupIndexable()
      ensures var released := DeviceReleases();
              var swapchain := SwapchainReleases(swapchainData, objects, commandPool);
        && released[..|swapchain|] == swapchain
        && released[|released| - 2..] == [Device(logicalDevice), Surface(surface)]
        && (forall k :: 0 <= k < |released| - 2 ==> DeviceChild(released[k]))
        && (forall slot :: 0 <= slot < FrameLoop.MAX_FRAMES_IN_FLIGHT ==>
              Semaphore(imageAvailableSemaphores[slot]) in released && Semaphore(renderFinishedSemaphores[slot]) in released &&
              Fence(inFlightFenceHandles[slot]) in released)
        && (forall k :: 0 <= k < |swapchainData.images| ==>
              Buffer(uniformBuffers[k]) in released && Memory(uniformBuffersMemory[k]) in released)
        && CommandPool(commandPool) in released
        && (indices.TransferAvailable() ==> CommandPool(commandPoolTransfer) in released)
    {
      DeviceReleasesShape();
      DeviceReleasesSync();
      DeviceReleasesUniformsAndPools();
    }

    /** The swapchain prefix, the device and surface suffix, and only
        objects of the device before the suffix. */
    lemma DeviceReleasesShape()
      requires CleanupIndexable()
      ensures var released := DeviceReleases();
              var swapchain := SwapchainReleases(swapchainData, objects, commandPool);
        && released[..|swapchain|] == swapchain
        && released[|released| - 2..] == [Device(logicalDevice), Surface(surface)]
        && (forall k :: 0 <= k < |released| - 2 ==> DeviceChild(released[k]))
    {
      var swapchain := SwapchainReleases(swapchainData, objects, commandPool);
      var descriptors := [DescriptorPool(descriptorPool), DescriptorPool(imguiDescriptorPool), DescriptorSetLayout(descriptorSetLayout)];
      var uniforms := BufferReleases(uniformBuffers, uniformBuffersMemory, |swapchainData.images|);
      var mesh := [Buffer(meshData.vertexBuffer), Memory(meshData.vertexBufferMemory),
                   Buffer(meshData.indexBuffer), Memory(meshData.indexBufferMemory)];
      var sync := SyncReleases(imageAvailableSemaphores, renderFinishedSemaphores, inFlightFenceHandles, FrameLoop.MAX_FRAMES_IN_FLIGHT);
      var pools := [CommandPool(commandPool)] + (if indices.TransferAvailable() then [CommandPool(commandPoolTransfer)] else []);
      var tail := [Device(logicalDevice), Surface(surface)];
      assert FromDevice(swapchain) by { SwapchainReleasesFromDevice(swapchainData, objects, commandPool); }
      assert FromDevice(uniforms) by { BufferReleasesAt(uniformBuffers, uniformBuffersMemory, |swapchainData.images|); }
      assert FromDevice(sync) by {
        SyncReleasesKinds(imageAvailableSemaphores, renderFinishedSemaphores, inFlightFenceHandles, FrameLoop.MAX_FRAMES_IN_FLIGHT);
        forall k | 0 <= k < |sync| ensures DeviceChild(sync[k]) {
          assert sync[k].Semaphore? || sync[k].Fence?;
        }
      }
      assert FromDevice(descriptors) && FromDevice(mesh) && FromDevice(pools);
      DeviceReleasesFacts(swapchain, descriptors, uniforms, mesh, sync, pools, logicalDevice, surface);
      assert swapchain + descriptors + uniforms + mesh + sync + pools + tail == DeviceReleases();
    }

    /** Every semaphore and fence of the frame slots is released. */
    lemma DeviceReleasesSync()
      requires CleanupIndexable()
      ensures var released := DeviceReleases();
        forall slot :: 0 <= slot < FrameLoop.MAX_FRAMES_IN_FLIGHT ==>
          Semaphore(imageAvailableSemaphores[slot]) in released && Semaphore(renderFinishedSemaphores[slot]) in released &&
          Fence(inFlightFenceHandles[slot]) in released
    {
      var swapchain := SwapchainReleases(swapchainData, objects, commandPool);
      var descriptors := [DescriptorPool(descriptorPool), DescriptorPool(imguiDescriptorPool), DescriptorSetLayout(descriptorSetLayout)];
      var uniforms := BufferReleases(uniformBuffers, uniformBuffersMemory, |swapchainData.images|);
      var mesh := [Buffer(meshData.vertexBuffer), Memory(meshData.vertexBufferMemory),
                   Buffer(meshData.indexBuffer), Memory(meshData.indexBufferMemory)];
      var sync := SyncReleases(imageAvailableSemaphores, renderFinishedSemaphores, inFlightFenceHandles, FrameLoop.MAX_FRAMES_IN_FLIGHT);
      var pools := [CommandPool(commandPool)] + (if indices.TransferAvailable() then [CommandPool(commandPoolTransfer)] else []);
      var tail := [Device(logicalDevice), Surface(surface)];
      var released := swapchain + descriptors + uniforms + mesh + sync + pools + tail;
      assert released == DeviceReleases();
      var before := swapchain + descriptors + uniforms + mesh;
      var after := pools + tail;
      assert released == before + sync + after;
      forall slot | 0 <= slot < FrameLoop.MAX_FRAMES_IN_FLIGHT
        ensures Semaphore(imageAvailableSemaphores[slot]) in released && Semaphore(renderFinishedSemaphores[slot]) in released &&
                Fence(inFlightFenceHandles[slot]) in released
      {
        SyncReleasesAt(imageAvailableSemaphores, renderFinishedSemaphores, inFlightFenceHandles, FrameLoop.MAX_FRAMES_IN_FLIGHT, slot);
        ElementOfMiddle(before, sync, after, 3 * slot);
        ElementOfMiddle(before, sync, after, 3 * slot + 1);
        ElementOfMiddle(before, sync, after, 3 * slot + 2);
      }
    }

    /** Every uniform buffer and its memory is released, and so is each
        command pool that was created. */
    lemma DeviceReleasesUniformsAndPools()
      requires CleanupIndexable()
      ensures var released := DeviceReleases();
        && (forall k :: 0 <= k < |swapchainData.images| ==>
              Buffer(uniformBuffers[k]) in released && Memory(uniformBuffersMemory[k]) in released)
        && CommandPool(commandPool) in released
        && (indices.TransferAvailable() ==> CommandPool(commandPoolTransfer) in released)
    {
      var swapchain := SwapchainReleases(swapchainData, objects, commandPool);
      var descriptors := [DescriptorPool(descriptorPool), DescriptorPool(imguiDescriptorPool), DescriptorSetLayout(descriptorSetLayout)];
      var uniforms := BufferReleases(uniformBuffers, uniformBuffersMemory, |swapchainData.images|);
      var mesh := [Buffer(meshData.vertexBuffer), Memory(meshData.vertexBufferMemory),
                   Buffer(meshData.indexBuffer), Memory(meshData.indexBufferMemory)];
      var sync := SyncReleases(imageAvailableSemaphores, renderFinishedSemaphores, inFlightFenceHandles, FrameLoop.MAX_FRAMES_IN_FLIGHT);
      var pools := [CommandPool(commandPool)] + (if indices.TransferAvailable() then [CommandPool(commandPoolTransfer)] else []);
      var tail := [Device(logicalDevice), Surface(surface)];
      var released := swapchain + descriptors + uniforms + mesh + sync + pools + tail;
      assert released == DeviceReleases();
      var after := mesh + sync + pools + tail;
      assert released == (swapchain + descriptors) + uniforms + after;
      BufferReleasesAt(uniformBuffers, uniformBuffersMemory, |swapchainData.images|);
      forall k | 0 <= k < |swapchainData.images|
        ensures Buffer(uniformBuffers[k]) in released && Memory(uniformBuffersMemory[k]) in released
      {
        ElementOfMiddle(swapchain + descriptors, uniforms, after, 2 * k);
        ElementOfMiddle(swapchain + descriptors, uniforms, after, 2 * k + 1);
      }
      assert released == (swapchain + descriptors + uniforms + mesh + sync) + pools + tail;
      ElementOfMiddle(swapchain + descriptors + uniforms + mesh + sync, pools, tail, 0);
      if indices.TransferAvailable() {
        ElementOfMiddle(swapchain + descriptors + uniforms + mesh + sync, pools, tail, 1);
      }
    }

    /** The releases of cleanup up to and including the surface, in the
        order DeviceReleases lists them. */
    method ReleaseDeviceObjects() returns (released: seq<Release>)
      requires CleanupIndexable()
      ensures released == DeviceReleases()
    {
      var swapchainReleased := CleanUpSwapChain();
      var descriptorsReleased := [DescriptorPool(descriptorPool), DescriptorPool(imguiDescriptorPool),
                                  DescriptorSetLayout(descriptorSetLayout)];
      var uniformsReleased := ReleaseBuffers(uniformBuffers, uniformBuffersMemory, |swapchainData.images|);
      var meshReleased := [Buffer(meshData.vertexBuffer), Memory(meshData.vertexBufferMemory),
                           Buffer(meshData.indexBuffer), Memory(meshData.indexBufferMemory)];
      var syncReleased := ReleaseSyncObjects(imageAvailableSemaphores, renderFinishedSemaphores, inFlightFenceHandles,
                                             FrameLoop.MAX_FRAMES_IN_FLIGHT);
      var poolsReleased := [CommandPool(commandPool)];
      if indices.TransferAvailable() {
        poolsReleased := poolsReleased + [CommandPool(commandPoolTransfer)];
      }
      released := swapchainReleased + descriptorsReleased + uniformsReleased + meshReleased + syncReleased + poolsReleased
                  + [Device(logicalDevice), Surface(surface)];
    }

    /** cleanup: does nothing when already cleaned (or never initialised);
        otherwise marks the engine cleaned and releases, in order, what
        DeviceReleases lists, then with validation on the debug messenger
        through destroyDebugMessenger (`destroyMessengerFound` says whether
        its entry point exists; VK_CALL throws when it does not, and the
        instance is then never destroyed), and last the instance. */
    method Cleanup(destroyMessengerFound: bool) returns (r: Result<()>, released: seq<Release>)
      requires !isCleaned ==> CleanupIndexable()
      modifies this`isCleaned
      ensures isCleaned
      ensures old(isCleaned) ==> r == Ok(()) && released == []
      ensures !old(isCleaned) ==>
        && (r.Ok? <==> !enableValidationLayers || destroyMessengerFound)
        && (r.Throw? ==> r.error == VK_CALL_ERROR)
        && released == old(DeviceReleases())
                       + (if !enableValidationLayers then [Instance(instance)]
                          else if destroyMessengerFound then [DebugUtilsMessenger(debugMessenger), Instance(instance)]
                          else [])
    {
      r := Ok(());
      released := [];
      if isCleaned {
        return;
      }
      isCleaned := true;
      released := ReleaseDeviceObjects();
      if enableValidationLayers {
        r := DebugMessenger.DestroyDebugMessenger(destroyMessengerFound);
        if r.Throw? {
          return;
        }
        released := released + [DebugUtilsMessenger(debugMessenger)];
      }
      released := released + [Instance(instance)];
    }
  }

  /** An element of the middle part of a concatenation is in it. */
  lemma ElementOfMiddle<T>(before: seq<T>, middle: seq<T>, after: seq<T>, i: nat)
    requires i < |middle|
    ensures middle[i] in before + middle + after
  {
    assert (before + middle + after)[|before| + i] == middle[i];
  }

  /** Every release in `released` is of an object the logical device owns. */
  predicate FromDevice(released: seq<Release>)
  {
    forall k :: 0 <= k < |released| ==> DeviceChild(released[k])
  }

  /** The shape facts of DeviceReleases' concatenation: the swapchain part
      is a prefix, the device and the surface come last, and every earlier
      release is of an object made from the device. */
  lemma DeviceReleasesFacts(swapchain: seq<Release>, descriptors: seq<Release>, uniforms: seq<Release>, mesh: seq<Release>,
                            sync: seq<Release>, pools: seq<Release>, device: Handle, surface: Handle)
    requires FromDevice(swapchain) && FromDevice(descriptors) && FromDevice(uniforms)
    requires FromDevice(mesh) && FromDevice(sync) && FromDevice(pools)
    ensures var released := swapchain + descriptors + uniforms + mesh + sync + pools + [Device(device), Surface(surface)];
      && released[..|swapchain|] == swapchain
      && released[|released| - 2..] == [Device(device), Surface(surface)]
      && forall k :: 0 <= k < |released| - 2 ==> DeviceChild(released[k])
  {
    var released := swapchain + descriptors + uniforms + mesh + sync + pools + [Device(device), Surface(surface)];
    var children := swapchain + descriptors + uniforms + mesh + sync + pools;
    assert released == children + [Device(device), Surface(surface)];
    forall k | 0 <= k < |children|
      ensures DeviceChild(children[k])
    {
      if k < |swapchain| {
      } else if k < |swapchain| + |descriptors| {
        assert children[k] == descriptors[k - |swapchain|];
      } else if k < |swapchain| + |descriptors| + |uniforms| {
        assert children[k] == uniforms[k - |swapchain| - |descriptors|];
      } else if k < |swapchain| + |descriptors| + |uniforms| + |mesh| {
        assert children[k] == mesh[k - |swapchain| - |descriptors| - |uniforms|];
      } else if k < |swapchain| + |descriptors| + |uniforms| + |mesh| + |sync| {
        assert children[k] == sync[k - |swapchain| - |descriptors| - |uniforms| - |mesh|];
      } else {
        assert children[k] == pools[k - |swapchain| - |descriptors| - |uniforms| - |mesh| - |sync|];
      }
    }
  }
}
