/** The engine's helpers: sample-count selection, stencil test, memory-type
    search, buffer creation, image-layout transitions and the single-time
    command buffers that carry copies and transitions to the GPU. */
module Utils {
  import opened Vulkan
  import opened PhysicalDeviceProperties

  // ---------------------------------------------------------------------
  // Sample counts

  /** The sample-count bits the engine tries, highest first. */
  const SAMPLE_COUNTS_HIGH_TO_LOW: seq<Flags> :=
    [VK_SAMPLE_COUNT_32_BIT, VK_SAMPLE_COUNT_16_BIT, VK_SAMPLE_COUNT_8_BIT, VK_SAMPLE_COUNT_4_BIT, VK_SAMPLE_COUNT_2_BIT]

  /** The sample count `b` is among the bits set in `counts`. */
  predicate Supports(counts: Flags, b: Flags) {
    counts & b != 0
  }

  /** The highest of 32, 16, 8, 4, 2 samples whose bit is set in `counts`,
      or one sample when none is. */
  function HighestSampleCount(counts: Flags): (r: Flags)
    ensures r == VK_SAMPLE_COUNT_1_BIT || r in SAMPLE_COUNTS_HIGH_TO_LOW
    ensures r != VK_SAMPLE_COUNT_1_BIT ==> Supports(counts, r)
    ensures r < VK_SAMPLE_COUNT_32_BIT ==> !Supports(counts, VK_SAMPLE_COUNT_32_BIT)
    ensures r < VK_SAMPLE_COUNT_16_BIT ==> !Supports(counts, VK_SAMPLE_COUNT_16_BIT)
    ensures r < VK_SAMPLE_COUNT_8_BIT ==> !Supports(counts, VK_SAMPLE_COUNT_8_BIT)
    ensures r < VK_SAMPLE_COUNT_4_BIT ==> !Supports(counts, VK_SAMPLE_COUNT_4_BIT)
    ensures r < VK_SAMPLE_COUNT_2_BIT ==> !Supports(counts, VK_SAMPLE_COUNT_2_BIT)
  {
    if counts & VK_SAMPLE_COUNT_32_BIT != 0 then VK_SAMPLE_COUNT_32_BIT
    else if counts & VK_SAMPLE_COUNT_16_BIT != 0 then VK_SAMPLE_COUNT_16_BIT
    else if counts & VK_SAMPLE_COUNT_8_BIT != 0 then VK_SAMPLE_COUNT_8_BIT
    else if counts & VK_SAMPLE_COUNT_4_BIT != 0 then VK_SAMPLE_COUNT_4_BIT
    else if counts & VK_SAMPLE_COUNT_2_BIT != 0 then VK_SAMPLE_COUNT_2_BIT
    else VK_SAMPLE_COUNT_1_BIT
  }

  /** std::min on the two masks, compared as unsigned integers. */
  function MinMask(a: Flags, b: Flags): Flags {
    if b < a then b else a
  }

  /** The MSAA sample count as the code computes it: from the numeric minimum
      of the color and depth sample-count masks, not their intersection. */
  function GetMaxUsableSampleCount(colorSampleCounts: Flags, depthSampleCounts: Flags): (r: Flags)
    ensures r == VK_SAMPLE_COUNT_1_BIT || r in SAMPLE_COUNTS_HIGH_TO_LOW
    ensures r != VK_SAMPLE_COUNT_1_BIT ==>
      if colorSampleCounts <= depthSampleCounts then Supports(colorSampleCounts, r) else Supports(depthSampleCounts, r)
    ensures r < VK_SAMPLE_COUNT_32_BIT ==> !Supports(MinMask(colorSampleCounts, depthSampleCounts), VK_SAMPLE_COUNT_32_BIT)
    ensures r < VK_SAMPLE_COUNT_16_BIT ==> !Supports(MinMask(colorSampleCounts, depthSampleCounts), VK_SAMPLE_COUNT_16_BIT)
    ensures r < VK_SAMPLE_COUNT_8_BIT ==> !Supports(MinMask(colorSampleCounts, depthSampleCounts), VK_SAMPLE_COUNT_8_BIT)
    ensures r < VK_SAMPLE_COUNT_4_BIT ==> !Supports(MinMask(colorSampleCounts, depthSampleCounts), VK_SAMPLE_COUNT_4_BIT)
    ensures r < VK_SAMPLE_COUNT_2_BIT ==> !Supports(MinMask(colorSampleCounts, depthSampleCounts), VK_SAMPLE_COUNT_2_BIT)
  {
    HighestSampleCount(MinMask(colorSampleCounts, depthSampleCounts))
  }

  /** When every count the color attachments support is also supported by
      depth attachments, the numeric minimum is the color mask, which is then
      the intersection, and the computation as written agrees with the
      corrected one. */
  lemma SampleCountAgreesWhenColorNested(colorSampleCounts: Flags, depthSampleCounts: Flags)
    requires colorSampleCounts & depthSampleCounts == colorSampleCounts
    ensures GetMaxUsableSampleCount(colorSampleCounts, depthSampleCounts)
         == GetMaxUsableSampleCountCorrected(colorSampleCounts, depthSampleCounts)
  {
    SubsetIsNotGreater(colorSampleCounts, depthSampleCounts);
    assert MinMask(colorSampleCounts, depthSampleCounts) == colorSampleCounts & depthSampleCounts;
  }

  /** A mask whose bits are all set in another is numerically no greater. */
  lemma SubsetIsNotGreater(a: Flags, b: Flags)
    requires a & b == a
    ensures a <= b
  {
  }

  /** Both the color and the depth attachments support `b` samples. */
  predicate SupportedByBoth(colorSampleCounts: Flags, depthSampleCounts: Flags, b: Flags) {
    Supports(colorSampleCounts, b) && Supports(depthSampleCounts, b)
  }

  /** The MSAA sample count computed from the counts both attachment kinds
      support (the bitwise AND of the two masks): a count both support, and
      no higher count that both support is skipped. */
  function GetMaxUsableSampleCountCorrected(colorSampleCounts: Flags, depthSampleCounts: Flags): (r: Flags)
    ensures r != VK_SAMPLE_COUNT_1_BIT ==> SupportedByBoth(colorSampleCounts, depthSampleCounts, r)
    ensures r < VK_SAMPLE_COUNT_32_BIT ==> !SupportedByBoth(colorSampleCounts, depthSampleCounts, VK_SAMPLE_COUNT_32_BIT)
    ensures r < VK_SAMPLE_COUNT_16_BIT ==> !SupportedByBoth(colorSampleCounts, depthSampleCounts, VK_SAMPLE_COUNT_16_BIT)
    ensures r < VK_SAMPLE_COUNT_8_BIT ==> !SupportedByBoth(colorSampleCounts, depthSampleCounts, VK_SAMPLE_COUNT_8_BIT)
    ensures r < VK_SAMPLE_COUNT_4_BIT ==> !SupportedByBoth(colorSampleCounts, depthSampleCounts, VK_SAMPLE_COUNT_4_BIT)
    ensures r < VK_SAMPLE_COUNT_2_BIT ==> !SupportedByBoth(colorSampleCounts, depthSampleCounts, VK_SAMPLE_COUNT_2_BIT)
  {
    HighestSampleCount(colorSampleCounts & depthSampleCounts)
  }

  /** Color {1, 4, 16} and depth {1, 4, 8}: the numeric minimum is the depth
      mask, so 8 samples are chosen, which color attachments do not
      support; the intersection gives 4. */
  lemma SampleCountMinPicksUnsupportedCount()
    ensures GetMaxUsableSampleCount(0x15, 0x0D) == VK_SAMPLE_COUNT_8_BIT
    ensures !SupportedByBoth(0x15, 0x0D, VK_SAMPLE_COUNT_8_BIT)
    ensures GetMaxUsableSampleCountCorrected(0x15, 0x0D) == VK_SAMPLE_COUNT_4_BIT
  {
  }

  /** The depth formats that carry a stencil aspect. */
  predicate HasStencilComponent(format: VkFormat): (r: bool)
    ensures r <==> VK_FORMAT_D16_UNORM_S8_UINT <= format <= VK_FORMAT_D32_SFLOAT_S8_UINT
    ensures format == VK_FORMAT_D32_SFLOAT ==> !r
  {
    format == VK_FORMAT_D16_UNORM_S8_UINT || format == VK_FORMAT_D24_UNORM_S8_UINT ||
    format == VK_FORMAT_D32_SFLOAT_S8_UINT
  }

  // ---------------------------------------------------------------------
  // Memory types

  /** Memory type `i` is allowed by `typeFilter` (bit i) and has every
      requested property flag. */
  predicate MemoryTypeFits(typeFilter: Flags, properties: Flags, memoryProperties: MemoryProperties, i: nat)
    requires i < |memoryProperties.memoryTypes| <= VK_MAX_MEMORY_TYPES
  {
    typeFilter & (1 << i) != 0 && HasAll(memoryProperties.memoryTypes[i], properties)
  }

  /** The lowest memory type that fits; throws when none does. */
  method FindMemoryType(typeFilter: Flags, properties: Flags, memoryProperties: MemoryProperties)
    returns (r: Result<nat>)
    requires |memoryProperties.memoryTypes| <= VK_MAX_MEMORY_TYPES
    ensures r.Ok? ==>
      && r.value < |memoryProperties.memoryTypes|
      && MemoryTypeFits(typeFilter, properties, memoryProperties, r.value)
      && forall j :: 0 <= j < r.value ==> !MemoryTypeFits(typeFilter, properties, memoryProperties, j)
    ensures r.Throw? <==> forall j :: 0 <= j < |memoryProperties.memoryTypes| ==> !MemoryTypeFits(typeFilter, properties, memoryProperties, j)
  {
    var i := 0;
    while i < |memoryProperties.memoryTypes|
      invariant i <= |memoryProperties.memoryTypes|
      invariant forall j :: 0 <= j < i ==> !MemoryTypeFits(typeFilter, properties, memoryProperties, j)
    {
      if typeFilter & (1 << i) != 0 && HasAll(memoryProperties.memoryTypes[i], properties) {
        assert MemoryTypeFits(typeFilter, properties, memoryProperties, i);
        return Ok(i);
      }
      i := i + 1;
    }
    return Throw(RuntimeError("failed to find suitable memory type"));
  }

  // ---------------------------------------------------------------------
  // Buffers

  /** The create-info `createBuffer` fills: shared between the graphics and
      the transfer family when a distinct transfer family exists, otherwise
      owned by the graphics family alone. The indices are converted to
      uint32_t. */
  function BufferInfo(indices: QueueFamilyIndices, size: nat, usage: Flags): (info: BufferCreateInfo)
    ensures info.size == size && info.usage == usage
    ensures info.sharingMode == Concurrent <==> indices.TransferAvailable()
    ensures info.sharingMode == Concurrent ==> |info.queueFamilyIndices| == 2
    ensures info.sharingMode == Exclusive ==> |info.queueFamilyIndices| == 1
    ensures info.queueFamilyIndices[0] == ToUint32(indices.graphicsFamily)
  {
    var sharingIndices := [ToUint32(indices.graphicsFamily), ToUint32(indices.transferFamily)];
    if indices.TransferAvailable() then BufferCreateInfo(size, usage, Concurrent, sharingIndices)
    else BufferCreateInfo(size, usage, Exclusive, sharingIndices[..1])
  }

  /** For a device whose indices are complete, a shared buffer names two
      distinct, valid families: graphics then transfer. */
  lemma BufferSharingFamiliesDistinct(indices: QueueFamilyIndices, size: nat, usage: Flags)
    requires indices.IsComplete()
    requires indices.graphicsFamily <= UINT32_MAX && indices.transferFamily <= UINT32_MAX
    ensures var info := BufferInfo(indices, size, usage);
      info.sharingMode == Concurrent ==>
        info.queueFamilyIndices == [indices.graphicsFamily, indices.transferFamily] &&
        info.queueFamilyIndices[0] != info.queueFamilyIndices[1]
  {
  }

  /** createBuffer: create the buffer (VK_CALL), query its requirements, pick a
      memory type (may throw), allocate (VK_CALL) and bind (result ignored).
      The driver's answers are parameters; `calls` are the calls made. */
  method CreateBuffer(indices: QueueFamilyIndices, size: nat, usage: Flags, properties: Flags,
                      memoryProperties: MemoryProperties,
                      createResult: VkResult, buffer: Handle, requirements: MemoryRequirements,
                      allocateResult: VkResult, bufferMemory: Handle)
    returns (r: Result<()>, calls: seq<Call>)
    requires |memoryProperties.memoryTypes| <= VK_MAX_MEMORY_TYPES
    ensures |calls| >= 1 && calls[0] == Call.CreateBuffer(BufferInfo(indices, size, usage))
    ensures createResult != VK_SUCCESS ==> r.Throw? && |calls| == 1
    ensures r.Ok? <==>
      && createResult == VK_SUCCESS && allocateResult == VK_SUCCESS
      && exists i :: 0 <= i < |memoryProperties.memoryTypes| && MemoryTypeFits(requirements.memoryTypeBits, properties, memoryProperties, i)
    ensures |calls| >= 2 <==>
      && createResult == VK_SUCCESS
      && exists i :: 0 <= i < |memoryProperties.memoryTypes| && MemoryTypeFits(requirements.memoryTypeBits, properties, memoryProperties, i)
    ensures |calls| >= 2 ==>
      && calls[1].AllocateMemory? && calls[1].allocationSize == requirements.size
      && calls[1].memoryTypeIndex < |memoryProperties.memoryTypes|
      && MemoryTypeFits(requirements.memoryTypeBits, properties, memoryProperties, calls[1].memoryTypeIndex)
      && forall j :: 0 <= j < calls[1].memoryTypeIndex ==> !MemoryTypeFits(requirements.memoryTypeBits, properties, memoryProperties, j)
    ensures r.Ok? <==> |calls| == 3
    ensures r.Ok? ==> calls[2] == BindBufferMemory(buffer, bufferMemory)
  {
    var bufferInfo := BufferInfo(indices, size, usage);
    calls := [Call.CreateBuffer(bufferInfo)];
    var created := VkCall(createResult);
    if created.Throw? {
      return created, calls;
    }
    var memoryTypeIndex := FindMemoryType(requirements.memoryTypeBits, properties, memoryProperties);
    if memoryTypeIndex.Throw? {
      return Throw(memoryTypeIndex.error), calls;
    }
    calls := calls + [AllocateMemory(requirements.size, memoryTypeIndex.value)];
    var allocation := VkCall(allocateResult);
    if allocation.Throw? {
      return allocation, calls;
    }
    calls := calls + [BindBufferMemory(buffer, bufferMemory)];
    r := Ok(());
  }

  // ---------------------------------------------------------------------
  // Single-time commands

  /** beginSingleTimeCommands: allocate one primary command buffer from the
      pool, then begin recording (one-time submit). */
  function BeginSingleTimeCommands(commandPool: Handle, commandBuffer: Handle): (calls: seq<Call>)
    ensures |calls| == 2
    ensures calls[0].AllocateCommandBuffer? && calls[0].pool == commandPool
    ensures calls[|calls| - 1] == BeginCommandBuffer(commandBuffer)
    ensures forall i :: 0 <= i < |calls| ==> !calls[i].QueueSubmit? && !calls[i].FreeCommandBuffer?
  {
    [AllocateCommandBuffer(commandPool, commandBuffer), BeginCommandBuffer(commandBuffer)]
  }

  /** endSingleTimeCommands: end recording, submit with no fence, wait for the
      queue to go idle, then free the command buffer. */
  function EndSingleTimeCommands(commandPool: Handle, queue: Handle, commandBuffer: Handle): (calls: seq<Call>)
    ensures |calls| == 4
    ensures calls[0] == EndCommandBuffer(commandBuffer)
    ensures calls[|calls| - 1] == FreeCommandBuffer(commandPool, commandBuffer)
    ensures forall i :: 0 <= i < |calls| && calls[i].QueueSubmit? ==> calls[i].fence == NULL_HANDLE && calls[i + 1].QueueWaitIdle?
  {
    [EndCommandBuffer(commandBuffer), QueueSubmit(queue, commandBuffer, NULL_HANDLE),
     QueueWaitIdle(queue), FreeCommandBuffer(commandPool, commandBuffer)]
  }

  /** Within a single-time command the buffer is begun before it is submitted,
      submitted once and without a fence, the queue is waited on after the
      submit, and the buffer is freed last. */
  lemma SingleTimeCommandOrdering(commandPool: Handle, queue: Handle, commandBuffer: Handle)
    ensures var calls := BeginSingleTimeCommands(commandPool, commandBuffer) + EndSingleTimeCommands(commandPool, queue, commandBuffer);
      && calls[|calls| - 1] == FreeCommandBuffer(commandPool, commandBuffer)
      && (forall i :: 0 <= i < |calls| - 1 ==> !calls[i].FreeCommandBuffer?)
      && (forall i :: 0 <= i < |calls| && calls[i].QueueSubmit? ==> calls[i] == QueueSubmit(queue, commandBuffer, NULL_HANDLE))
      && (exists i, j :: 0 <= i < j < |calls| && calls[i].BeginCommandBuffer? && calls[j].QueueSubmit?)
      && (exists i, j :: 0 <= i < j < |calls| && calls[i].QueueSubmit? && calls[j].QueueWaitIdle?)
  {
    var calls := BeginSingleTimeCommands(commandPool, commandBuffer) + EndSingleTimeCommands(commandPool, queue, commandBuffer);
    assert calls[1].BeginCommandBuffer? && calls[3].QueueSubmit? && calls[4].QueueWaitIdle?;
  }

  /** copyBuffer: a single-time command holding one copy of `size` bytes from
      offset 0 of `srcBuffer` to offset 0 of `dstBuffer`. */
  function CopyBuffer(commandPool: Handle, queue: Handle, srcBuffer: Handle, dstBuffer: Handle, size: nat,
                      commandBuffer: Handle): (calls: seq<Call>)
    ensures |calls| == 7 && calls[2].CmdCopyBuffer?
    ensures calls[2].regions == [BufferCopy(0, 0, size)]
    ensures calls[..2] == BeginSingleTimeCommands(commandPool, commandBuffer)
    ensures calls[3..] == EndSingleTimeCommands(commandPool, queue, commandBuffer)
  {
    BeginSingleTimeCommands(commandPool, commandBuffer) +
    [CmdCopyBuffer(commandBuffer, srcBuffer, dstBuffer, [BufferCopy(0, 0, size)])] +
    EndSingleTimeCommands(commandPool, queue, commandBuffer)
  }

  // ---------------------------------------------------------------------
  // Image-layout transitions

  /** Access masks and pipeline stages of an accepted layout transition. */
  datatype TransitionMasks = TransitionMasks(srcAccessMask: Flags, dstAccessMask: Flags, srcStage: Flags, dstStage: Flags)

  /** The four (old, new) layout pairs the engine knows how to transition. */
  predicate KnownTransition(oldLayout: VkImageLayout, newLayout: VkImageLayout) {
    || (oldLayout == VK_IMAGE_LAYOUT_UNDEFINED && newLayout == VK_IMAGE_LAYOUT_TRANSFER_DST_OPTIMAL)
    || (oldLayout == VK_IMAGE_LAYOUT_TRANSFER_DST_OPTIMAL && newLayout == VK_IMAGE_LAYOUT_SHADER_READ_ONLY_OPTIMAL)
    || (oldLayout == VK_IMAGE_LAYOUT_UNDEFINED && newLayout == VK_IMAGE_LAYOUT_DEPTH_STENCIL_ATTACHMENT_OPTIMAL)
    || (oldLayout == VK_IMAGE_LAYOUT_UNDEFINED && newLayout == VK_IMAGE_LAYOUT_COLOR_ATTACHMENT_OPTIMAL)
  }

  /** The access mask that makes the new layout's first use wait for the
      barrier: the writes a transfer makes, the reads a fragment shader makes,
      or the attachment reads and writes. */
  function DestinationAccess(newLayout: VkImageLayout): Flags {
    if newLayout == VK_IMAGE_LAYOUT_TRANSFER_DST_OPTIMAL then VK_ACCESS_TRANSFER_WRITE_BIT
    else if newLayout == VK_IMAGE_LAYOUT_SHADER_READ_ONLY_OPTIMAL then VK_ACCESS_SHADER_READ_BIT
    else if newLayout == VK_IMAGE_LAYOUT_DEPTH_STENCIL_ATTACHMENT_OPTIMAL then
      VK_ACCESS_DEPTH_STENCIL_ATTACHMENT_READ_BIT | VK_ACCESS_DEPTH_STENCIL_ATTACHMENT_WRITE_BIT
    else VK_ACCESS_COLOR_ATTACHMENT_READ_BIT | VK_ACCESS_COLOR_ATTACHMENT_WRITE_BIT
  }

  /** The access mask the barrier waits on: nothing when the old contents are
      undefined, the transfer's writes when leaving the transfer layout. */
  function SourceAccess(oldLayout: VkImageLayout): Flags {
    if oldLayout == VK_IMAGE_LAYOUT_UNDEFINED then 0 else VK_ACCESS_TRANSFER_WRITE_BIT
  }

  /** The stage the barrier waits on: the top of the pipe when the old
      contents are undefined, the transfer stage otherwise. */
  function SourceStage(oldLayout: VkImageLayout): Flags {
    if oldLayout == VK_IMAGE_LAYOUT_UNDEFINED then VK_PIPELINE_STAGE_TOP_OF_PIPE_BIT
    else VK_PIPELINE_STAGE_TRANSFER_BIT
  }

  /** The first stage that uses the image in its new layout. */
  function DestinationStage(newLayout: VkImageLayout): Flags {
    if newLayout == VK_IMAGE_LAYOUT_TRANSFER_DST_OPTIMAL then VK_PIPELINE_STAGE_TRANSFER_BIT
    else if newLayout == VK_IMAGE_LAYOUT_SHADER_READ_ONLY_OPTIMAL then VK_PIPELINE_STAGE_FRAGMENT_SHADER_BIT
    else if newLayout == VK_IMAGE_LAYOUT_DEPTH_STENCIL_ATTACHMENT_OPTIMAL then VK_PIPELINE_STAGE_EARLY_FRAGMENT_TESTS_BIT
    else VK_PIPELINE_STAGE_COLOR_ATTACHMENT_OUTPUT_BIT
  }

  /** The upload chain UNDEFINED -> TRANSFER_DST -> SHADER_READ_ONLY is
      synchronised end to end: the second barrier waits on exactly the access
      and the stage the first barrier made the image available to. */
  lemma UploadChainSynchronised()
    ensures KnownTransition(VK_IMAGE_LAYOUT_UNDEFINED, VK_IMAGE_LAYOUT_TRANSFER_DST_OPTIMAL)
    ensures KnownTransition(VK_IMAGE_LAYOUT_TRANSFER_DST_OPTIMAL, VK_IMAGE_LAYOUT_SHADER_READ_ONLY_OPTIMAL)
    ensures SourceAccess(VK_IMAGE_LAYOUT_TRANSFER_DST_OPTIMAL) == DestinationAccess(VK_IMAGE_LAYOUT_TRANSFER_DST_OPTIMAL)
    ensures SourceStage(VK_IMAGE_LAYOUT_TRANSFER_DST_OPTIMAL) == DestinationStage(VK_IMAGE_LAYOUT_TRANSFER_DST_OPTIMAL)
  {
  }

  /** The aspect the barrier covers: depth for a depth-stencil target, which
      the stencil aspect alone replaces when the format has stencil; color
      for every other target layout. */
  function AspectMask(newLayout: VkImageLayout, format: VkFormat): (aspect: Flags)
    ensures aspect == VK_IMAGE_ASPECT_STENCIL_BIT <==>
      newLayout == VK_IMAGE_LAYOUT_DEPTH_STENCIL_ATTACHMENT_OPTIMAL && HasStencilComponent(format)
    ensures aspect == VK_IMAGE_ASPECT_DEPTH_BIT <==>
      newLayout == VK_IMAGE_LAYOUT_DEPTH_STENCIL_ATTACHMENT_OPTIMAL && !HasStencilComponent(format)
    ensures aspect == VK_IMAGE_ASPECT_COLOR_BIT <==> newLayout != VK_IMAGE_LAYOUT_DEPTH_STENCIL_ATTACHMENT_OPTIMAL
  {
    var aspect := if newLayout == VK_IMAGE_LAYOUT_DEPTH_STENCIL_ATTACHMENT_OPTIMAL then VK_IMAGE_ASPECT_DEPTH_BIT
                  else VK_IMAGE_ASPECT_COLOR_BIT;
    if newLayout == VK_IMAGE_LAYOUT_DEPTH_STENCIL_ATTACHMENT_OPTIMAL && HasStencilComponent(format)
    then VK_IMAGE_ASPECT_STENCIL_BIT else aspect
  }

  /** transitionImageLayout: begins a single-time command, records one image
      barrier and ends the command. An unknown (old, new) pair throws
      invalid_argument after the command buffer was allocated and begun, so
      that buffer is never freed. */
  method TransitionImageLayout(commandPool: Handle, queue: Handle, image: Handle, format: VkFormat,
                               oldLayout: VkImageLayout, newLayout: VkImageLayout, mipLevels: nat,
                               commandBuffer: Handle)
    returns (r: Result<TransitionMasks>, calls: seq<Call>)
    ensures r.Ok? <==> KnownTransition(oldLayout, newLayout)
    ensures r.Throw? ==> r.error.InvalidArgument? && calls == BeginSingleTimeCommands(commandPool, commandBuffer)
    ensures oldLayout == VK_IMAGE_LAYOUT_UNDEFINED && newLayout == VK_IMAGE_LAYOUT_TRANSFER_DST_OPTIMAL ==>
      r == Ok(TransitionMasks(0, VK_ACCESS_TRANSFER_WRITE_BIT, VK_PIPELINE_STAGE_TOP_OF_PIPE_BIT, VK_PIPELINE_STAGE_TRANSFER_BIT))
    ensures oldLayout == VK_IMAGE_LAYOUT_TRANSFER_DST_OPTIMAL && newLayout == VK_IMAGE_LAYOUT_SHADER_READ_ONLY_OPTIMAL ==>
      r == Ok(TransitionMasks(VK_ACCESS_TRANSFER_WRITE_BIT, VK_ACCESS_SHADER_READ_BIT,
                              VK_PIPELINE_STAGE_TRANSFER_BIT, VK_PIPELINE_STAGE_FRAGMENT_SHADER_BIT))
    ensures oldLayout == VK_IMAGE_LAYOUT_UNDEFINED && newLayout == VK_IMAGE_LAYOUT_DEPTH_STENCIL_ATTACHMENT_OPTIMAL ==>
      r == Ok(TransitionMasks(0, VK_ACCESS_DEPTH_STENCIL_ATTACHMENT_READ_BIT | VK_ACCESS_DEPTH_STENCIL_ATTACHMENT_WRITE_BIT,
                              VK_PIPELINE_STAGE_TOP_OF_PIPE_BIT, VK_PIPELINE_STAGE_EARLY_FRAGMENT_TESTS_BIT))
    ensures oldLayout == VK_IMAGE_LAYOUT_UNDEFINED && newLayout == VK_IMAGE_LAYOUT_COLOR_ATTACHMENT_OPTIMAL ==>
      r == Ok(TransitionMasks(0, VK_ACCESS_COLOR_ATTACHMENT_READ_BIT | VK_ACCESS_COLOR_ATTACHMENT_WRITE_BIT,
                              VK_PIPELINE_STAGE_TOP_OF_PIPE_BIT, VK_PIPELINE_STAGE_COLOR_ATTACHMENT_OUTPUT_BIT))
    ensures r.Ok? ==>
      && r.value == TransitionMasks(SourceAccess(oldLayout), DestinationAccess(newLayout),
                                    SourceStage(oldLayout), DestinationStage(newLayout))
      && (r.value.srcAccessMask == 0 <==> oldLayout == VK_IMAGE_LAYOUT_UNDEFINED)
      && (r.value.srcStage == VK_PIPELINE_STAGE_TOP_OF_PIPE_BIT <==> oldLayout == VK_IMAGE_LAYOUT_UNDEFINED)
      && calls == BeginSingleTimeCommands(commandPool, commandBuffer)
        + [CmdPipelineBarrier(commandBuffer, r.value.srcStage, r.value.dstStage,
             ImageMemoryBarrier(oldLayout, newLayout, image, AspectMask(newLayout, format), mipLevels,
                                r.value.srcAccessMask, r.value.dstAccessMask))]
        + EndSingleTimeCommands(commandPool, queue, commandBuffer)
  {
    calls := BeginSingleTimeCommands(commandPool, commandBuffer);

    var aspectMask: Flags;
    if newLayout == VK_IMAGE_LAYOUT_DEPTH_STENCIL_ATTACHMENT_OPTIMAL {
      aspectMask := VK_IMAGE_ASPECT_DEPTH_BIT;
      if HasStencilComponent(format) {
        aspectMask := VK_IMAGE_ASPECT_STENCIL_BIT;
      }
    } else {
      aspectMask := VK_IMAGE_ASPECT_COLOR_BIT;
    }

    var masks: TransitionMasks;
    if oldLayout == VK_IMAGE_LAYOUT_UNDEFINED && newLayout == VK_IMAGE_LAYOUT_TRANSFER_DST_OPTIMAL {
      masks := TransitionMasks(0, VK_ACCESS_TRANSFER_WRITE_BIT,
                               VK_PIPELINE_STAGE_TOP_OF_PIPE_BIT, VK_PIPELINE_STAGE_TRANSFER_BIT);
    } else if oldLayout == VK_IMAGE_LAYOUT_TRANSFER_DST_OPTIMAL && newLayout == VK_IMAGE_LAYOUT_SHADER_READ_ONLY_OPTIMAL {
      masks := TransitionMasks(VK_ACCESS_TRANSFER_WRITE_BIT, VK_ACCESS_SHADER_READ_BIT,
                               VK_PIPELINE_STAGE_TRANSFER_BIT, VK_PIPELINE_STAGE_FRAGMENT_SHADER_BIT);
    } else if oldLayout == VK_IMAGE_LAYOUT_UNDEFINED && newLayout == VK_IMAGE_LAYOUT_DEPTH_STENCIL_ATTACHMENT_OPTIMAL {
      masks := TransitionMasks(0, VK_ACCESS_DEPTH_STENCIL_ATTACHMENT_READ_BIT | VK_ACCESS_DEPTH_STENCIL_ATTACHMENT_WRITE_BIT,
                               VK_PIPELINE_STAGE_TOP_OF_PIPE_BIT, VK_PIPELINE_STAGE_EARLY_FRAGMENT_TESTS_BIT);
    } else if oldLayout == VK_IMAGE_LAYOUT_UNDEFINED && newLayout == VK_IMAGE_LAYOUT_COLOR_ATTACHMENT_OPTIMAL {
      masks := TransitionMasks(0, VK_ACCESS_COLOR_ATTACHMENT_READ_BIT | VK_ACCESS_COLOR_ATTACHMENT_WRITE_BIT,
                               VK_PIPELINE_STAGE_TOP_OF_PIPE_BIT, VK_PIPELINE_STAGE_COLOR_ATTACHMENT_OUTPUT_BIT);
    } else {
      return Throw(InvalidArgument("Unknown layer transition")), calls;
    }

    var barrier := ImageMemoryBarrier(oldLayout, newLayout, image, aspectMask, mipLevels,
                                      masks.srcAccessMask, masks.dstAccessMask);
    calls := calls + [CmdPipelineBarrier(commandBuffer, masks.srcStage, masks.dstStage, barrier)];
    calls := calls + EndSingleTimeCommands(commandPool, queue, commandBuffer);
    r := Ok(masks);
  }
}
