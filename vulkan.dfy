/** The part of the Vulkan 1.0 API the engine relies on: result codes, enum
    values and flag bits (with the values of the Vulkan headers), opaque
    handles, the records the engine fills in before calling the driver, and
    the engine's VK_CALL convention that turns a failing call into an
    exception. Driver calls themselves are not modelled: what they return is
    an input of the model, and the calls the engine makes are recorded as a
    trace of `Call` values. */
module Vulkan {

  /** VkResult codes. */
  type VkResult = int
  const VK_SUCCESS: VkResult := 0
  const VK_SUBOPTIMAL_KHR: VkResult := 1000001003
  const VK_ERROR_OUT_OF_HOST_MEMORY: VkResult := -1
  const VK_ERROR_OUT_OF_DEVICE_MEMORY: VkResult := -2
  const VK_ERROR_DEVICE_LOST: VkResult := -4
  const VK_ERROR_MEMORY_MAP_FAILED: VkResult := -5
  const VK_ERROR_EXTENSION_NOT_PRESENT: VkResult := -7
  const VK_ERROR_OUT_OF_DATE_KHR: VkResult := -1000001004

  /** VkBool32 */
  type VkBool32 = nat
  const VK_FALSE: VkBool32 := 0
  const VK_TRUE: VkBool32 := 1

  /** Handles are opaque ids; 0 stands for VK_NULL_HANDLE. */
  type Handle = nat
  const NULL_HANDLE: Handle := 0

  /** Every Vk*Flags type is a 32-bit mask. */
  type Flags = bv32

  /** Every bit of `wanted` is set in `available`. */
  predicate HasAll(available: Flags, wanted: Flags) {
    available & wanted == wanted
  }

  const UINT32_MAX: nat := 0xFFFF_FFFF
  const UINT32_MODULUS: nat := 0x1_0000_0000

  /** The value a C++ conversion to uint32_t gives (wrap-around modulo 2^32). */
  function ToUint32(x: int): (r: nat)
    ensures r <= UINT32_MAX
    ensures 0 <= x <= UINT32_MAX ==> r == x
    ensures (r - x) % UINT32_MODULUS == 0
  {
    x % UINT32_MODULUS
  }

  // VkFormat
  type VkFormat = int
  const VK_FORMAT_UNDEFINED: VkFormat := 0
  const VK_FORMAT_B8G8R8A8_UNORM: VkFormat := 44
  const VK_FORMAT_D32_SFLOAT: VkFormat := 126
  const VK_FORMAT_D16_UNORM_S8_UINT: VkFormat := 128
  const VK_FORMAT_D24_UNORM_S8_UINT: VkFormat := 129
  const VK_FORMAT_D32_SFLOAT_S8_UINT: VkFormat := 130

  // VkColorSpaceKHR
  type VkColorSpace = int
  const VK_COLOR_SPACE_SRGB_NONLINEAR_KHR: VkColorSpace := 0

  // VkPresentModeKHR
  type VkPresentMode = int
  const VK_PRESENT_MODE_IMMEDIATE_KHR: VkPresentMode := 0
  const VK_PRESENT_MODE_MAILBOX_KHR: VkPresentMode := 1
  const VK_PRESENT_MODE_FIFO_KHR: VkPresentMode := 2

  // VkImageLayout
  type VkImageLayout = int
  const VK_IMAGE_LAYOUT_UNDEFINED: VkImageLayout := 0
  const VK_IMAGE_LAYOUT_COLOR_ATTACHMENT_OPTIMAL: VkImageLayout := 2
  const VK_IMAGE_LAYOUT_DEPTH_STENCIL_ATTACHMENT_OPTIMAL: VkImageLayout := 3
  const VK_IMAGE_LAYOUT_SHADER_READ_ONLY_OPTIMAL: VkImageLayout := 5
  const VK_IMAGE_LAYOUT_TRANSFER_DST_OPTIMAL: VkImageLayout := 7

  // VkImageTiling
  type VkImageTiling = int
  const VK_IMAGE_TILING_OPTIMAL: VkImageTiling := 0
  const VK_IMAGE_TILING_LINEAR: VkImageTiling := 1

  // VkPhysicalDeviceType
  type VkPhysicalDeviceType = int
  const VK_PHYSICAL_DEVICE_TYPE_INTEGRATED_GPU: VkPhysicalDeviceType := 1
  const VK_PHYSICAL_DEVICE_TYPE_DISCRETE_GPU: VkPhysicalDeviceType := 2

  // VkQueueFlagBits
  const VK_QUEUE_GRAPHICS_BIT: Flags := 0x1
  const VK_QUEUE_TRANSFER_BIT: Flags := 0x4

  // VkMemoryPropertyFlagBits
  const VK_MEMORY_PROPERTY_DEVICE_LOCAL_BIT: Flags := 0x1
  const VK_MEMORY_PROPERTY_HOST_VISIBLE_BIT: Flags := 0x2
  const VK_MEMORY_PROPERTY_HOST_COHERENT_BIT: Flags := 0x4

  /** VK_MAX_MEMORY_TYPES: the length of VkPhysicalDeviceMemoryProperties::memoryTypes */
  const VK_MAX_MEMORY_TYPES: nat := 32

  // VkSampleCountFlagBits
  const VK_SAMPLE_COUNT_1_BIT: Flags := 0x1
  const VK_SAMPLE_COUNT_2_BIT: Flags := 0x2
  const VK_SAMPLE_COUNT_4_BIT: Flags := 0x4
  const VK_SAMPLE_COUNT_8_BIT: Flags := 0x8
  const VK_SAMPLE_COUNT_16_BIT: Flags := 0x10
  const VK_SAMPLE_COUNT_32_BIT: Flags := 0x20

  // VkImageAspectFlagBits
  const VK_IMAGE_ASPECT_COLOR_BIT: Flags := 0x1
  const VK_IMAGE_ASPECT_DEPTH_BIT: Flags := 0x2
  const VK_IMAGE_ASPECT_STENCIL_BIT: Flags := 0x4

  // VkAccessFlagBits
  const VK_ACCESS_SHADER_READ_BIT: Flags := 0x20
  const VK_ACCESS_COLOR_ATTACHMENT_READ_BIT: Flags := 0x80
  const VK_ACCESS_COLOR_ATTACHMENT_WRITE_BIT: Flags := 0x100
  const VK_ACCESS_DEPTH_STENCIL_ATTACHMENT_READ_BIT: Flags := 0x200
  const VK_ACCESS_DEPTH_STENCIL_ATTACHMENT_WRITE_BIT: Flags := 0x400
  const VK_ACCESS_TRANSFER_WRITE_BIT: Flags := 0x1000

  // VkPipelineStageFlagBits
  const VK_PIPELINE_STAGE_TOP_OF_PIPE_BIT: Flags := 0x1
  const VK_PIPELINE_STAGE_FRAGMENT_SHADER_BIT: Flags := 0x80
  const VK_PIPELINE_STAGE_EARLY_FRAGMENT_TESTS_BIT: Flags := 0x100
  const VK_PIPELINE_STAGE_COLOR_ATTACHMENT_OUTPUT_BIT: Flags := 0x400
  const VK_PIPELINE_STAGE_TRANSFER_BIT: Flags := 0x1000

  // VkFormatFeatureFlagBits
  const VK_FORMAT_FEATURE_DEPTH_STENCIL_ATTACHMENT_BIT: Flags := 0x200

  // VkDebugUtilsMessageSeverityFlagBitsEXT
  const VK_DEBUG_UTILS_MESSAGE_SEVERITY_VERBOSE_BIT_EXT: Flags := 0x1
  const VK_DEBUG_UTILS_MESSAGE_SEVERITY_INFO_BIT_EXT: Flags := 0x10
  const VK_DEBUG_UTILS_MESSAGE_SEVERITY_WARNING_BIT_EXT: Flags := 0x100
  const VK_DEBUG_UTILS_MESSAGE_SEVERITY_ERROR_BIT_EXT: Flags := 0x1000

  /** VkSharingMode */
  datatype SharingMode = Exclusive | Concurrent

  /** VkExtent2D */
  datatype Extent2D = Extent2D(width: nat, height: nat)

  /** VkSurfaceFormatKHR */
  datatype SurfaceFormat = SurfaceFormat(format: VkFormat, colorSpace: VkColorSpace)

  /** The fields of VkBufferCreateInfo the engine sets. */
  datatype BufferCreateInfo = BufferCreateInfo(
    size: nat,
    usage: Flags,
    sharingMode: SharingMode,
    queueFamilyIndices: seq<nat>)

  /** VkMemoryRequirements as reported for a buffer. */
  datatype MemoryRequirements = MemoryRequirements(size: nat, memoryTypeBits: Flags)

  /** VkPhysicalDeviceMemoryProperties: the property flags of each memory type,
      `|memoryTypes|` being memoryTypeCount. */
  datatype MemoryProperties = MemoryProperties(memoryTypes: seq<Flags>)

  /** VkBufferCopy */
  datatype BufferCopy = BufferCopy(srcOffset: nat, dstOffset: nat, size: nat)

  /** The fields of VkImageMemoryBarrier the engine sets. */
  datatype ImageMemoryBarrier = ImageMemoryBarrier(
    oldLayout: VkImageLayout,
    newLayout: VkImageLayout,
    image: Handle,
    aspectMask: Flags,
    levelCount: nat,
    srcAccessMask: Flags,
    dstAccessMask: Flags)

  /** A driver call the engine makes, in the order it makes them. */
  datatype Call =
    | CreateBuffer(info: BufferCreateInfo)
    | AllocateMemory(allocationSize: nat, memoryTypeIndex: nat)
    | BindBufferMemory(buffer: Handle, memory: Handle)
    | MapMemory(memory: Handle)
    | UnmapMemory(memory: Handle)
    | DestroyBuffer(buffer: Handle)
    | FreeMemory(memory: Handle)
    | AllocateCommandBuffer(pool: Handle, commandBuffer: Handle)
    | BeginCommandBuffer(commandBuffer: Handle)
    | CmdCopyBuffer(commandBuffer: Handle, src: Handle, dst: Handle, regions: seq<BufferCopy>)
    | CmdPipelineBarrier(commandBuffer: Handle, srcStage: Flags, dstStage: Flags, barrier: ImageMemoryBarrier)
    | EndCommandBuffer(commandBuffer: Handle)
    | QueueSubmit(queue: Handle, commandBuffer: Handle, fence: Handle)
    | QueueWaitIdle(queue: Handle)
    | FreeCommandBuffer(pool: Handle, commandBuffer: Handle)

  datatype Option<T> = None | Some(value: T)

  /** A C++ exception leaving the engine. */
  datatype Exception = RuntimeError(what: string) | InvalidArgument(what: string)

  /** The outcome of an engine function that may throw. */
  datatype Result<T> = Ok(value: T) | Throw(error: Exception)

  /** The exception VK_CALL throws. */
  const VK_CALL_ERROR: Exception := RuntimeError("Failed to run function")

  /** VK_CALL(f): any result of `f` other than VK_SUCCESS throws. */
  function VkCall(result: VkResult): (r: Result<()>)
    ensures r.Ok? <==> result == VK_SUCCESS
    ensures r.Throw? ==> r.error == VK_CALL_ERROR
  {
    if result != VK_SUCCESS then Throw(VK_CALL_ERROR) else Ok(())
  }

  /** Every call in a sequence of VK_CALLs succeeds. */
  predicate AllSucceed(results: seq<VkResult>) {
    forall j :: 0 <= j < |results| ==> results[j] == VK_SUCCESS
  }

  /** In a sequence of VK_CALLs, call `k` is the first that fails, so it is
      the one that throws. */
  predicate FailsFirstAt(results: seq<VkResult>, k: nat) {
    k < |results| && results[k] != VK_SUCCESS && forall j :: 0 <= j < k ==> results[j] == VK_SUCCESS
  }
}
