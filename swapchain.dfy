/** Swapchain negotiation: what the surface reports, the format, present
    mode, extent, image count and image sharing the engine picks from it, and
    the framebuffers built over the swapchain's image views. The functions
    here are the specifications of the `Engine` methods that store these
    choices. */
module Swapchain {
  import opened Vulkan
  import opened PhysicalDeviceProperties

  /** The fields of VkSurfaceCapabilitiesKHR the engine reads. */
  datatype SurfaceCapabilities = SurfaceCapabilities(
    minImageCount: nat,
    maxImageCount: nat,
    currentExtent: Extent2D,
    minImageExtent: Extent2D,
    maxImageExtent: Extent2D)

  /** SwapChainSupportDetails: what querySwapChainSupport gathers for a
      device and a surface. */
  datatype SwapchainSupportDetails = SwapchainSupportDetails(
    surfaceCapabilities: SurfaceCapabilities,
    surfaceFormats: seq<SurfaceFormat>,
    presentModes: seq<VkPresentMode>)

  /** The engine's Swapchain record: the swapchain handle, its images, one
      view per image, one framebuffer per view, and the negotiated format,
      extent and present mode. */
  datatype SwapchainData = SwapchainData(
    swapchain: Handle,
    images: seq<Handle>,
    imageViews: seq<Handle>,
    framebuffers: seq<Handle>,
    format: SurfaceFormat,
    extent: Extent2D,
    presentMode: VkPresentMode)

  /** The format the engine prefers: 8-bit BGRA in the sRGB colour space. */
  const PREFERRED_SURFACE_FORMAT: SurfaceFormat :=
    SurfaceFormat(VK_FORMAT_B8G8R8A8_UNORM, VK_COLOR_SPACE_SRGB_NONLINEAR_KHR)

  /** A surface that reports a single UNDEFINED format accepts any format. */
  predicate AnyFormatAccepted(available: seq<SurfaceFormat>) {
    |available| == 1 && available[0].format == VK_FORMAT_UNDEFINED
  }

  /** The surface format chooseSwapSurfaceFormat stores: the preferred format
      when the surface accepts any format or offers it, otherwise the first
      format offered. The list must not be empty. */
  function ChosenSurfaceFormat(available: seq<SurfaceFormat>): (format: SurfaceFormat)
    requires |available| > 0
    ensures format in available || AnyFormatAccepted(available)
    ensures format == PREFERRED_SURFACE_FORMAT <==> AnyFormatAccepted(available) || PREFERRED_SURFACE_FORMAT in available
    ensures format != PREFERRED_SURFACE_FORMAT ==> format == available[0]
  {
    if AnyFormatAccepted(available) then PREFERRED_SURFACE_FORMAT
    else if PREFERRED_SURFACE_FORMAT in available then PREFERRED_SURFACE_FORMAT
    else available[0]
  }

  /** The present mode chooseSwapPresentMode stores: MAILBOX when offered,
      else IMMEDIATE when offered, else FIFO (which every surface supports). */
  function ChosenPresentMode(available: seq<VkPresentMode>): (mode: VkPresentMode)
    ensures mode == VK_PRESENT_MODE_MAILBOX_KHR <==> VK_PRESENT_MODE_MAILBOX_KHR in available
    ensures mode == VK_PRESENT_MODE_IMMEDIATE_KHR <==>
      VK_PRESENT_MODE_IMMEDIATE_KHR in available && VK_PRESENT_MODE_MAILBOX_KHR !in available
    ensures mode in available || mode == VK_PRESENT_MODE_FIFO_KHR
  {
    if VK_PRESENT_MODE_MAILBOX_KHR in available then VK_PRESENT_MODE_MAILBOX_KHR
    else if VK_PRESENT_MODE_IMMEDIATE_KHR in available then VK_PRESENT_MODE_IMMEDIATE_KHR
    else VK_PRESENT_MODE_FIFO_KHR
  }

  /** std::max(lo, std::min(hi, v)) */
  function Clamp(lo: nat, hi: nat, v: nat): (r: nat)
    ensures lo <= r
    ensures lo <= hi ==> r <= hi
    ensures lo <= v <= hi ==> r == v
    ensures v < lo ==> r == lo
    ensures lo <= hi < v ==> r == hi
    ensures hi < lo ==> r == lo
  {
    var upper := if hi < v then hi else v;
    if upper < lo then lo else upper
  }

  /** The extent chooseSwapExtent stores: the surface's current extent,
      unless its width is the UINT32_MAX sentinel meaning that the swapchain
      decides; then the window extent clamped, dimension by dimension, into
      the surface's bounds. Only the width is compared with the sentinel. */
  function ChosenExtent(capabilities: SurfaceCapabilities, windowExtent: Extent2D): (extent: Extent2D)
    ensures capabilities.currentExtent.width != UINT32_MAX ==> extent == capabilities.currentExtent
    ensures capabilities.currentExtent.width == UINT32_MAX ==>
      && capabilities.minImageExtent.width <= extent.width
      && capabilities.minImageExtent.height <= extent.height
    ensures (capabilities.currentExtent.width == UINT32_MAX
             && capabilities.minImageExtent.width <= capabilities.maxImageExtent.width
             && capabilities.minImageExtent.height <= capabilities.maxImageExtent.height) ==>
      && extent.width <= capabilities.maxImageExtent.width
      && extent.height <= capabilities.maxImageExtent.height
    ensures (capabilities.currentExtent.width == UINT32_MAX
             && capabilities.minImageExtent.width <= windowExtent.width <= capabilities.maxImageExtent.width
             && capabilities.minImageExtent.height <= windowExtent.height <= capabilities.maxImageExtent.height) ==>
      extent == windowExtent
    ensures capabilities.currentExtent.width == UINT32_MAX ==>
      extent == Extent2D(Clamp(capabilities.minImageExtent.width, capabilities.maxImageExtent.width, windowExtent.width),
                         Clamp(capabilities.minImageExtent.height, capabilities.maxImageExtent.height, windowExtent.height))
    ensures capabilities.currentExtent.width == UINT32_MAX && windowExtent.width < capabilities.minImageExtent.width ==>
      extent.width == capabilities.minImageExtent.width
    ensures capabilities.currentExtent.width == UINT32_MAX && windowExtent.height < capabilities.minImageExtent.height ==>
      extent.height == capabilities.minImageExtent.height
    ensures capabilities.currentExtent.width == UINT32_MAX
            && capabilities.minImageExtent.width <= capabilities.maxImageExtent.width < windowExtent.width ==>
      extent.width == capabilities.maxImageExtent.width
    ensures capabilities.currentExtent.width == UINT32_MAX
            && capabilities.minImageExtent.height <= capabilities.maxImageExtent.height < windowExtent.height ==>
      extent.height == capabilities.maxImageExtent.height
  {
    if capabilities.currentExtent.width != UINT32_MAX then capabilities.currentExtent
    else Extent2D(Clamp(capabilities.minImageExtent.width, capabilities.maxImageExtent.width, windowExtent.width),
                  Clamp(capabilities.minImageExtent.height, capabilities.maxImageExtent.height, windowExtent.height))
  }

  /** The image count requested from the swapchain: one more than the
      surface's minimum, computed in uint32_t, lowered to the maximum when
      there is one (a maximum of 0 means none) and it is exceeded. */
  function ImageCount(capabilities: SurfaceCapabilities): (count: nat)
    ensures capabilities.maxImageCount > 0 ==> count <= capabilities.maxImageCount
    ensures (capabilities.minImageCount < UINT32_MAX
             && (capabilities.maxImageCount == 0 || capabilities.minImageCount < capabilities.maxImageCount)) ==>
      count == capabilities.minImageCount + 1
    ensures capabilities.minImageCount < UINT32_MAX && capabilities.minImageCount <= capabilities.maxImageCount ==>
      capabilities.minImageCount <= count
  {
    var imageCount := ToUint32(capabilities.minImageCount + 1);
    if capabilities.maxImageCount > 0 && imageCount > capabilities.maxImageCount then capabilities.maxImageCount
    else imageCount
  }

  /** How the swapchain images are shared between queue families. */
  datatype ImageSharing = ImageSharing(mode: SharingMode, queueFamilyIndices: seq<nat>)

  /** Concurrent over the graphics and present families (converted to
      uint32_t) when they differ; exclusive with no family list otherwise. */
  function SwapchainImageSharing(indices: QueueFamilyIndices): (sharing: ImageSharing)
    ensures sharing.mode == Concurrent <==> indices.graphicsFamily != indices.presentingFamily
    ensures sharing.mode == Concurrent ==>
      sharing.queueFamilyIndices == [ToUint32(indices.graphicsFamily), ToUint32(indices.presentingFamily)]
    ensures sharing.mode == Exclusive ==> sharing.queueFamilyIndices == []
    ensures (indices.IsComplete() && sharing.mode == Concurrent
             && indices.graphicsFamily <= UINT32_MAX && indices.presentingFamily <= UINT32_MAX) ==>
      sharing.queueFamilyIndices[0] != sharing.queueFamilyIndices[1]
  {
    if indices.graphicsFamily != indices.presentingFamily then
      ImageSharing(Concurrent, [ToUint32(indices.graphicsFamily), ToUint32(indices.presentingFamily)])
    else
      ImageSharing(Exclusive, [])
  }

  /** The fields of VkSwapchainCreateInfoKHR that createSwapChain derives. */
  datatype SwapchainCreateInfo = SwapchainCreateInfo(
    minImageCount: nat,
    imageFormat: SurfaceFormat,
    imageExtent: Extent2D,
    presentMode: VkPresentMode,
    sharing: ImageSharing)

  /** The fields of VkFramebufferCreateInfo that createFramebuffers sets. */
  datatype FramebufferInfo = FramebufferInfo(renderPass: Handle, attachments: seq<Handle>, width: nat, height: nat)

  /** The framebuffers built over `imageViews`: one per view, in view order,
      each over the shared attachments followed by its own view, at the
      swapchain extent. */
  function FramebufferInfos(renderPass: Handle, attachments: seq<Handle>, imageViews: seq<Handle>, extent: Extent2D)
    : (infos: seq<FramebufferInfo>)
    ensures |infos| == |imageViews|
    ensures forall i :: 0 <= i < |infos| ==>
      && infos[i].renderPass == renderPass
      && |infos[i].attachments| == |attachments| + 1
      && infos[i].attachments[..|attachments|] == attachments
      && infos[i].attachments[|attachments|] == imageViews[i]
      && infos[i].width == extent.width && infos[i].height == extent.height
  {
    seq(|imageViews|, i requires 0 <= i < |imageViews| =>
      FramebufferInfo(renderPass, attachments + [imageViews[i]], extent.width, extent.height))
  }

  /** One more view adds one framebuffer at the end. */
  lemma FramebufferInfosSnoc(renderPass: Handle, attachments: seq<Handle>, imageViews: seq<Handle>, extent: Extent2D, i: nat)
    requires i < |imageViews|
    ensures FramebufferInfos(renderPass, attachments, imageViews[..i + 1], extent) ==
            FramebufferInfos(renderPass, attachments, imageViews[..i], extent) +
            [FramebufferInfo(renderPass, attachments + [imageViews[i]], extent.width, extent.height)]
  {
  }

  /** Two framebuffers over different views never share their last
      attachment: each swapchain view is bound to exactly one framebuffer. */
  lemma FramebuffersOwnTheirView(renderPass: Handle, attachments: seq<Handle>, imageViews: seq<Handle>, extent: Extent2D,
                                 i: nat, j: nat)
    requires i < |imageViews| && j < |imageViews|
    requires imageViews[i] != imageViews[j]
    ensures FramebufferInfos(renderPass, attachments, imageViews, extent)[i].attachments !=
            FramebufferInfos(renderPass, attachments, imageViews, extent)[j].attachments
  {
    var infos := FramebufferInfos(renderPass, attachments, imageViews, extent);
    assert infos[i].attachments[|attachments|] != infos[j].attachments[|attachments|];
  }

  /** std::vector::resize: the first entries are kept, new entries are
      value-initialised to `fill`. */
  function Resized<T>(xs: seq<T>, n: nat, fill: T): (r: seq<T>)
    ensures |r| == n
    ensures forall i :: 0 <= i < n && i < |xs| ==> r[i] == xs[i]
    ensures forall i :: |xs| <= i < n ==> r[i] == fill
  {
    if n <= |xs| then xs[..n] else xs + seq(n - |xs|, _ => fill)
  }

  /** The objects that live as long as one swapchain besides its images and
      views: the render pass and the pipeline drawn with it, the depth and
      the multisampled colour attachments (image, memory, view), and the
      primary and secondary command buffers recorded against them. */
  datatype SwapchainObjects = SwapchainObjects(
    renderPass: Handle,
    pipelineLayout: Handle,
    graphicsPipeline: Handle,
    depthImage: Handle,
    depthImageMemory: Handle,
    depthImageView: Handle,
    colorImage: Handle,
    colorImageMemory: Handle,
    colorImageView: Handle,
    primaryCommandBuffers: seq<Handle>,
    secondaryCommandBuffers: seq<Handle>)

  /** No render pass, pipeline, attachment or command buffer yet. */
  const NO_SWAPCHAIN_OBJECTS: SwapchainObjects :=
    SwapchainObjects(NULL_HANDLE, NULL_HANDLE, NULL_HANDLE, NULL_HANDLE, NULL_HANDLE, NULL_HANDLE,
                     NULL_HANDLE, NULL_HANDLE, NULL_HANDLE, [], [])

  /** What the driver answers while the swapchain is (re)built: the surface
      details, the swapchain creation result and handle, the images it owns,
      one view per image, the render pass, pipeline, attachments and command
      buffers created for it, and for each framebuffer the creation result
      and handle. */
  datatype SwapchainBuild = SwapchainBuild(
    details: SwapchainSupportDetails,
    createResult: VkResult,
    swapchain: Handle,
    images: seq<Handle>,
    imageViews: seq<Handle>,
    objects: SwapchainObjects,
    framebufferResults: seq<VkResult>,
    framebuffers: seq<Handle>)
  {
    /** Driver answers of the right shapes: a non-empty format list (the
        device was selected for having one) and one view, framebuffer result
        and framebuffer per image. */
    predicate WellFormed() {
      && |details.surfaceFormats| > 0
      && |imageViews| == |images|
      && |framebufferResults| == |images|
      && |framebuffers| == |images|
    }

    /** Every call of the build that goes through VK_CALL succeeds. */
    predicate Succeeds() {
      createResult == VK_SUCCESS && forall k :: 0 <= k < |framebufferResults| ==> framebufferResults[k] == VK_SUCCESS
    }
  }

  /** The swapchain record after a successful build for a window of
      `windowExtent`. */
  function Built(build: SwapchainBuild, windowExtent: Extent2D): (data: SwapchainData)
    requires build.WellFormed()
    ensures |data.images| == |data.imageViews| == |data.framebuffers|
    ensures data.format == ChosenSurfaceFormat(build.details.surfaceFormats)
    ensures data.extent == ChosenExtent(build.details.surfaceCapabilities, windowExtent)
    ensures data.presentMode == ChosenPresentMode(build.details.presentModes)
  {
    SwapchainData(build.swapchain, build.images, build.imageViews, build.framebuffers,
                  ChosenSurfaceFormat(build.details.surfaceFormats),
                  ChosenExtent(build.details.surfaceCapabilities, windowExtent),
                  ChosenPresentMode(build.details.presentModes))
  }

  /** When the surface lets the swapchain choose its size and the window fits
      the surface's bounds, a rebuilt swapchain has exactly the window's
      extent; otherwise it has the surface's current extent. */
  lemma RebuiltExtentFollowsWindow(build: SwapchainBuild, windowExtent: Extent2D)
    requires build.WellFormed()
    ensures var caps := build.details.surfaceCapabilities;
      && (caps.currentExtent.width == UINT32_MAX
          && caps.minImageExtent.width <= windowExtent.width <= caps.maxImageExtent.width
          && caps.minImageExtent.height <= windowExtent.height <= caps.maxImageExtent.height
          ==> Built(build, windowExtent).extent == windowExtent)
      && (caps.currentExtent.width != UINT32_MAX ==> Built(build, windowExtent).extent == caps.currentExtent)
  {
  }
}
