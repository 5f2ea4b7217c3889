/** Choosing the physical device and checking the instance extensions: the
    suitability test applied to every enumerated device, the pick of the
    first suitable one, and the check that every extension the engine needs
    is offered by the Vulkan implementation. */
module DeviceSelection {
  import opened Vulkan
  import opened PhysicalDeviceProperties
  import opened Swapchain

  /** What the driver reports about one physical device: its handle, type,
      features (one VkBool32 per member of VkPhysicalDeviceFeatures), queue
      families with the surface's present support for each, extension names,
      the surface support details, and the sample counts its framebuffers
      support for colour and depth. */
  datatype PhysicalDeviceInfo = PhysicalDeviceInfo(
    handle: Handle,
    deviceType: VkPhysicalDeviceType,
    features: seq<VkBool32>,
    queueFamilies: seq<QueueFamilyProperties>,
    presentSupport: seq<bool>,
    extensions: seq<string>,
    swapchainSupport: SwapchainSupportDetails,
    framebufferColorSampleCounts: Flags,
    framebufferDepthSampleCounts: Flags)
  {
    /** Answers of the shapes the driver gives: a non-null handle, every
        feature member, one present answer per family. */
    predicate WellFormed() {
      handle != NULL_HANDLE && |features| == FEATURE_COUNT && |presentSupport| == |queueFamilies|
    }

    /** The queue families findQueueFamilies picks on this device. */
    function Indices(): QueueFamilyIndices
      requires WellFormed()
    {
      IndicesAfter(queueFamilies, presentSupport, ScanLength(queueFamilies, presentSupport, 0))
    }
  }

  /** The device can render to the surface with the engine's requirements:
      a discrete GPU that has every required feature and every required
      extension, offers at least one surface format and one present mode,
      and has graphics and present queue families. */
  predicate Suitable(device: PhysicalDeviceInfo, extensions: seq<string>, requiredFeatures: seq<VkBool32>)
    requires device.WellFormed() && |requiredFeatures| == FEATURE_COUNT
  {
    && device.deviceType == VK_PHYSICAL_DEVICE_TYPE_DISCRETE_GPU
    && (forall i :: 0 <= i < FEATURE_COUNT && requiredFeatures[i] == VK_TRUE ==> device.features[i] == VK_TRUE)
    && (forall e :: e in extensions ==> e in device.extensions)
    && |device.swapchainSupport.surfaceFormats| > 0
    && |device.swapchainSupport.presentModes| > 0
    && device.Indices().IsComplete()
  }

  /** isDeviceSuitable: the swapchain support is only looked at when the
      extensions (among them the swapchain extension) are supported. */
  method IsDeviceSuitable(device: PhysicalDeviceInfo, extensions: seq<string>, requiredFeatures: seq<VkBool32>)
    returns (suitable: bool)
    requires device.WellFormed() && |requiredFeatures| == FEATURE_COUNT
    ensures suitable <==> Suitable(device, extensions, requiredFeatures)
  {
    var indices := FindQueueFamilies(device.queueFamilies, device.presentSupport);
    var isDeviceExtensionsSupported := CheckDeviceExtensionSupport(device.extensions, extensions);
    var swapChainAdequate := false;
    if isDeviceExtensionsSupported {
      var swapChainSupport := device.swapchainSupport;
      swapChainAdequate := |swapChainSupport.surfaceFormats| > 0 && |swapChainSupport.presentModes| > 0;
    }
    var featuresContained := IsDeviceContainingFeatures(device.features, requiredFeatures);
    suitable := device.deviceType == VK_PHYSICAL_DEVICE_TYPE_DISCRETE_GPU && featuresContained &&
                isDeviceExtensionsSupported && swapChainAdequate && indices.IsComplete();
  }

  /** Device `i` is suitable and no device enumerated before it is. */
  predicate FirstSuitable(devices: seq<PhysicalDeviceInfo>, extensions: seq<string>, requiredFeatures: seq<VkBool32>, i: nat)
    requires forall k :: 0 <= k < |devices| ==> devices[k].WellFormed()
    requires |requiredFeatures| == FEATURE_COUNT
    requires i < |devices|
  {
    Suitable(devices[i], extensions, requiredFeatures) &&
    forall k :: 0 <= k < i ==> !Suitable(devices[k], extensions, requiredFeatures)
  }

  /** getBestPhysicalDevice: throws when no device is enumerated; otherwise
      the first suitable device in enumeration order, or a throw when there
      is none. */
  method GetBestPhysicalDevice(devices: seq<PhysicalDeviceInfo>, extensions: seq<string>, requiredFeatures: seq<VkBool32>)
    returns (r: Result<nat>)
    requires forall k :: 0 <= k < |devices| ==> devices[k].WellFormed()
    requires |requiredFeatures| == FEATURE_COUNT
    ensures |devices| == 0 ==> r == Throw(RuntimeError("No GPU found compatible with vulkan!"))
    ensures r.Ok? ==> r.value < |devices| && FirstSuitable(devices, extensions, requiredFeatures, r.value)
    ensures r.Throw? <==> forall k :: 0 <= k < |devices| ==> !Suitable(devices[k], extensions, requiredFeatures)
  {
    if |devices| == 0 {
      return Throw(RuntimeError("No GPU found compatible with vulkan!"));
    }
    var bestDevice := NULL_HANDLE;
    var best := 0;
    var i := 0;
    while i < |devices|
      invariant i <= |devices|
      invariant forall k :: 0 <= k < i ==> !Suitable(devices[k], extensions, requiredFeatures)
      invariant bestDevice == NULL_HANDLE
    {
      var suitable := IsDeviceSuitable(devices[i], extensions, requiredFeatures);
      if suitable {
        bestDevice := devices[i].handle;
        best := i;
        break;
      }
      i := i + 1;
    }
    if bestDevice == NULL_HANDLE {
      return Throw(RuntimeError("Failed to find a suitable GPU!"));
    }
    return Ok(best);
  }

  /** areInstanceExtensionsCompatible with a counter that cannot wrap:
      VK_SUCCESS exactly when every requested extension is available, and
      VK_ERROR_EXTENSION_NOT_PRESENT at the first one that is not. */
  method AreInstanceExtensionsCompatible(availableExtensions: seq<string>, extensions: seq<string>)
    returns (result: VkResult)
    ensures result == VK_SUCCESS || result == VK_ERROR_EXTENSION_NOT_PRESENT
    ensures result == VK_SUCCESS <==> forall e :: e in extensions ==> e in availableExtensions
  {
    var i := 0;
    while i < |extensions|
      invariant i <= |extensions|
      invariant forall k :: 0 <= k < i ==> extensions[k] in availableExtensions
    {
      if extensions[i] !in availableExtensions {
        return VK_ERROR_EXTENSION_NOT_PRESENT;
      }
      i := i + 1;
    }
    return VK_SUCCESS;
  }

  /** The values of a uint8_t. */
  const UINT8_MODULUS: nat := 256

  /** areInstanceExtensionsCompatible as written: the loop counter is a
      uint8_t compared with a uint32_t count, so after 255 it wraps to 0 and
      the loop starts over. The loop runs for at most `fuel` iterations; None
      means it was still running then. With fewer than 256 extensions and
      enough fuel it agrees with AreInstanceExtensionsCompatible; with 256 or
      more whose first 256 are all available it never returns, whatever the
      fuel, and an unavailable extension past the 256th is never looked at. */
  method AreInstanceExtensionsCompatibleAsWritten(availableExtensions: seq<string>, extensions: seq<string>, fuel: nat)
    returns (result: Option<VkResult>)
    ensures result == Some(VK_SUCCESS) ==> forall e :: e in extensions ==> e in availableExtensions
    ensures result == Some(VK_ERROR_EXTENSION_NOT_PRESENT) ==> exists e :: e in extensions && e !in availableExtensions
    ensures result.None? || result == Some(VK_SUCCESS) || result == Some(VK_ERROR_EXTENSION_NOT_PRESENT)
    ensures |extensions| < UINT8_MODULUS && |extensions| <= fuel ==> result.Some?
    ensures (|extensions| >= UINT8_MODULUS && forall k :: 0 <= k < UINT8_MODULUS ==> extensions[k] in availableExtensions) ==>
      result.None?
  {
    var i: nat := 0;
    var iterations: nat := 0;
    while i < |extensions|
      invariant i < UINT8_MODULUS
      invariant iterations <= fuel
      invariant |extensions| < UINT8_MODULUS ==> i == iterations
      invariant i <= |extensions|
      invariant forall k :: 0 <= k < i ==> extensions[k] in availableExtensions
      decreases fuel - iterations
    {
      if iterations == fuel {
        return None;
      }
      if extensions[i] !in availableExtensions {
        return Some(VK_ERROR_EXTENSION_NOT_PRESENT);
      }
      i := (i + 1) % UINT8_MODULUS;
      iterations := iterations + 1;
    }
    return Some(VK_SUCCESS);
  }
}
