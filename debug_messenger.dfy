/** The validation-layer support: checking that the validation layer is
    installed, creating and destroying the debug messenger through entry
    points looked up at run time, and the callback that logs the messages
    the messenger delivers. */
module DebugMessenger {
  import opened Vulkan

  /** The layers the engine enables when validation is on. */
  const VALIDATION_LAYERS: seq<string> := ["VK_LAYER_KHRONOS_validation"]

  /** checkValidationLayerSupport over the names of the installed layers:
      for each required layer, a scan for an equal name; the first required
      layer not found makes the answer false. */
  method CheckValidationLayerSupport(availableLayers: seq<string>) returns (supported: bool)
    ensures supported <==> forall layer :: layer in VALIDATION_LAYERS ==> layer in availableLayers
  {
    var i := 0;
    while i < |VALIDATION_LAYERS|
      invariant i <= |VALIDATION_LAYERS|
      invariant forall k :: 0 <= k < i ==> VALIDATION_LAYERS[k] in availableLayers
    {
      var layerName := VALIDATION_LAYERS[i];
      var layerFound := false;
      var j := 0;
      while j < |availableLayers|
        invariant j <= |availableLayers|
        invariant layerFound <==> layerName in availableLayers[..j]
        invariant !layerFound
      {
        if layerName == availableLayers[j] {
          layerFound := true;
          assert layerName in availableLayers[..j + 1];
          break;
        }
        j := j + 1;
      }
      if !layerFound {
        assert availableLayers[..j] == availableLayers;
        return false;
      }
      i := i + 1;
    }
    return true;
  }

  /** CreateDebugUtilMessengerEXT: `createFunction` is what looking up
      vkCreateDebugUtilsMessengerEXT gives, None for a null pointer, Some(r)
      for an entry point that returns r. */
  function CreateDebugUtilMessengerEXT(createFunction: Option<VkResult>): (r: VkResult)
    ensures r == VK_SUCCESS <==> createFunction == Some(VK_SUCCESS)
    ensures createFunction.Some? ==> r == createFunction.value
    ensures createFunction.None? ==> r == VK_ERROR_EXTENSION_NOT_PRESENT
  {
    match createFunction
    case Some(result) => result
    case None => VK_ERROR_EXTENSION_NOT_PRESENT
  }

  /** DestroyDebugUtilMessengerEXT: `destroyFound` says whether the lookup of
      vkDestroyDebugUtilsMessengerEXT gave an entry point; the destroy itself
      returns nothing. */
  function DestroyDebugUtilMessengerEXT(destroyFound: bool): (r: VkResult)
    ensures r == VK_SUCCESS <==> destroyFound
    ensures !destroyFound ==> r == VK_ERROR_EXTENSION_NOT_PRESENT
  {
    if destroyFound then VK_SUCCESS else VK_ERROR_EXTENSION_NOT_PRESENT
  }

  /** The severities the engine's messenger asks to receive: verbose,
      warning and error (not info). */
  const MESSENGER_SEVERITIES: Flags :=
    VK_DEBUG_UTILS_MESSAGE_SEVERITY_VERBOSE_BIT_EXT | VK_DEBUG_UTILS_MESSAGE_SEVERITY_WARNING_BIT_EXT |
    VK_DEBUG_UTILS_MESSAGE_SEVERITY_ERROR_BIT_EXT

  /** createDebugMessenger: succeeds exactly when the entry point exists and
      reports success; otherwise VK_CALL throws. */
  function CreateDebugMessenger(createFunction: Option<VkResult>): (r: Result<()>)
    ensures r.Ok? <==> createFunction == Some(VK_SUCCESS)
    ensures createFunction.None? ==> r.Throw?
  {
    VkCall(CreateDebugUtilMessengerEXT(createFunction))
  }

  /** destroyDebugMessenger: succeeds exactly when the entry point exists. */
  function DestroyDebugMessenger(destroyFound: bool): (r: Result<()>)
    ensures r.Ok? <==> destroyFound
  {
    VkCall(DestroyDebugUtilMessengerEXT(destroyFound))
  }

  datatype LogLevel = Info | Warning | Error

  /** What the callback does with one message: the log it writes, if any, and
      the value it returns to the layer. */
  datatype CallbackOutcome = CallbackOutcome(logged: Option<LogLevel>, result: VkBool32)

  /** defaultDebugCallback: info, warning and error messages go to the log at
      their level; verbose (and any other value) is dropped. The callback
      always returns VK_FALSE, so the call that triggered the message is never
      aborted. */
  function DefaultDebugCallback(messageSeverity: Flags): (outcome: CallbackOutcome)
    ensures outcome.result == VK_FALSE
  {
    if messageSeverity == VK_DEBUG_UTILS_MESSAGE_SEVERITY_INFO_BIT_EXT then CallbackOutcome(Some(Info), VK_FALSE)
    else if messageSeverity == VK_DEBUG_UTILS_MESSAGE_SEVERITY_WARNING_BIT_EXT then CallbackOutcome(Some(Warning), VK_FALSE)
    else if messageSeverity == VK_DEBUG_UTILS_MESSAGE_SEVERITY_ERROR_BIT_EXT then CallbackOutcome(Some(Error), VK_FALSE)
    else CallbackOutcome(None, VK_FALSE)
  }

  /** Of the four severities, a message reaches the log exactly when it is a
      warning or an error: info messages are logged by the callback but never
      requested from the messenger, and verbose messages are requested but
      dropped by the callback. */
  lemma OnlyWarningsAndErrorsReachTheLog(messageSeverity: Flags)
    requires messageSeverity in {VK_DEBUG_UTILS_MESSAGE_SEVERITY_VERBOSE_BIT_EXT, VK_DEBUG_UTILS_MESSAGE_SEVERITY_INFO_BIT_EXT,
                                 VK_DEBUG_UTILS_MESSAGE_SEVERITY_WARNING_BIT_EXT, VK_DEBUG_UTILS_MESSAGE_SEVERITY_ERROR_BIT_EXT}
    ensures (MESSENGER_SEVERITIES & messageSeverity != 0 && DefaultDebugCallback(messageSeverity).logged.Some?) <==>
      (messageSeverity == VK_DEBUG_UTILS_MESSAGE_SEVERITY_WARNING_BIT_EXT || messageSeverity == VK_DEBUG_UTILS_MESSAGE_SEVERITY_ERROR_BIT_EXT)
  {
  }
}
