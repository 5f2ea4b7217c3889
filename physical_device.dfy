/** Queue-family selection and the capability checks made on a physical
    device: which queue families serve graphics, presentation and transfer,
    whether the device offers the required extensions and features, and
    which depth format it supports. Every query the driver answers is an
    input here. */
module PhysicalDeviceProperties {
  import opened Vulkan

  /** Family indices for each role; -1 means "not assigned". */
  datatype QueueFamilyIndices = QueueFamilyIndices(graphicsFamily: int, presentingFamily: int, transferFamily: int)
  {
    /** Graphics and presentation both have a family; transfer does not matter. */
    predicate IsComplete() {
      graphicsFamily >= 0 && presentingFamily >= 0
    }

    /** A transfer family exists and is not the graphics family. */
    predicate TransferAvailable() {
      transferFamily >= 0 && transferFamily != graphicsFamily
    }
  }

  /** A freshly constructed QueueFamilyIndices: every role unassigned. */
  const UNASSIGNED: QueueFamilyIndices := QueueFamilyIndices(-1, -1, -1)

  /** The part of VkQueueFamilyProperties the selection looks at. */
  datatype QueueFamilyProperties = QueueFamilyProperties(queueFlags: Flags, queueCount: nat)

  datatype Role = Graphics | Present | Transfer

  /** Family `i` can serve `role`: it has queues, and it has the role's queue
      flag (graphics, transfer) or the surface reports present support for it. */
  predicate Qualifies(families: seq<QueueFamilyProperties>, presentSupport: seq<bool>, i: nat, role: Role)
    requires i < |families| == |presentSupport|
  {
    families[i].queueCount > 0 &&
    match role
    case Graphics => families[i].queueFlags & VK_QUEUE_GRAPHICS_BIT != 0
    case Transfer => families[i].queueFlags & VK_QUEUE_TRANSFER_BIT != 0
    case Present => presentSupport[i]
  }

  /** The largest index below `n` that qualifies for `role`, or -1. */
  function LastMatch(families: seq<QueueFamilyProperties>, presentSupport: seq<bool>, role: Role, n: nat): int
    requires n <= |families| == |presentSupport|
  {
    if n == 0 then -1
    else if Qualifies(families, presentSupport, n - 1, role) then n - 1
    else LastMatch(families, presentSupport, role, n - 1)
  }

  /** The indices the scan holds after visiting the first `n` families. */
  function IndicesAfter(families: seq<QueueFamilyProperties>, presentSupport: seq<bool>, n: nat): QueueFamilyIndices
    requires n <= |families| == |presentSupport|
  {
    QueueFamilyIndices(
      LastMatch(families, presentSupport, Graphics, n),
      LastMatch(families, presentSupport, Present, n),
      LastMatch(families, presentSupport, Transfer, n))
  }

  /** The condition on which the scan stops early. */
  predicate ScanDone(indices: QueueFamilyIndices) {
    indices.IsComplete() && indices.TransferAvailable()
  }

  /** How many families the scan visits when it has already visited `m`. */
  function ScanLength(families: seq<QueueFamilyProperties>, presentSupport: seq<bool>, m: nat): (r: nat)
    requires m <= |families| == |presentSupport|
    ensures m <= r <= |families|
    decreases |families| - m
  {
    if m == |families| then m
    else if ScanDone(IndicesAfter(families, presentSupport, m + 1)) then m + 1
    else ScanLength(families, presentSupport, m + 1)
  }

  /** The queue families chosen for a device: each family, in index order,
      overwrites every role it qualifies for; the scan stops right after the
      first family at which the indices are complete with a distinct transfer
      family. `presentSupport[i]` is the surface's answer for family `i`. */
  method FindQueueFamilies(families: seq<QueueFamilyProperties>, presentSupport: seq<bool>)
    returns (indices: QueueFamilyIndices)
    requires |presentSupport| == |families|
    ensures indices == IndicesAfter(families, presentSupport, ScanLength(families, presentSupport, 0))
  {
    indices := UNASSIGNED;
    var index := 0;
    while index < |families|
      invariant index <= |families|
      invariant indices == IndicesAfter(families, presentSupport, index)
      invariant ScanLength(families, presentSupport, 0) == ScanLength(families, presentSupport, index)
    {
      var queueProperty := families[index];
      if queueProperty.queueCount > 0 && queueProperty.queueFlags & VK_QUEUE_GRAPHICS_BIT != 0 {
        indices := indices.(graphicsFamily := index);
      }
      if queueProperty.queueCount > 0 && queueProperty.queueFlags & VK_QUEUE_TRANSFER_BIT != 0 {
        indices := indices.(transferFamily := index);
      }
      var presentSupported := presentSupport[index];
      if queueProperty.queueCount > 0 && presentSupported {
        indices := indices.(presentingFamily := index);
      }
      if indices.IsComplete() && indices.TransferAvailable() {
        break;
      }
      index := index + 1;
    }
  }

  /** A role's index is the LAST qualifying family among the first `n`, not
      the first one, and -1 exactly when none of them qualifies. */
  lemma {:induction false} LastMatchIsLast(families: seq<QueueFamilyProperties>, presentSupport: seq<bool>, role: Role, n: nat)
    requires n <= |families| == |presentSupport|
    ensures var r := LastMatch(families, presentSupport, role, n);
      && -1 <= r < n
      && (r == -1 <==> forall i :: 0 <= i < n ==> !Qualifies(families, presentSupport, i, role))
      && (r >= 0 ==> Qualifies(families, presentSupport, r, role))
      && (forall j :: r < j < n ==> !Qualifies(families, presentSupport, j, role))
  {
    if n > 0 && !Qualifies(families, presentSupport, n - 1, role) {
      LastMatchIsLast(families, presentSupport, role, n - 1);
    }
  }

  /** The scan visits every family up to and including the first at which it
      is done, and all of them when it never is. */
  lemma {:induction false} ScanLengthIsFirstStop(families: seq<QueueFamilyProperties>, presentSupport: seq<bool>, m: nat)
    requires m <= |families| == |presentSupport|
    decreases |families| - m
    ensures var r := ScanLength(families, presentSupport, m);
      && m <= r <= |families|
      && (r < |families| ==> m < r && ScanDone(IndicesAfter(families, presentSupport, r)))
      && (forall k :: m < k < r ==> !ScanDone(IndicesAfter(families, presentSupport, k)))
  {
    if m < |families| && !ScanDone(IndicesAfter(families, presentSupport, m + 1)) {
      ScanLengthIsFirstStop(families, presentSupport, m + 1);
    }
  }

  /** The chosen indices are complete exactly when some family can do
      graphics and some family can present. */
  lemma QueueFamiliesCompleteIff(families: seq<QueueFamilyProperties>, presentSupport: seq<bool>)
    requires |presentSupport| == |families|
    ensures IndicesAfter(families, presentSupport, ScanLength(families, presentSupport, 0)).IsComplete() <==>
      ((exists i :: 0 <= i < |families| && Qualifies(families, presentSupport, i, Graphics)) &&
       (exists i :: 0 <= i < |families| && Qualifies(families, presentSupport, i, Present)))
  {
    var n := ScanLength(families, presentSupport, 0);
    ScanLengthIsFirstStop(families, presentSupport, 0);
    LastMatchIsLast(families, presentSupport, Graphics, n);
    LastMatchIsLast(families, presentSupport, Present, n);
    if n == |families| {
    } else {
      var g := LastMatch(families, presentSupport, Graphics, n);
      var p := LastMatch(families, presentSupport, Present, n);
      assert Qualifies(families, presentSupport, g, Graphics);
      assert Qualifies(families, presentSupport, p, Present);
    }
  }

  /** Every assigned role names a family that qualifies for it. */
  lemma QueueFamiliesSound(families: seq<QueueFamilyProperties>, presentSupport: seq<bool>)
    requires |presentSupport| == |families|
    ensures var ix := IndicesAfter(families, presentSupport, ScanLength(families, presentSupport, 0));
      && (ix.graphicsFamily >= 0 ==> ix.graphicsFamily < |families| && Qualifies(families, presentSupport, ix.graphicsFamily, Graphics))
      && (ix.presentingFamily >= 0 ==> ix.presentingFamily < |families| && Qualifies(families, presentSupport, ix.presentingFamily, Present))
      && (ix.transferFamily >= 0 ==> ix.transferFamily < |families| && Qualifies(families, presentSupport, ix.transferFamily, Transfer))
  {
    var n := ScanLength(families, presentSupport, 0);
    ScanLengthIsFirstStop(families, presentSupport, 0);
    LastMatchIsLast(families, presentSupport, Graphics, n);
    LastMatchIsLast(families, presentSupport, Present, n);
    LastMatchIsLast(families, presentSupport, Transfer, n);
  }

  /** Families {0: graphics only, 1: transfer only, 2: present only} give
      graphics 0, transfer 1, present 2, complete and with a distinct transfer. */
  lemma ThreeSeparateFamilies()
    ensures var families := [QueueFamilyProperties(VK_QUEUE_GRAPHICS_BIT, 1),
                             QueueFamilyProperties(VK_QUEUE_TRANSFER_BIT, 1),
                             QueueFamilyProperties(0, 1)];
      var presentSupport := [false, false, true];
      var ix := IndicesAfter(families, presentSupport, ScanLength(families, presentSupport, 0));
      ix == QueueFamilyIndices(0, 2, 1) && ix.IsComplete() && ix.TransferAvailable()
  {
    var families := [QueueFamilyProperties(VK_QUEUE_GRAPHICS_BIT, 1),
                     QueueFamilyProperties(VK_QUEUE_TRANSFER_BIT, 1),
                     QueueFamilyProperties(0, 1)];
    var presentSupport := [false, false, true];
    assert VK_QUEUE_GRAPHICS_BIT & VK_QUEUE_TRANSFER_BIT == 0;
    assert Qualifies(families, presentSupport, 0, Graphics) && !Qualifies(families, presentSupport, 0, Transfer);
    assert !Qualifies(families, presentSupport, 1, Graphics) && Qualifies(families, presentSupport, 1, Transfer);
    assert !Qualifies(families, presentSupport, 2, Graphics) && !Qualifies(families, presentSupport, 2, Transfer);
    assert LastMatch(families, presentSupport, Present, 1) == -1 by {
      assert !Qualifies(families, presentSupport, 0, Present);
    }
    assert LastMatch(families, presentSupport, Transfer, 1) == -1;
    assert IndicesAfter(families, presentSupport, 1) == QueueFamilyIndices(0, -1, -1);
    assert IndicesAfter(families, presentSupport, 2) == QueueFamilyIndices(0, -1, 1);
    assert IndicesAfter(families, presentSupport, 3) == QueueFamilyIndices(0, 2, 1);
    assert ScanLength(families, presentSupport, 2) == 3;
    assert ScanLength(families, presentSupport, 1) == 3;
  }

  /** Two graphics families that can both present: the scan never stops early
      (no transfer family), so the later family overwrites the earlier one. */
  lemma LaterFamilyOverwrites()
    ensures var families := [QueueFamilyProperties(VK_QUEUE_GRAPHICS_BIT, 1),
                             QueueFamilyProperties(VK_QUEUE_GRAPHICS_BIT, 1)];
      var presentSupport := [true, true];
      IndicesAfter(families, presentSupport, ScanLength(families, presentSupport, 0)) == QueueFamilyIndices(1, 1, -1)
  {
    var families := [QueueFamilyProperties(VK_QUEUE_GRAPHICS_BIT, 1),
                     QueueFamilyProperties(VK_QUEUE_GRAPHICS_BIT, 1)];
    var presentSupport := [true, true];
    assert VK_QUEUE_GRAPHICS_BIT & VK_QUEUE_TRANSFER_BIT == 0;
    assert !Qualifies(families, presentSupport, 0, Transfer) && !Qualifies(families, presentSupport, 1, Transfer);
    assert LastMatch(families, presentSupport, Transfer, 1) == -1;
    assert IndicesAfter(families, presentSupport, 1) == QueueFamilyIndices(0, 0, -1);
    assert IndicesAfter(families, presentSupport, 2) == QueueFamilyIndices(1, 1, -1);
    assert ScanLength(families, presentSupport, 0) == 2;
  }

  /** The device offers every required extension (by name; order and
      duplicates do not matter). The names still required are kept in a set
      from which every available extension is erased. */
  method CheckDeviceExtensionSupport(availableExtensions: seq<string>, extensions: seq<string>)
    returns (supported: bool)
    ensures supported <==> forall e :: e in extensions ==> e in availableExtensions
  {
    var requiredExtensions := set e | e in extensions;
    var i := 0;
    while i < |availableExtensions|
      invariant i <= |availableExtensions|
      invariant forall e :: e in requiredExtensions <==> e in extensions && e !in availableExtensions[..i]
    {
      requiredExtensions := requiredExtensions - {availableExtensions[i]};
      i := i + 1;
    }
    assert availableExtensions[..i] == availableExtensions;
    supported := requiredExtensions == {};
  }

  /** VkFormatProperties: the features each tiling supports. */
  datatype FormatProperties = FormatProperties(linearTilingFeatures: Flags, optimalTilingFeatures: Flags)

  /** `properties` offers every requested feature bit for `tiling`; tilings
      other than LINEAR and OPTIMAL never do. */
  predicate SupportsTiling(properties: FormatProperties, tiling: VkImageTiling, features: Flags) {
    || (tiling == VK_IMAGE_TILING_LINEAR && HasAll(properties.linearTilingFeatures, features))
    || (tiling == VK_IMAGE_TILING_OPTIMAL && HasAll(properties.optimalTilingFeatures, features))
  }

  /** Candidate `i` is supported and no earlier candidate is;
      `properties[k]` is what the device reports for `candidates[k]`. */
  predicate FirstSupported(properties: seq<FormatProperties>, tiling: VkImageTiling, features: Flags, i: nat)
    requires i < |properties|
  {
    SupportsTiling(properties[i], tiling, features) &&
    forall j :: 0 <= j < i ==> !SupportsTiling(properties[j], tiling, features)
  }

  /** The first candidate, in list order, whose features for `tiling` contain
      `features`; throws when none does. `properties[k]` is the device's
      answer to the format-properties query for `candidates[k]`. */
  method FindSupportedTilingFormat(candidates: seq<VkFormat>, properties: seq<FormatProperties>,
                                   tiling: VkImageTiling, features: Flags)
    returns (r: Result<VkFormat>)
    requires |properties| == |candidates|
    ensures r.Ok? ==> exists i :: 0 <= i < |candidates| && r.value == candidates[i] && FirstSupported(properties, tiling, features, i)
    ensures r.Throw? <==> forall i :: 0 <= i < |candidates| ==> !SupportsTiling(properties[i], tiling, features)
  {
    var i := 0;
    while i < |candidates|
      invariant i <= |candidates|
      invariant forall j :: 0 <= j < i ==> !SupportsTiling(properties[j], tiling, features)
    {
      var format := candidates[i];
      var formatProp := properties[i];
      if tiling == VK_IMAGE_TILING_LINEAR && HasAll(formatProp.linearTilingFeatures, features) {
        assert FirstSupported(properties, tiling, features, i);
        return Ok(format);
      } else if tiling == VK_IMAGE_TILING_OPTIMAL && HasAll(formatProp.optimalTilingFeatures, features) {
        assert FirstSupported(properties, tiling, features, i);
        return Ok(format);
      }
      i := i + 1;
    }
    return Throw(RuntimeError("failed to find a supported format!"));
  }

  /** Number of VkBool32 members of VkPhysicalDeviceFeatures. */
  const FEATURE_COUNT: nat := 55

  /** Every feature the requirement sets to VK_TRUE is VK_TRUE on the device;
      features the device has beyond that do not matter. */
  method IsDeviceContainingFeatures(deviceFeatures: seq<VkBool32>, requiredFeatures: seq<VkBool32>)
    returns (contained: bool)
    requires |deviceFeatures| == |requiredFeatures| == FEATURE_COUNT
    ensures contained <==> forall i :: 0 <= i < FEATURE_COUNT && requiredFeatures[i] == VK_TRUE ==> deviceFeatures[i] == VK_TRUE
  {
    var featureIndex := 0;
    while featureIndex < FEATURE_COUNT
      invariant featureIndex <= FEATURE_COUNT
      invariant forall i :: 0 <= i < featureIndex && requiredFeatures[i] == VK_TRUE ==> deviceFeatures[i] == VK_TRUE
    {
      if deviceFeatures[featureIndex] != requiredFeatures[featureIndex] && requiredFeatures[featureIndex] == VK_TRUE {
        return false;
      }
      featureIndex := featureIndex + 1;
    }
    return true;
  }
}
