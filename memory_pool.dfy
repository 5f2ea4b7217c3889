/** A first-fit sub-allocator over one Vulkan buffer. The pool owns a buffer
    bound to one device-memory allocation of `size` bytes and hands out
    `{offset, size}` records. The records live in a set ordered, and
    compared, by offset alone; here that set is a sequence sorted by offset
    in which no two records share an offset. */
module MemoryPool {
  import opened Vulkan
  import Utils

  // ---------------------------------------------------------------------
  // Result codes

  /** The outcome of allocatePool. The first four equal the VkResult codes of
      the same name; UnhandledResult is the catch-all and, as the next
      enumerator after MemoryMapFailed (-5), has the value -4. */
  datatype MemoryOperationResult = Success | OutOfHostMemory | OutOfDeviceMemory | MemoryMapFailed | UnhandledResult
  {
    function Code(): VkResult {
      match this
      case Success => VK_SUCCESS
      case OutOfHostMemory => VK_ERROR_OUT_OF_HOST_MEMORY
      case OutOfDeviceMemory => VK_ERROR_OUT_OF_DEVICE_MEMORY
      case MemoryMapFailed => VK_ERROR_MEMORY_MAP_FAILED
      case UnhandledResult => VK_ERROR_MEMORY_MAP_FAILED + 1
    }
  }

  /** How a failing create, allocate or bind is reported: out of device or
      host memory keep their own code, every other failure is unhandled. */
  function FailureResult(result: VkResult): (r: MemoryOperationResult)
    requires result != VK_SUCCESS
    ensures r != Success && r != MemoryMapFailed
    ensures (result == VK_ERROR_OUT_OF_DEVICE_MEMORY || result == VK_ERROR_OUT_OF_HOST_MEMORY) ==> r.Code() == result
    ensures (result == VK_ERROR_OUT_OF_DEVICE_MEMORY || result == VK_ERROR_OUT_OF_HOST_MEMORY) <==> r != UnhandledResult
  {
    if result == VK_ERROR_OUT_OF_DEVICE_MEMORY then OutOfDeviceMemory
    else if result == VK_ERROR_OUT_OF_HOST_MEMORY then OutOfHostMemory
    else UnhandledResult
  }

  // ---------------------------------------------------------------------
  // Records and the set that holds them

  /** MemoryPoolResourceData: a byte range of the pool. */
  datatype ResourceData = ResourceData(offset: nat, size: nat)
  {
    function End(): nat { offset + size }
  }

  /** Two byte ranges do not overlap. */
  predicate Disjoint(a: ResourceData, b: ResourceData) {
    a.End() <= b.offset || b.End() <= a.offset
  }

  /** The pool invariant: offsets strictly increase (the set's order, with no
      two records at one offset), ranges do not overlap, and every range lies
      inside `[0, poolSize]`. */
  predicate Wf(rs: seq<ResourceData>, poolSize: nat) {
    && (forall i, j :: 0 <= i < j < |rs| ==> Precedes(rs[i], rs[j]))
    && (forall i :: 0 <= i < |rs| ==> rs[i].End() <= poolSize)
  }

  /** `a` comes before `b` in the set and ends no later than `b` starts. */
  predicate Precedes(a: ResourceData, b: ResourceData) {
    a.offset < b.offset && a.End() <= b.offset
  }

  /** Dropping the first record keeps the invariant, and that record
      precedes every other. */
  lemma WfTail(rs: seq<ResourceData>, poolSize: nat)
    requires Wf(rs, poolSize) && |rs| > 0
    ensures Wf(rs[1..], poolSize)
    ensures forall y :: y in rs[1..] ==> Precedes(rs[0], y)
  {
    var t := rs[1..];
    forall i, j | 0 <= i < j < |t|
      ensures Precedes(t[i], t[j])
    {
      assert t[i] == rs[i + 1] && t[j] == rs[j + 1];
    }
    forall y | y in t
      ensures Precedes(rs[0], y)
    {
      var m :| 0 <= m < |t| && t[m] == y;
      assert rs[m + 1] == y;
    }
  }

  /** A record inside the pool that precedes every record of a well-formed
      set can go in front of it. */
  lemma WfCons(x: ResourceData, rs: seq<ResourceData>, poolSize: nat)
    requires Wf(rs, poolSize) && x.End() <= poolSize
    requires forall y :: y in rs ==> Precedes(x, y)
    ensures Wf([x] + rs, poolSize)
  {
    var r := [x] + rs;
    forall i, j | 0 <= i < j < |r|
      ensures Precedes(r[i], r[j])
    {
      assert r[j] == rs[j - 1];
      if i > 0 {
        assert r[i] == rs[i - 1];
      } else {
        assert rs[j - 1] in rs;
      }
    }
    forall i | 0 <= i < |r|
      ensures r[i].End() <= poolSize
    {
      if i > 0 {
        assert r[i] == rs[i - 1];
      }
    }
  }

  /** Some record has offset `o`, i.e. the set holds an element equal to any
      record at `o`. */
  predicate HasOffset(rs: seq<ResourceData>, o: nat) {
    exists i :: 0 <= i < |rs| && rs[i].offset == o
  }

  /** HasOffset unfolded over the first record. */
  lemma HasOffsetCons(rs: seq<ResourceData>, o: nat)
    requires |rs| > 0
    ensures HasOffset(rs, o) <==> rs[0].offset == o || HasOffset(rs[1..], o)
  {
    if HasOffset(rs[1..], o) {
      var i :| 0 <= i < |rs[1..]| && rs[1..][i].offset == o;
      assert rs[i + 1].offset == o;
    }
    if HasOffset(rs, o) && rs[0].offset != o {
      var i :| 0 <= i < |rs| && rs[i].offset == o;
      assert rs[1..][i - 1].offset == o;
    }
  }

  /** The first record at offset `o`. */
  function LookupOffset(rs: seq<ResourceData>, o: nat): (r: Option<ResourceData>)
    ensures r.Some? ==> r.value in rs && r.value.offset == o
    ensures r.None? <==> !HasOffset(rs, o)
  {
    if |rs| == 0 then None
    else if rs[0].offset == o then Some(rs[0])
    else
      HasOffsetCons(rs, o);
      LookupOffset(rs[1..], o)
  }

  /** std::set::insert with the offset-only comparator: `x` goes in at its
      place in offset order, unless a record with the same offset is already
      there, in which case the set is unchanged. */
  function InsertByOffset(rs: seq<ResourceData>, x: ResourceData): (r: seq<ResourceData>)
    ensures forall y :: y in r ==> y in rs || y == x
    ensures forall y :: y in rs ==> y in r
    ensures !HasOffset(rs, x.offset) ==> x in r && |r| == |rs| + 1
  {
    if |rs| == 0 then [x]
    else if x.offset < rs[0].offset then [x] + rs
    else if x.offset == rs[0].offset then rs
    else
      var tail := InsertByOffset(rs[1..], x);
      HasOffsetCons(rs, x.offset);
      assert rs == [rs[0]] + rs[1..];
      [rs[0]] + tail
  }

  /** The element the insert's iterator designates: the record already at
      `x.offset` when there is one, otherwise `x` itself. */
  function InsertedElement(rs: seq<ResourceData>, x: ResourceData): ResourceData {
    match LookupOffset(rs, x.offset)
    case Some(existing) => existing
    case None => x
  }

  /** std::set::erase by key: every record at offset `o` goes, the others stay
      in order. */
  function EraseOffset(rs: seq<ResourceData>, o: nat): (r: seq<ResourceData>)
    ensures forall y :: y in r <==> y in rs && y.offset != o
    ensures |r| <= |rs|
  {
    if |rs| == 0 then []
    else
      var tail := EraseOffset(rs[1..], o);
      assert forall y :: y in rs <==> y == rs[0] || y in rs[1..] by {
        assert rs == [rs[0]] + rs[1..];
      }
      if rs[0].offset == o then tail else [rs[0]] + tail
  }

  // ---------------------------------------------------------------------
  // First fit

  /** Where the gap before record `k` starts: 0 before the first record,
      otherwise the end of record `k - 1` (for k == |rs|, the tail gap). */
  function GapStart(rs: seq<ResourceData>, k: nat): nat
    requires k <= |rs|
  {
    if k == 0 then 0 else rs[k - 1].End()
  }

  /** Where the gap before record `k` ends: that record's offset, or the end
      of the pool for the tail gap. */
  function GapEnd(rs: seq<ResourceData>, poolSize: nat, k: nat): nat
    requires k <= |rs|
  {
    if k < |rs| then rs[k].offset else poolSize
  }

  /** A request of `resourceSize` bytes fits in gap `k`. */
  predicate GapFits(rs: seq<ResourceData>, resourceSize: nat, poolSize: nat, k: nat)
    requires k <= |rs|
  {
    GapStart(rs, k) + resourceSize <= GapEnd(rs, poolSize, k)
  }

  /** The record at which the find_if scan stops, starting from record `k`:
      the first whose offset minus the running candidate offset is at least
      the request, or |rs| when none is. */
  function FirstFittingRecord(rs: seq<ResourceData>, resourceSize: nat, k: nat): (j: nat)
    requires k <= |rs|
    ensures k <= j <= |rs|
    decreases |rs| - k
  {
    if k == |rs| then k
    else if rs[k].offset - GapStart(rs, k) >= resourceSize then k
    else FirstFittingRecord(rs, resourceSize, k + 1)
  }

  /** findSlotAvailableForSize: the candidate offset where the scan stopped,
      provided the pool size minus that offset is at least the request; this
      tail test is made even when the scan stopped at an interior gap. The
      subtractions are unsigned in the source; the invariant keeps them from
      wrapping. */
  function FindSlot(rs: seq<ResourceData>, resourceSize: nat, poolSize: nat): (r: Option<nat>)
    requires Wf(rs, poolSize)
  {
    var potentialOffset := GapStart(rs, FirstFittingRecord(rs, resourceSize, 0));
    if poolSize - potentialOffset >= resourceSize then Some(potentialOffset) else None
  }

  /** No interior gap from `k` up to where the scan stops fits, and the gap
      where it stops (if interior) does. */
  lemma {:induction false} FirstFittingRecordStops(rs: seq<ResourceData>, resourceSize: nat, poolSize: nat, k: nat)
    requires Wf(rs, poolSize)
    requires k <= |rs|
    decreases |rs| - k
    ensures var j := FirstFittingRecord(rs, resourceSize, k);
      && (forall i :: k <= i < j ==> !GapFits(rs, resourceSize, poolSize, i))
      && (j < |rs| ==> GapFits(rs, resourceSize, poolSize, j))
  {
    if k < |rs| && rs[k].offset - GapStart(rs, k) < resourceSize {
      FirstFittingRecordStops(rs, resourceSize, poolSize, k + 1);
    }
  }

  /** FindSlot is first fit over every gap, the tail gap included: it returns
      the start of the lowest gap that fits, and nothing exactly when no gap
      fits. */
  lemma FindSlotIsFirstFit(rs: seq<ResourceData>, resourceSize: nat, poolSize: nat)
    requires Wf(rs, poolSize)
    ensures FindSlot(rs, resourceSize, poolSize).Some? <==>
      exists k :: 0 <= k <= |rs| && GapFits(rs, resourceSize, poolSize, k)
    ensures FindSlot(rs, resourceSize, poolSize).Some? ==>
      exists k :: 0 <= k <= |rs| && GapFits(rs, resourceSize, poolSize, k)
        && FindSlot(rs, resourceSize, poolSize).value == GapStart(rs, k)
        && forall i :: 0 <= i < k ==> !GapFits(rs, resourceSize, poolSize, i)
  {
    var j := FirstFittingRecord(rs, resourceSize, 0);
    FirstFittingRecordStops(rs, resourceSize, poolSize, 0);
    if j < |rs| {
      assert GapFits(rs, resourceSize, poolSize, j);
      assert rs[j].End() <= poolSize;
    } else {
      assert FindSlot(rs, resourceSize, poolSize).Some? <==> GapFits(rs, resourceSize, poolSize, |rs|);
      if exists k :: 0 <= k <= |rs| && GapFits(rs, resourceSize, poolSize, k) {
        var k :| 0 <= k <= |rs| && GapFits(rs, resourceSize, poolSize, k);
        assert k == |rs|;
      }
    }
  }

  /** Every record ends no later than where gap `k` starts, for records
      before `k`, and starts no earlier than where it ends, for the others. */
  lemma GapBounds(rs: seq<ResourceData>, poolSize: nat, k: nat)
    requires Wf(rs, poolSize)
    requires k <= |rs|
    ensures forall i :: 0 <= i < k ==> rs[i].End() <= GapStart(rs, k)
    ensures forall i :: k <= i < |rs| ==> GapEnd(rs, poolSize, k) <= rs[i].offset
    ensures GapEnd(rs, poolSize, k) <= poolSize
  {
    if k < |rs| {
      assert rs[k].End() <= poolSize;
    }
  }

  /** The found slot is free: the new range lies inside the pool and
      overlaps no record. */
  lemma FoundSlotIsFree(rs: seq<ResourceData>, resourceSize: nat, poolSize: nat)
    requires Wf(rs, poolSize)
    requires FindSlot(rs, resourceSize, poolSize).Some?
    ensures var x := ResourceData(FindSlot(rs, resourceSize, poolSize).value, resourceSize);
      x.End() <= poolSize && forall i :: 0 <= i < |rs| ==> Disjoint(rs[i], x)
  {
    FindSlotIsFirstFit(rs, resourceSize, poolSize);
    var k :| 0 <= k <= |rs| && GapFits(rs, resourceSize, poolSize, k)
      && FindSlot(rs, resourceSize, poolSize).value == GapStart(rs, k);
    GapBounds(rs, poolSize, k);
  }

  /** Inserting a range that is inside the pool and overlaps no record keeps
      the invariant. */
  lemma {:induction false} InsertByOffsetKeepsWf(rs: seq<ResourceData>, x: ResourceData, poolSize: nat)
    requires Wf(rs, poolSize)
    requires x.End() <= poolSize
    requires forall i :: 0 <= i < |rs| ==> Disjoint(rs[i], x)
    ensures Wf(InsertByOffset(rs, x), poolSize)
  {
    if |rs| == 0 {
    } else if x.offset < rs[0].offset {
      forall y | y in rs
        ensures Precedes(x, y)
      {
        var m :| 0 <= m < |rs| && rs[m] == y;
        assert Disjoint(rs[m], x);
        if m > 0 {
          assert Precedes(rs[0], rs[m]);
        }
      }
      WfCons(x, rs, poolSize);
    } else if x.offset > rs[0].offset {
      WfTail(rs, poolSize);
      forall i | 0 <= i < |rs[1..]|
        ensures Disjoint(rs[1..][i], x)
      {
        assert rs[1..][i] == rs[i + 1];
      }
      InsertByOffsetKeepsWf(rs[1..], x, poolSize);
      assert Disjoint(rs[0], x);
      WfCons(rs[0], InsertByOffset(rs[1..], x), poolSize);
    }
  }

  /** With the set sorted, inserting at an occupied offset changes nothing. */
  lemma {:induction false} InsertAtOccupiedOffset(rs: seq<ResourceData>, x: ResourceData, poolSize: nat)
    requires Wf(rs, poolSize)
    requires HasOffset(rs, x.offset)
    ensures InsertByOffset(rs, x) == rs
  {
    HasOffsetCons(rs, x.offset);
    if rs[0].offset != x.offset {
      WfTail(rs, poolSize);
      assert x.offset > rs[0].offset by {
        var i :| 0 <= i < |rs| - 1 && rs[1..][i].offset == x.offset;
        assert Precedes(rs[0], rs[i + 1]);
      }
      InsertAtOccupiedOffset(rs[1..], x, poolSize);
      calc {
        InsertByOffset(rs, x);
        [rs[0]] + InsertByOffset(rs[1..], x);
        [rs[0]] + rs[1..];
        rs;
      }
    }
  }

  /** Erasing keeps the invariant. */
  lemma {:induction false} EraseOffsetKeepsWf(rs: seq<ResourceData>, o: nat, poolSize: nat)
    requires Wf(rs, poolSize)
    ensures Wf(EraseOffset(rs, o), poolSize)
  {
    if |rs| > 0 {
      WfTail(rs, poolSize);
      EraseOffsetKeepsWf(rs[1..], o, poolSize);
      if rs[0].offset != o {
        WfCons(rs[0], EraseOffset(rs[1..], o), poolSize);
      }
    }
  }

  /** Erasing an offset no record has changes nothing. */
  lemma {:induction false} EraseAbsentOffset(rs: seq<ResourceData>, o: nat)
    requires !HasOffset(rs, o)
    ensures EraseOffset(rs, o) == rs
  {
    if |rs| > 0 {
      HasOffsetCons(rs, o);
      EraseAbsentOffset(rs[1..], o);
      assert rs == [rs[0]] + rs[1..];
    }
  }

  /** Erasing the offset of a record that insertion really added restores the
      set as it was. */
  lemma {:induction false} EraseUndoesInsert(rs: seq<ResourceData>, x: ResourceData)
    requires !HasOffset(rs, x.offset)
    ensures EraseOffset(InsertByOffset(rs, x), x.offset) == rs
  {
    if |rs| == 0 {
    } else if x.offset < rs[0].offset {
      assert InsertByOffset(rs, x) == [x] + rs;
      assert ([x] + rs)[1..] == rs;
      EraseAbsentOffset(rs, x.offset);
    } else {
      HasOffsetCons(rs, x.offset);
      EraseUndoesInsert(rs[1..], x);
      var ins := InsertByOffset(rs, x);
      assert ins == [rs[0]] + InsertByOffset(rs[1..], x);
      assert ins[1..] == InsertByOffset(rs[1..], x);
      assert rs == [rs[0]] + rs[1..];
    }
  }

  /** A request of positive size never lands on an occupied offset of a set
      whose records all have positive size, so the insert really adds it. */
  lemma PositiveRequestGetsFreshOffset(rs: seq<ResourceData>, resourceSize: nat, poolSize: nat)
    requires Wf(rs, poolSize)
    requires forall i :: 0 <= i < |rs| ==> rs[i].size > 0
    requires resourceSize > 0
    requires FindSlot(rs, resourceSize, poolSize).Some?
    ensures !HasOffset(rs, FindSlot(rs, resourceSize, poolSize).value)
  {
    FoundSlotIsFree(rs, resourceSize, poolSize);
  }

  /** A pool of 100 bytes: 60 bytes go to offset 0; 50 more bytes do not fit;
      once the 60 are destroyed, 50 bytes go to offset 0. */
  lemma CapacityHundredExample()
    ensures FindSlot([], 60, 100) == Some(0)
    ensures Wf([ResourceData(0, 60)], 100)
    ensures FindSlot([ResourceData(0, 60)], 50, 100) == None
    ensures EraseOffset([ResourceData(0, 60)], 0) == []
    ensures FindSlot([], 50, 100) == Some(0)
  {
    var rs := [ResourceData(0, 60)];
    assert FirstFittingRecord(rs, 50, 1) == 1;
    assert FirstFittingRecord(rs, 50, 0) == 1;
    assert EraseOffset(rs[1..], 0) == [];
  }

  /** As written, a zero-size request in an empty pool of 100 bytes is
      granted offset 0 and records {0, 0}. */
  lemma ZeroSizeRequestIsRecorded()
    ensures FindSlot([], 0, 100) == Some(0)
    ensures InsertByOffset([], ResourceData(0, 0)) == [ResourceData(0, 0)]
  {
  }

  /** As written, once {0, 0} is recorded, every request of a positive size
      that fits in the pool finds offset 0, its insert is refused, and it is
      handed the zero-size record: two such requests share one record, and
      the set still holds that record alone. */
  lemma ZeroSizeRecordIsShared(poolSize: nat, resourceSize: nat)
    requires 0 < resourceSize <= poolSize
    ensures FindSlot([ResourceData(0, 0)], resourceSize, poolSize) == Some(0)
    ensures InsertByOffset([ResourceData(0, 0)], ResourceData(0, resourceSize)) == [ResourceData(0, 0)]
    ensures InsertedElement([ResourceData(0, 0)], ResourceData(0, resourceSize)) == ResourceData(0, 0)
  {
    var rs := [ResourceData(0, 0)];
    assert FirstFittingRecord(rs, resourceSize, 0) == 1;
  }

  /** Every record has positive size. */
  predicate AllPositive(rs: seq<ResourceData>) {
    forall i :: 0 <= i < |rs| ==> rs[i].size > 0
  }

  // ---------------------------------------------------------------------
  // The pool

  class MemoryPool {
    /** m_resources */
    var resources: seq<ResourceData>
    /** m_size: the pool size, set by a successful allocatePool */
    var size: nat
    /** m_buffer */
    var buffer: Handle
    /** m_deviceMemory */
    var deviceMemory: Handle
    /** m_mappedMemoryPtr as an address; 0 is nullptr */
    var mappedMemoryPtr: nat

    /** The pool invariant on the current state. */
    predicate Valid()
      reads this
    {
      Wf(resources, size)
    }

    /** A default-constructed pool: no records, not mapped. */
    constructor()
      ensures resources == [] && mappedMemoryPtr == 0 && size == 0
      ensures Valid()
    {
      resources := [];
      size := 0;
      buffer := NULL_HANDLE;
      deviceMemory := NULL_HANDLE;
      mappedMemoryPtr := 0;
    }

    /** findSlotAvailableForSize: a find_if over the records in offset order,
        carrying the candidate offset, then the tail test. */
    method FindSlotAvailableForSize(resourceSize: nat, memoryPoolSize: nat) returns (slot: Option<nat>)
      requires Wf(resources, memoryPoolSize)
      ensures slot == FindSlot(resources, resourceSize, memoryPoolSize)
    {
      var potentialOffset := 0;
      var i := 0;
      while i < |resources|
        invariant i <= |resources|
        invariant potentialOffset == GapStart(resources, i)
        invariant FirstFittingRecord(resources, resourceSize, 0) == FirstFittingRecord(resources, resourceSize, i)
      {
        var resourceData := resources[i];
        if resourceData.offset - potentialOffset >= resourceSize {
          break;
        }
        potentialOffset := resourceData.offset + resourceData.size;
        i := i + 1;
      }
      if memoryPoolSize - potentialOffset >= resourceSize {
        return Some(potentialOffset);
      }
      return None;
    }

    /** createResource: inserts {slot, resourceSize} when a slot is found and
        returns the set's element at that offset, which is an older record
        when one already sits there; returns nothing, leaving the set as it
        was, when no gap fits. */
    method CreateResource(resourceSize: nat) returns (resource: Option<ResourceData>)
      requires Valid()
      modifies this`resources
      ensures Valid()
      ensures var slot := FindSlot(old(resources), resourceSize, size);
        && (slot.None? ==> resource.None? && resources == old(resources))
        && (slot.Some? ==>
              var x := ResourceData(slot.value, resourceSize);
              && resources == InsertByOffset(old(resources), x)
              && resource == Some(InsertedElement(old(resources), x)))
      ensures resource.Some? ==> resource.value in resources
    {
      resource := None;
      var resourceOffset := FindSlotAvailableForSize(resourceSize, size);
      if resourceOffset.Some? {
        var data := ResourceData(resourceOffset.value, resourceSize);
        FoundSlotIsFree(resources, resourceSize, size);
        InsertByOffsetKeepsWf(resources, data, size);
        var element := InsertedElement(resources, data);
        resources := InsertByOffset(resources, data);
        resource := Some(element);
      }
    }

    /** createResource with zero-size requests refused: in a pool whose
        records all have positive size, a granted request is a new record of
        exactly the requested size that overlaps no other, and destroying it
        restores the set. */
    method CreateResourceCorrected(resourceSize: nat) returns (resource: Option<ResourceData>)
      requires Valid() && AllPositive(resources)
      modifies this`resources
      ensures Valid() && AllPositive(resources)
      ensures resource.None? <==> resourceSize == 0 || FindSlot(old(resources), resourceSize, size).None?
      ensures resource.None? ==> resources == old(resources)
      ensures resource.Some? ==>
        && resource.value == ResourceData(FindSlot(old(resources), resourceSize, size).value, resourceSize)
        && resource.value.End() <= size
        && (forall r :: r in old(resources) ==> Disjoint(r, resource.value))
        && resources == InsertByOffset(old(resources), resource.value)
        && |resources| == |old(resources)| + 1
        && EraseOffset(resources, resource.value.offset) == old(resources)
    {
      resource := None;
      if resourceSize == 0 {
        return;
      }
      var resourceOffset := FindSlotAvailableForSize(resourceSize, size);
      if resourceOffset.Some? {
        var data := ResourceData(resourceOffset.value, resourceSize);
        FoundSlotIsFree(resources, resourceSize, size);
        PositiveRequestGetsFreshOffset(resources, resourceSize, size);
        InsertByOffsetKeepsWf(resources, data, size);
        EraseUndoesInsert(resources, data);
        resources := InsertByOffset(resources, data);
        resource := Some(data);
      }
    }

    /** pointerToResource: the mapped base address plus the record's offset.
        The caller must pass a record of this pool and the pool must be
        mapped; the record's bytes then end inside the mapping. */
    method PointerToResource(resource: ResourceData) returns (p: nat)
      requires resource in resources
      requires mappedMemoryPtr != 0
      ensures p == mappedMemoryPtr + resource.offset
      ensures Valid() ==> p + resource.size <= mappedMemoryPtr + size
    {
      p := mappedMemoryPtr + resource.offset;
    }

    /** destroyResource: erases the set's element with the record's offset;
        every other record stays. */
    method DestroyResource(resource: ResourceData)
      modifies this`resources
      ensures resources == EraseOffset(old(resources), resource.offset)
      ensures old(Valid()) ==> Valid()
    {
      if Valid() {
        EraseOffsetKeepsWf(resources, resource.offset, size);
      }
      resources := EraseOffset(resources, resource.offset);
    }

    /** deallocatePool: unmap if mapped, then destroy the buffer and free the
        memory. The mapped pointer is left as it was. */
    method DeallocatePool() returns (calls: seq<Call>)
      ensures |calls| >= 2 && calls[|calls| - 2..] == [DestroyBuffer(buffer), FreeMemory(deviceMemory)]
      ensures mappedMemoryPtr != 0 <==> UnmapMemory(deviceMemory) in calls
      ensures mappedMemoryPtr != 0 ==> calls[0] == UnmapMemory(deviceMemory)
      ensures |calls| == if mappedMemoryPtr != 0 then 3 else 2
    {
      calls := [];
      if mappedMemoryPtr != 0 {
        calls := calls + [UnmapMemory(deviceMemory)];
      }
      calls := calls + [DestroyBuffer(buffer)];
      calls := calls + [FreeMemory(deviceMemory)];
    }

    /** allocatePool: create the buffer (exclusive for one queue family,
        concurrent for more), pick a memory type (which may throw), allocate
        and bind. A failure at any of the three steps is reported as
        FailureResult and skips the later steps. Only after all three succeed
        is the pool size set, and the memory is then mapped when host
        visibility was requested (the map's own result is not checked). The
        driver's answers are parameters: handles it writes, results it
        returns, the requirements it reports and the address it maps to. */
    method AllocatePool(poolSize: nat, usage: Flags, requiredMemoryProperties: Flags,
                        availableDeviceMemoryProperties: MemoryProperties, queueFamilyIndices: seq<nat>,
                        createResult: VkResult, createdBuffer: Handle, requirements: MemoryRequirements,
                        allocateResult: VkResult, allocatedMemory: Handle, bindResult: VkResult,
                        mappedAddress: nat)
      returns (r: Result<MemoryOperationResult>, calls: seq<Call>)
      requires |availableDeviceMemoryProperties.memoryTypes| <= VK_MAX_MEMORY_TYPES
      modifies this`size, this`buffer, this`deviceMemory, this`mappedMemoryPtr
      ensures |calls| >= 1
      ensures calls[0] == Call.CreateBuffer(BufferCreateInfo(poolSize, usage,
        if |queueFamilyIndices| > 1 then Concurrent else Exclusive, queueFamilyIndices))
      ensures createResult != VK_SUCCESS ==> r == Ok(FailureResult(createResult)) && |calls| == 1
      ensures createResult == VK_SUCCESS && allocateResult != VK_SUCCESS && r.Ok? ==>
        r.value == FailureResult(allocateResult) && |calls| == 2
      ensures createResult == VK_SUCCESS && allocateResult == VK_SUCCESS && bindResult != VK_SUCCESS && r.Ok? ==>
        r.value == FailureResult(bindResult) && |calls| == 3
      ensures r.Throw? <==>
        && createResult == VK_SUCCESS
        && forall i :: 0 <= i < |availableDeviceMemoryProperties.memoryTypes| ==>
          !Utils.MemoryTypeFits(requirements.memoryTypeBits, requiredMemoryProperties, availableDeviceMemoryProperties, i)
      ensures r == Ok(Success) <==> r.Ok? && createResult == VK_SUCCESS && allocateResult == VK_SUCCESS && bindResult == VK_SUCCESS
      ensures r == Ok(Success) ==>
        && size == poolSize
        && |calls| >= 3
        && calls[1].AllocateMemory? && calls[1].allocationSize == requirements.size
        && calls[2] == BindBufferMemory(createdBuffer, allocatedMemory)
        && (|calls| == 4 <==> requiredMemoryProperties & VK_MEMORY_PROPERTY_HOST_VISIBLE_BIT != 0)
        && (|calls| == 4 ==> calls[3] == MapMemory(allocatedMemory) && mappedMemoryPtr == mappedAddress)
        && (|calls| == 3 ==> mappedMemoryPtr == old(mappedMemoryPtr))
      ensures r != Ok(Success) ==> size == old(size) && mappedMemoryPtr == old(mappedMemoryPtr)
      ensures buffer == createdBuffer
      ensures |calls| >= 2 <==> createResult == VK_SUCCESS && !r.Throw?
      ensures |calls| >= 2 ==>
        && deviceMemory == allocatedMemory
        && calls[1].AllocateMemory? && calls[1].allocationSize == requirements.size
        && calls[1].memoryTypeIndex < |availableDeviceMemoryProperties.memoryTypes|
        && Utils.MemoryTypeFits(requirements.memoryTypeBits, requiredMemoryProperties, availableDeviceMemoryProperties,
                                calls[1].memoryTypeIndex)
        && forall j :: 0 <= j < calls[1].memoryTypeIndex ==>
             !Utils.MemoryTypeFits(requirements.memoryTypeBits, requiredMemoryProperties, availableDeviceMemoryProperties, j)
      ensures |calls| < 2 ==> deviceMemory == old(deviceMemory)
    {
      var sharingMode := Exclusive;
      if |queueFamilyIndices| > 1 {
        sharingMode := Concurrent;
      }
      var bufferInfo := BufferCreateInfo(poolSize, usage, sharingMode, queueFamilyIndices);
      calls := [Call.CreateBuffer(bufferInfo)];
      buffer := createdBuffer;
      if createResult != VK_SUCCESS {
        return Ok(FailureResult(createResult)), calls;
      }

      var memoryTypeIndex := Utils.FindMemoryType(requirements.memoryTypeBits, requiredMemoryProperties,
                                                  availableDeviceMemoryProperties);
      if memoryTypeIndex.Throw? {
        return Throw(memoryTypeIndex.error), calls;
      }

      calls := calls + [AllocateMemory(requirements.size, memoryTypeIndex.value)];
      deviceMemory := allocatedMemory;
      if allocateResult != VK_SUCCESS {
        return Ok(FailureResult(allocateResult)), calls;
      }

      calls := calls + [BindBufferMemory(buffer, deviceMemory)];
      if bindResult != VK_SUCCESS {
        return Ok(FailureResult(bindResult)), calls;
      }
      size := poolSize;

      if requiredMemoryProperties & VK_MEMORY_PROPERTY_HOST_VISIBLE_BIT != 0 {
        calls := calls + [MapMemory(deviceMemory)];
        mappedMemoryPtr := mappedAddress;
      }
      return Ok(Success), calls;
    }
  }
}
