/** Copying records of one memory pool into records of another: one copy
    region per source record, paired in order with the destination records,
    all recorded in a single copy command of a single-time command buffer. */
module MemoryUtils {
  import opened Vulkan
  import opened MemoryPool
  import Utils

  /** The regions for copying `src[k]` into `dst[k]`, for every source
      record in order. */
  function Regions(src: seq<ResourceData>, dst: seq<ResourceData>): (regions: seq<BufferCopy>)
    requires |src| <= |dst|
    ensures |regions| == |src|
  {
    seq(|src|, k requires 0 <= k < |src| => BufferCopy(src[k].offset, dst[k].offset, src[k].size))
  }

  /** The loop of copyMemoryPoolResourceToMemoryPool: walks the source records
      and the destination records side by side (each pair must have the same
      size) and appends one region per pair. */
  method CopyRegions(src: seq<ResourceData>, dst: seq<ResourceData>) returns (copies: seq<BufferCopy>)
    requires |src| <= |dst|
    requires forall k :: 0 <= k < |src| ==> src[k].size == dst[k].size
    ensures copies == Regions(src, dst)
    ensures forall k :: 0 <= k < |src| ==>
      copies[k].srcOffset == src[k].offset && copies[k].dstOffset == dst[k].offset && copies[k].size == dst[k].size
  {
    copies := [];
    var k := 0;
    while k < |src|
      invariant k <= |src|
      invariant copies == Regions(src[..k], dst[..k])
    {
      copies := copies + [BufferCopy(src[k].offset, dst[k].offset, src[k].size)];
      k := k + 1;
    }
    assert src[..k] == src && dst[..k] == dst[..|src|];
  }

  /** copyMemoryPoolResourceToMemoryPool: one copy command from the source
      pool's buffer to the destination pool's buffer carrying every region,
      inside one single-time command. */
  method CopyMemoryPoolResourceToMemoryPool(commandPool: Handle, queue: Handle,
                                            srcPool: MemoryPool, src: seq<ResourceData>,
                                            dstPool: MemoryPool, dst: seq<ResourceData>,
                                            commandBuffer: Handle)
    returns (calls: seq<Call>)
    requires |src| <= |dst|
    requires forall k :: 0 <= k < |src| ==> src[k].size == dst[k].size
    ensures calls == Utils.BeginSingleTimeCommands(commandPool, commandBuffer)
      + [CmdCopyBuffer(commandBuffer, srcPool.buffer, dstPool.buffer, Regions(src, dst))]
      + Utils.EndSingleTimeCommands(commandPool, queue, commandBuffer)
  {
    var copies := CopyRegions(src, dst);
    calls := Utils.BeginSingleTimeCommands(commandPool, commandBuffer);
    calls := calls + [CmdCopyBuffer(commandBuffer, srcPool.buffer, dstPool.buffer, copies)];
    calls := calls + Utils.EndSingleTimeCommands(commandPool, queue, commandBuffer);
  }

  /** Two different records of a well-formed pool do not overlap. */
  lemma DistinctRecordsDisjoint(rs: seq<ResourceData>, poolSize: nat, a: ResourceData, b: ResourceData)
    requires Wf(rs, poolSize)
    requires a in rs && b in rs && a != b
    ensures Disjoint(a, b)
  {
    var i :| 0 <= i < |rs| && rs[i] == a;
    var j :| 0 <= j < |rs| && rs[j] == b;
    if i < j {
      assert Precedes(rs[i], rs[j]);
    } else {
      assert Precedes(rs[j], rs[i]);
    }
  }

  /** When the paired records belong to well-formed pools, every region reads
      inside the source pool and writes inside the destination pool, and
      regions copied to different destination records do not overlap. */
  lemma RegionsStayInsidePools(src: seq<ResourceData>, srcRecords: seq<ResourceData>, srcSize: nat,
                               dst: seq<ResourceData>, dstRecords: seq<ResourceData>, dstSize: nat)
    requires Wf(srcRecords, srcSize) && Wf(dstRecords, dstSize)
    requires |src| <= |dst|
    requires forall k :: 0 <= k < |src| ==> src[k] in srcRecords && dst[k] in dstRecords && src[k].size == dst[k].size
    ensures var regions := Regions(src, dst);
      && (forall k :: 0 <= k < |regions| ==> regions[k].srcOffset + regions[k].size <= srcSize)
      && (forall k :: 0 <= k < |regions| ==> regions[k].dstOffset + regions[k].size <= dstSize)
      && (forall k, l :: 0 <= k < |regions| && 0 <= l < |regions| && dst[k] != dst[l] ==>
            regions[k].dstOffset + regions[k].size <= regions[l].dstOffset ||
            regions[l].dstOffset + regions[l].size <= regions[k].dstOffset)
  {
    var regions := Regions(src, dst);
    forall k | 0 <= k < |regions|
      ensures regions[k].srcOffset + regions[k].size <= srcSize
      ensures regions[k].dstOffset + regions[k].size <= dstSize
    {
      var i :| 0 <= i < |srcRecords| && srcRecords[i] == src[k];
      var j :| 0 <= j < |dstRecords| && dstRecords[j] == dst[k];
    }
    forall k, l | 0 <= k < |regions| && 0 <= l < |regions| && dst[k] != dst[l]
      ensures regions[k].dstOffset + regions[k].size <= regions[l].dstOffset ||
              regions[l].dstOffset + regions[l].size <= regions[k].dstOffset
    {
      DistinctRecordsDisjoint(dstRecords, dstSize, dst[k], dst[l]);
    }
  }
}
