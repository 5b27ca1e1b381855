/** The block manager as the mutable object of distserve/block_manager.py. */
module BlockManagers {
  import opened Common
  import opened Requests
  import opened Blocks

  class BlockManager {
    const blockSize: nat
    const maxNumGpuBlocks: nat
    const maxNumCpuBlocks: nat
    var freeGpuBlocks: seq<nat>
    var freeCpuBlocks: seq<nat>
    var swappingGpuBlocks: seq<nat>
    var swappingCpuBlocks: seq<nat>
    var blockTable: map<int, seq<nat>>
    var requestLocation: map<int, Location>
    var workerCalls: seq<WorkerCall>  // what engine_remote_call_all_workers_async was asked to do

    constructor (blockSize: nat, maxGpu: nat, maxCpu: nat)
      ensures this.blockSize == blockSize && maxNumGpuBlocks == maxGpu && maxNumCpuBlocks == maxCpu
      ensures View() == InitState(maxGpu, maxCpu)
    {
      this.blockSize := blockSize;
      maxNumGpuBlocks := maxGpu;
      maxNumCpuBlocks := maxCpu;
      freeGpuBlocks := seq(maxGpu, i => i);
      freeCpuBlocks := seq(maxCpu, i => i);
      swappingGpuBlocks := [];
      swappingCpuBlocks := [];
      blockTable := map[];
      requestLocation := map[];
      workerCalls := [];
      new;
      assert freeGpuBlocks == InitState(maxGpu, maxCpu).gpu.free;
      assert freeCpuBlocks == InitState(maxGpu, maxCpu).cpu.free;
    }

    function View(): BlockState
      reads this
    {
      BlockState(Pool(freeGpuBlocks, swappingGpuBlocks), Pool(freeCpuBlocks, swappingCpuBlocks),
                 blockTable, requestLocation, workerCalls)
    }

    function NumAvailGpuBlocks(): (n: nat)
      reads this
      ensures n == View().gpu.Avail()
    {
      |freeGpuBlocks| + |swappingGpuBlocks|
    }

    function NumAvailCpuBlocks(): (n: nat)
      reads this
      ensures n == View().cpu.Avail()
    {
      |freeCpuBlocks| + |swappingCpuBlocks|
    }

    /** The quotient of the source, which is the number of blocks the request needs. */
    method GetNumBlocksNeeded(request: Req) returns (n: nat)
      requires blockSize >= 1
      ensures n == Need(request, blockSize)
    {
      n := (|request.prompt| + |request.output| + blockSize - 1) / blockSize;
      BlocksForIsQuotient(|request.prompt| + |request.output|, blockSize);
    }

    method GetFreeBlockIds(numBlocks: nat, location: Location) returns (raised: Option<Error>, blocks: seq<nat>)
      modifies this
      ensures GetFreeBlocks(old(View()), numBlocks, location).Ok? <==> raised.None?
      ensures raised.Some? ==> raised.value == GetFreeBlocks(old(View()), numBlocks, location).error
      ensures raised.None? ==> GetFreeBlocks(old(View()), numBlocks, location).value == (View(), blocks)
    {
      blocks := [];
      if location.GPU? {
        if NumAvailGpuBlocks() < numBlocks {
          return Some(OutOfGpuBlocks), [];
        }
        if |freeGpuBlocks| < numBlocks {
          workerCalls := workerCalls + [WaitForAllSwapOut];
          freeGpuBlocks := freeGpuBlocks + swappingGpuBlocks;
          swappingGpuBlocks := [];
        }
        blocks := freeGpuBlocks[..numBlocks];
        freeGpuBlocks := freeGpuBlocks[numBlocks..];
      } else {
        if NumAvailCpuBlocks() < numBlocks {
          return Some(OutOfCpuBlocks), [];
        }
        if |freeCpuBlocks| < numBlocks {
          workerCalls := workerCalls + [WaitForAllSwapIn];
          freeCpuBlocks := freeCpuBlocks + swappingCpuBlocks;
          swappingCpuBlocks := [];
        }
        blocks := freeCpuBlocks[..numBlocks];
        freeCpuBlocks := freeCpuBlocks[numBlocks..];
      }
      return None, blocks;
    }

    method AllocateBlocks(request: Req) returns (raised: Option<Error>)
      requires blockSize >= 1
      modifies this
      ensures Agrees(raised, Allocate(blockSize, old(View()), request), View())
    {
      var id := request.id;
      if id in blockTable && !(id in requestLocation && requestLocation[id] == GPU) {
        return Some(OnCpu);
      }
      var needed := GetNumBlocksNeeded(request);
      if id !in blockTable {
        var e, blocks := GetFreeBlockIds(needed, GPU);
        if e.Some? {
          return e;
        }
        blockTable := blockTable[id := blocks];
        requestLocation := requestLocation[id := GPU];
      } else if |blockTable[id]| < needed {
        var held := blockTable[id];
        var e, blocks := GetFreeBlockIds(needed - |held|, GPU);
        if e.Some? {
          return e;
        }
        blockTable := blockTable[id := held + blocks];
      }
      return None;
    }

    method AllocateBlocksBatched(requests: seq<Req>) returns (raised: Option<Error>)
      requires blockSize >= 1
      modifies this
      ensures Agrees(raised, AllocateBatched(blockSize, old(View()), requests), View())
    {
      assert requests[0..] == requests;
      for k := 0 to |requests|
        invariant AllocateBatched(blockSize, old(View()), requests) == AllocateBatched(blockSize, View(), requests[k..])
      {
        assert requests[k..][0] == requests[k] && requests[k..][1..] == requests[k + 1..];
        var e := AllocateBlocks(requests[k]);
        if e.Some? {
          return e;
        }
      }
      return None;
    }

    method FreeBlocksOf(requestId: int) returns (raised: Option<Error>)
      modifies this
      ensures Agrees(raised, FreeBlocks(old(View()), requestId), View())
    {
      if requestId !in blockTable {
        return Some(NotAllocated);
      }
      var blocks := blockTable[requestId];
      if requestId in requestLocation && requestLocation[requestId] == GPU {
        freeGpuBlocks := freeGpuBlocks + blocks;
      } else {
        freeCpuBlocks := freeCpuBlocks + blocks;
      }
      blockTable := blockTable - {requestId};
      requestLocation := requestLocation - {requestId};
      return None;
    }

    method FreeBlocksBatched(requests: seq<Req>) returns (raised: Option<Error>)
      modifies this
      ensures Agrees(raised, FreeBatched(old(View()), requests), View())
    {
      assert requests[0..] == requests;
      for k := 0 to |requests|
        invariant FreeBatched(old(View()), requests) == FreeBatched(View(), requests[k..])
      {
        assert requests[k..][0] == requests[k] && requests[k..][1..] == requests[k + 1..];
        var e := FreeBlocksOf(requests[k].id);
        if e.Some? {
          return e;
        }
      }
      return None;
    }

    /** One round of the loop of swap_requests. */
    method SwapRequest(id: int, isSwapIn: bool) returns (raised: Option<Error>, blocks: seq<nat>)
      modifies this
      ensures SwapOne(old(View()), id, isSwapIn).Ok? <==> raised.None?
      ensures raised.Some? ==> raised.value == SwapOne(old(View()), id, isSwapIn).error
      ensures raised.None? ==> SwapOne(old(View()), id, isSwapIn).value == (View(), blocks)
    {
      blocks := [];
      var curLocation, targetLocation := Source(isSwapIn), Target(isSwapIn);
      if id !in blockTable {
        return Some(NotAllocated), [];
      }
      if !(id in requestLocation && requestLocation[id] == curLocation) {
        return Some(WrongLocation), [];
      }
      var oldBlockIds := blockTable[id];
      raised, blocks := GetFreeBlockIds(|oldBlockIds|, targetLocation);
      if raised.Some? {
        return;
      }
      blockTable := blockTable[id := blocks];
      requestLocation := requestLocation[id := targetLocation];
      if curLocation.CPU? {
        swappingCpuBlocks := swappingCpuBlocks + oldBlockIds;
      } else {
        swappingGpuBlocks := swappingGpuBlocks + oldBlockIds;
      }
    }

    /** Blocks change hands request by request; the copy is issued once, at the end. */
    method SwapRequestList(ids: seq<int>, isSwapIn: bool) returns (raised: Option<Error>)
      modifies this
      ensures Agrees(raised, SwapRequests(old(View()), ids, isSwapIn), View())
    {
      var sourceBlockIds: seq<nat>, targetBlockIds: seq<nat> := [], [];
      assert ids[0..] == ids;
      for k := 0 to |ids|
        invariant SwapLoop(old(View()), ids, isSwapIn, [], [])
               == SwapLoop(View(), ids[k..], isSwapIn, sourceBlockIds, targetBlockIds)
      {
        assert ids[k..][0] == ids[k] && ids[k..][1..] == ids[k + 1..];
        var oldBlockIds := if ids[k] in blockTable then blockTable[ids[k]] else [];
        var e, newBlockIds := SwapRequest(ids[k], isSwapIn);
        if e.Some? {
          return e;
        }
        sourceBlockIds := sourceBlockIds + oldBlockIds;
        targetBlockIds := targetBlockIds + newBlockIds;
      }
      workerCalls := workerCalls + [SwapBlocks(ids, sourceBlockIds, targetBlockIds, isSwapIn)];
      return None;
    }

    method IsAllRequestsOnGpu(requests: seq<Req>) returns (all: bool)
      ensures all == AllOnGpu(View(), requests)
    {
      for k := 0 to |requests|
        invariant forall i :: 0 <= i < k ==> View().OnGpu(requests[i].id)
      {
        var id := requests[k].id;
        if !(id in blockTable && id in requestLocation && requestLocation[id] == GPU) {
          assert requests[k] in requests;
          return false;
        }
      }
      return true;
    }
  }
}
