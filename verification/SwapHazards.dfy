/** The allocator's side of swapping: which blocks a copy may still be reading, and why none of
    them is ever handed out (requirement 2 of distserve/block_manager.py:239-275; the other two are
    met by the workers' events). */
module SwapHazards {
  import opened Common
  import opened Requests
  import opened Blocks

  function ToSet(s: seq<nat>): set<nat> { set b | b in s }

  /** The effect of one call on the blocks that may still be read: a wait clears them, a swap out
      of the device adds its sources. */
  function AfterCall(before: set<nat>, call: WorkerCall, loc: Location): set<nat> {
    if call.WaitForAllSwapOut? && loc.GPU? then {}
    else if call.WaitForAllSwapIn? && loc.CPU? then {}
    else if call.SwapBlocks? && Source(call.isSwapIn) == loc then before + ToSet(call.source)
    else before
  }

  /** The blocks of a device that an issued swap may still be reading: the sources of the swaps
      out of it since the last wait for such swaps. */
  function MayRead(calls: seq<WorkerCall>, loc: Location): set<nat>
    decreases |calls|
  {
    if calls == [] then {}
    else AfterCall(MayRead(calls[..|calls| - 1], loc), calls[|calls| - 1], loc)
  }

  lemma MayReadSnoc(calls: seq<WorkerCall>, call: WorkerCall, loc: Location)
    ensures MayRead(calls + [call], loc) == AfterCall(MayRead(calls, loc), call, loc)
  {
    assert (calls + [call])[..|calls|] == calls;
  }

  /** Requirement 2 at one call: the blocks copied to are not being read by an earlier swap. */
  ghost predicate TargetsIdle(calls: seq<WorkerCall>, i: nat)
    requires i < |calls|
  {
    calls[i].SwapBlocks? ==>
      forall b :: b in calls[i].target ==> b !in MayRead(calls[..i], Target(calls[i].isSwapIn))
  }

  /** No swap ever writes a block that an unfinished swap reads. */
  ghost predicate HazardFree(calls: seq<WorkerCall>) {
    forall i :: 0 <= i < |calls| ==> TargetsIdle(calls, i)
  }

  lemma HazardFreeSnoc(calls: seq<WorkerCall>, call: WorkerCall)
    requires HazardFree(calls)
    requires call.SwapBlocks? ==>
               forall b :: b in call.target ==> b !in MayRead(calls, Target(call.isSwapIn))
    ensures HazardFree(calls + [call])
  {
    var all := calls + [call];
    forall i | 0 <= i < |all| ensures TargetsIdle(all, i) {
      if i < |calls| {
        assert all[..i] == calls[..i];
        assert TargetsIdle(calls, i);
      } else {
        assert all[..i] == calls;
      }
    }
  }

  /** Blocks that may still be read are parked in the swapping list, where nobody gets them. */
  ghost predicate Parked(s: BlockState) {
    && (forall b :: b in MayRead(s.calls, GPU) ==> b in s.gpu.swapping)
    && (forall b :: b in MayRead(s.calls, CPU) ==> b in s.cpu.swapping)
  }

  ghost predicate HazardInv(s: BlockState, maxGpu: nat, maxCpu: nat) {
    Partitioned(s, maxGpu, maxCpu) && Parked(s) && HazardFree(s.calls)
  }

  /** No block of a live request is still being read by a swap: what the allocator hands out is
      safe to write. */
  lemma TablesAreIdle(s: BlockState, maxGpu: nat, maxCpu: nat, id: int, loc: Location, b: nat)
    requires Partitioned(s, maxGpu, maxCpu) && Parked(s) && s.At(id, loc) && b in s.table[id]
    ensures b !in MayRead(s.calls, loc)
  {
    PartitionSeparates(s, loc, MaxAt(loc, maxGpu, maxCpu), id, b);
  }

  lemma GetFreeBlocksParked(s: BlockState, n: nat, loc: Location)
    requires Parked(s) && HazardFree(s.calls) && GetFreeBlocks(s, n, loc).Ok?
    ensures var s1 := GetFreeBlocks(s, n, loc).value.0; Parked(s1) && HazardFree(s1.calls)
    ensures var s1 := GetFreeBlocks(s, n, loc).value.0;
            forall b :: b in s.PoolAt(Other(loc)).swapping ==> b in s1.PoolAt(Other(loc)).swapping
  {
    if |s.PoolAt(loc).free| < n {
      var wait := if loc.GPU? then WaitForAllSwapOut else WaitForAllSwapIn;
      MayReadSnoc(s.calls, wait, GPU);
      MayReadSnoc(s.calls, wait, CPU);
      HazardFreeSnoc(s.calls, wait);
    }
  }

  function Other(loc: Location): Location { if loc.GPU? then CPU else GPU }

  lemma AllocateHazard(blockSize: nat, s: BlockState, r: Req, maxGpu: nat, maxCpu: nat)
    requires blockSize >= 1 && HazardInv(s, maxGpu, maxCpu) && Allocate(blockSize, s, r).Ok?
    ensures HazardInv(Allocate(blockSize, s, r).value, maxGpu, maxCpu)
  {
    AllocatePartitioned(blockSize, s, r, maxGpu, maxCpu);
    var missing := Need(r, blockSize) - |TableOf(s, r.id)|;
    if missing > 0 || r.id !in s.table {
      GetFreeBlocksParked(s, missing, GPU);
    }
  }

  lemma FreeHazard(s: BlockState, id: int, maxGpu: nat, maxCpu: nat)
    requires HazardInv(s, maxGpu, maxCpu) && FreeBlocks(s, id).Ok?
    ensures HazardInv(FreeBlocks(s, id).value, maxGpu, maxCpu)
  {
    FreePartitioned(s, id, maxGpu, maxCpu);
  }

  // ---------------------------------------------------------------- a batched swap

  /** The targets gathered so far belong to requests already moved. */
  ghost predicate OwnedAt(s: BlockState, loc: Location, target: seq<nat>) {
    forall b :: b in target ==> exists id :: s.At(id, loc) && b in s.table[id]
  }

  ghost predicate ParkedSources(s: BlockState, loc: Location, source: seq<nat>) {
    forall b :: b in source ==> b in s.PoolAt(loc).swapping
  }

  lemma SwapOneKeeps(s: BlockState, id: int, isSwapIn: bool, source: seq<nat>, target: seq<nat>)
    requires SwapOne(s, id, isSwapIn).Ok? && Parked(s) && HazardFree(s.calls)
    requires ParkedSources(s, Source(isSwapIn), source) && OwnedAt(s, Target(isSwapIn), target)
    ensures var (s1, blocks) := SwapOne(s, id, isSwapIn).value;
            && Parked(s1) && HazardFree(s1.calls)
            && ParkedSources(s1, Source(isSwapIn), source + s.table[id])
            && OwnedAt(s1, Target(isSwapIn), target + blocks)
  {
    var dst := Target(isSwapIn);
    GetFreeBlocksParked(s, |s.table[id]|, dst);
    GetFreeBlocksSpec(s, |s.table[id]|, dst);
    var (s1, blocks) := SwapOne(s, id, isSwapIn).value;
    forall b | b in target + blocks ensures exists x :: s1.At(x, dst) && b in s1.table[x] {
      if b in blocks {
        assert s1.At(id, dst) && b in s1.table[id];
      } else {
        var x :| s.At(x, dst) && b in s.table[x];
        assert s1.At(x, dst) && b in s1.table[x];
      }
    }
  }

  lemma {:induction false} SwapLoopKeeps(s: BlockState, ids: seq<int>, isSwapIn: bool,
                                         source: seq<nat>, target: seq<nat>)
    requires SwapLoop(s, ids, isSwapIn, source, target).Ok? && Parked(s) && HazardFree(s.calls)
    requires ParkedSources(s, Source(isSwapIn), source) && OwnedAt(s, Target(isSwapIn), target)
    ensures var r := SwapLoop(s, ids, isSwapIn, source, target).value;
            && Parked(r.state) && HazardFree(r.state.calls)
            && ParkedSources(r.state, Source(isSwapIn), r.source)
            && OwnedAt(r.state, Target(isSwapIn), r.target)
    decreases |ids|
  {
    if ids != [] {
      SwapOneKeeps(s, ids[0], isSwapIn, source, target);
      var (s1, blocks) := SwapOne(s, ids[0], isSwapIn).value;
      SwapLoopKeeps(s1, ids[1..], isSwapIn, source + s.table[ids[0]], target + blocks);
    }
  }

  /** A batched swap, with any flushes in its middle, copies only to blocks no swap is reading. */
  lemma SwapHazard(s: BlockState, ids: seq<int>, isSwapIn: bool, maxGpu: nat, maxCpu: nat)
    requires HazardInv(s, maxGpu, maxCpu) && SwapRequests(s, ids, isSwapIn).Ok?
    ensures HazardInv(SwapRequests(s, ids, isSwapIn).value, maxGpu, maxCpu)
  {
    SwapPartitioned(s, ids, isSwapIn, maxGpu, maxCpu);
    SwapLoopPartitioned(s, ids, isSwapIn, [], [], maxGpu, maxCpu);
    SwapLoopKeeps(s, ids, isSwapIn, [], []);
    var r := SwapLoop(s, ids, isSwapIn, [], []).value;
    var call := SwapBlocks(ids, r.source, r.target, isSwapIn);
    forall b | b in r.target ensures b !in MayRead(r.state.calls, Target(isSwapIn)) {
      var x :| r.state.At(x, Target(isSwapIn)) && b in r.state.table[x];
      TablesAreIdle(r.state, maxGpu, maxCpu, x, Target(isSwapIn), b);
    }
    HazardFreeSnoc(r.state.calls, call);
    MayReadSnoc(r.state.calls, call, GPU);
    MayReadSnoc(r.state.calls, call, CPU);
  }

  // ---------------------------------------------------------------- any use of the manager

  function ApplyAll(blockSize: nat, s: BlockState, ops: seq<ManagerOp>): Result<BlockState>
    requires blockSize >= 1
    decreases |ops|
  {
    if ops == [] then Ok(s)
    else
      var s1 :- ApplyOp(blockSize, s, ops[0]);
      ApplyAll(blockSize, s1, ops[1..])
  }

  lemma {:induction false} ApplyAllHazard(blockSize: nat, s: BlockState, ops: seq<ManagerOp>, maxGpu: nat, maxCpu: nat)
    requires blockSize >= 1 && HazardInv(s, maxGpu, maxCpu) && ApplyAll(blockSize, s, ops).Ok?
    ensures HazardInv(ApplyAll(blockSize, s, ops).value, maxGpu, maxCpu)
    decreases |ops|
  {
    if ops != [] {
      match ops[0] {
        case Alloc(r) => AllocateHazard(blockSize, s, r, maxGpu, maxCpu);
        case Free(id) => FreeHazard(s, id, maxGpu, maxCpu);
        case Swap(ids, isSwapIn) => SwapHazard(s, ids, isSwapIn, maxGpu, maxCpu);
      }
      ApplyAllHazard(blockSize, ApplyOp(blockSize, s, ops[0]).value, ops[1..], maxGpu, maxCpu);
    }
  }

  /** Whatever sequence of operations the manager goes through: each block id of each device
      stays in exactly one place, blocks a swap may still be reading are handed to nobody, and no
      swap ever writes a block another swap is reading. */
  lemma ManagerIsHazardFree(blockSize: nat, ops: seq<ManagerOp>, maxGpu: nat, maxCpu: nat)
    requires blockSize >= 1 && ApplyAll(blockSize, InitState(maxGpu, maxCpu), ops).Ok?
    ensures var s := ApplyAll(blockSize, InitState(maxGpu, maxCpu), ops).value;
            HazardInv(s, maxGpu, maxCpu)
  {
    InitPartitioned(maxGpu, maxCpu);
    ApplyAllHazard(blockSize, InitState(maxGpu, maxCpu), ops, maxGpu, maxCpu);
  }
}
