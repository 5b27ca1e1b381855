/** The paged block allocator as a function of its state (distserve/block_manager.py). */
module Blocks {
  import opened Common
  import opened Requests

  datatype Location = GPU | CPU

  /** One device: blocks known to be free, and blocks a swap may still be reading. */
  datatype Pool = Pool(free: seq<nat>, swapping: seq<nat>) {
    function Avail(): nat { |free| + |swapping| }
  }

  /** The remote calls the manager issues on every worker, in order. */
  datatype WorkerCall =
    | WaitForAllSwapOut
    | WaitForAllSwapIn
    | SwapBlocks(ids: seq<int>, source: seq<nat>, target: seq<nat>, isSwapIn: bool)

  datatype BlockState = BlockState(
    gpu: Pool, cpu: Pool,
    table: map<int, seq<nat>>, location: map<int, Location>,
    calls: seq<WorkerCall>)
  {
    function PoolAt(loc: Location): Pool { if loc.GPU? then gpu else cpu }

    predicate OnGpu(id: int) { id in table && id in location && location[id] == GPU }

    predicate OnCpu(id: int) { id in table && id in location && location[id] == CPU }

    predicate At(id: int, loc: Location) { id in table && id in location && location[id] == loc }
  }

  function MaxAt(loc: Location, maxGpu: nat, maxCpu: nat): nat { if loc.GPU? then maxGpu else maxCpu }

  function InitState(maxGpu: nat, maxCpu: nat): BlockState {
    BlockState(Pool(seq(maxGpu, i => i), []), Pool(seq(maxCpu, i => i), []), map[], map[], [])
  }

  // ---------------------------------------------------------------- operations

  function Flush(p: Pool): Pool { Pool(p.free + p.swapping, []) }

  function GetFreeBlocks(s: BlockState, n: nat, loc: Location): Result<(BlockState, seq<nat>)> {
    if s.PoolAt(loc).Avail() < n then
      Err(if loc.GPU? then OutOfGpuBlocks else OutOfCpuBlocks)
    else if loc.GPU? then
      var s1 := if |s.gpu.free| < n
                then s.(gpu := Flush(s.gpu), calls := s.calls + [WaitForAllSwapOut]) else s;
      Ok((s1.(gpu := Pool(s1.gpu.free[n..], s1.gpu.swapping)), s1.gpu.free[..n]))
    else
      var s1 := if |s.cpu.free| < n
                then s.(cpu := Flush(s.cpu), calls := s.calls + [WaitForAllSwapIn]) else s;
      Ok((s1.(cpu := Pool(s1.cpu.free[n..], s1.cpu.swapping)), s1.cpu.free[..n]))
  }

  function Allocate(blockSize: nat, s: BlockState, r: Req): Result<BlockState>
    requires blockSize >= 1
  {
    if r.id in s.table && !s.OnGpu(r.id) then Err(OnCpu)
    else
      var needed := Need(r, blockSize);
      if r.id !in s.table then
        var (s1, blocks) :- GetFreeBlocks(s, needed, GPU);
        Ok(s1.(table := s1.table[r.id := blocks], location := s1.location[r.id := GPU]))
      else if |s.table[r.id]| < needed then
        var (s1, blocks) :- GetFreeBlocks(s, needed - |s.table[r.id]|, GPU);
        Ok(s1.(table := s1.table[r.id := s.table[r.id] + blocks]))
      else Ok(s)
  }

  function AllocateBatched(blockSize: nat, s: BlockState, rs: seq<Req>): Result<BlockState>
    requires blockSize >= 1
    decreases |rs|
  {
    if rs == [] then Ok(s)
    else
      var s1 :- Allocate(blockSize, s, rs[0]);
      AllocateBatched(blockSize, s1, rs[1..])
  }

  function FreeBlocks(s: BlockState, id: int): Result<BlockState> {
    if id !in s.table then Err(NotAllocated)
    else if s.OnGpu(id) then
      Ok(s.(gpu := Pool(s.gpu.free + s.table[id], s.gpu.swapping),
            table := s.table - {id}, location := s.location - {id}))
    else
      Ok(s.(cpu := Pool(s.cpu.free + s.table[id], s.cpu.swapping),
            table := s.table - {id}, location := s.location - {id}))
  }

  function FreeBatched(s: BlockState, rs: seq<Req>): Result<BlockState>
    decreases |rs|
  {
    if rs == [] then Ok(s)
    else
      var s1 :- FreeBlocks(s, rs[0].id);
      FreeBatched(s1, rs[1..])
  }

  function Source(isSwapIn: bool): Location { if isSwapIn then CPU else GPU }

  function Target(isSwapIn: bool): Location { if isSwapIn then GPU else CPU }

  /** One round of the loop of swap_requests: the new state, and the blocks given and taken. */
  function SwapOne(s: BlockState, id: int, isSwapIn: bool): Result<(BlockState, seq<nat>)> {
    if id !in s.table then Err(NotAllocated)
    else if !s.At(id, Source(isSwapIn)) then Err(WrongLocation)
    else
      var held := s.table[id];
      var (s1, blocks) :- GetFreeBlocks(s, |held|, Target(isSwapIn));
      var s2 := s1.(table := s1.table[id := blocks], location := s1.location[id := Target(isSwapIn)]);
      Ok((if isSwapIn then s2.(cpu := Pool(s2.cpu.free, s2.cpu.swapping + held))
          else s2.(gpu := Pool(s2.gpu.free, s2.gpu.swapping + held)), blocks))
  }

  datatype SwapResult = SwapResult(state: BlockState, source: seq<nat>, target: seq<nat>)

  function SwapLoop(s: BlockState, ids: seq<int>, isSwapIn: bool,
                    source: seq<nat>, target: seq<nat>): Result<SwapResult>
    decreases |ids|
  {
    if ids == [] then Ok(SwapResult(s, source, target))
    else
      var (s1, blocks) :- SwapOne(s, ids[0], isSwapIn);
      SwapLoop(s1, ids[1..], isSwapIn, source + s.table[ids[0]], target + blocks)
  }

  function SwapRequests(s: BlockState, ids: seq<int>, isSwapIn: bool): Result<BlockState> {
    var r :- SwapLoop(s, ids, isSwapIn, [], []);
    Ok(r.state.(calls := r.state.calls + [SwapBlocks(ids, r.source, r.target, isSwapIn)]))
  }

  /** What a client can ask of a manager. */
  datatype ManagerOp =
    | Alloc(req: Req)
    | Free(id: int)
    | Swap(ids: seq<int>, isSwapIn: bool)

  function ApplyOp(blockSize: nat, s: BlockState, op: ManagerOp): Result<BlockState>
    requires blockSize >= 1
  {
    match op
    case Alloc(r) => Allocate(blockSize, s, r)
    case Free(id) => FreeBlocks(s, id)
    case Swap(ids, isSwapIn) => SwapRequests(s, ids, isSwapIn)
  }

  function AllOnGpu(s: BlockState, rs: seq<Req>): bool {
    forall r :: r in rs ==> s.OnGpu(r.id)
  }

  // ---------------------------------------------------------------- block partition

  /** The tables of the requests located on one device. */
  ghost function TablesAt(s: BlockState, loc: Location): map<int, seq<nat>> {
    map id | id in s.table && s.At(id, loc) :: s.table[id]
  }

  /** All blocks named by a set of tables, with multiplicity. */
  ghost function BlocksOf(m: map<int, seq<nat>>): multiset<nat>
    decreases |m|
  {
    if exists id :: id in m then
      var id :| id in m;
      multiset(m[id]) + BlocksOf(m - {id})
    else multiset{}
  }

  ghost function Universe(n: nat): multiset<nat> { multiset(seq(n, i requires 0 <= i < n => i as nat)) }

  lemma {:induction false} UniverseOnce(n: nat, b: nat)
    ensures Universe(n)[b] == if b < n then 1 else 0
    decreases n
  {
    var s := seq(n, i requires 0 <= i < n => i as nat);
    if n == 0 {
      assert s == [];
    } else {
      UniverseOnce(n - 1, b);
      var t := seq(n - 1, i requires 0 <= i < n - 1 => i as nat);
      assert s == t + [n - 1];
    }
  }

  lemma {:induction false} BlocksOfRemove(m: map<int, seq<nat>>, id: int)
    requires id in m
    ensures BlocksOf(m) == multiset(m[id]) + BlocksOf(m - {id})
    decreases |m|
  {
    var k :| k in m.Keys && BlocksOf(m) == multiset(m[k]) + BlocksOf(m - {k});
    if k != id {
      var both := m - {k} - {id};
      BlocksOfRemove(m - {k}, id);
      BlocksOfRemove(m - {id}, k);
      assert m - {id} - {k} == both;
      calc {
        BlocksOf(m);
        multiset(m[k]) + (multiset(m[id]) + BlocksOf(both));
        multiset(m[id]) + (multiset(m[k]) + BlocksOf(both));
        multiset(m[id]) + BlocksOf(m - {id});
      }
    }
  }

  lemma BlocksOfUpdate(m: map<int, seq<nat>>, id: int, blocks: seq<nat>)
    ensures BlocksOf(m[id := blocks]) == multiset(blocks) + BlocksOf(m - {id})
  {
    var m1 := m[id := blocks];
    BlocksOfRemove(m1, id);
    assert m1 - {id} == m - {id};
  }

  /** One device holds each of its `max` blocks exactly once. */
  ghost predicate PoolOk(s: BlockState, loc: Location, max: nat) {
    multiset(s.PoolAt(loc).free) + multiset(s.PoolAt(loc).swapping) + BlocksOf(TablesAt(s, loc))
    == Universe(max)
  }

  ghost predicate Partitioned(s: BlockState, maxGpu: nat, maxCpu: nat) {
    && s.table.Keys == s.location.Keys
    && PoolOk(s, GPU, maxGpu)
    && PoolOk(s, CPU, maxCpu)
  }

  lemma InitPartitioned(maxGpu: nat, maxCpu: nat)
    ensures Partitioned(InitState(maxGpu, maxCpu), maxGpu, maxCpu)
  {
    var s := InitState(maxGpu, maxCpu);
    assert TablesAt(s, GPU) == map[] && TablesAt(s, CPU) == map[];
    assert s.gpu.free == seq(maxGpu, i requires 0 <= i < maxGpu => i as nat);
    assert s.cpu.free == seq(maxCpu, i requires 0 <= i < maxCpu => i as nat);
  }

  ghost function Held(p: Pool): multiset<nat> { multiset(p.free) + multiset(p.swapping) }

  lemma SplitHeld(q: Pool, n: nat)
    requires n <= |q.free|
    ensures Held(q) == Held(Pool(q.free[n..], q.swapping)) + multiset(q.free[..n])
  {
    assert q.free == q.free[..n] + q.free[n..];
  }

  lemma FlushHeld(p: Pool)
    ensures Held(Flush(p)) == Held(p)
  {
    assert multiset(p.free + p.swapping) == multiset(p.free) + multiset(p.swapping);
  }

  /** Taking blocks moves them out of the pool and touches nothing else. */
  lemma GetFreeBlocksSpec(s: BlockState, n: nat, loc: Location)
    requires GetFreeBlocks(s, n, loc).Ok?
    ensures
      var (s1, blocks) := GetFreeBlocks(s, n, loc).value;
      && |blocks| == n
      && s1.table == s.table && s1.location == s.location
      && Held(s.PoolAt(loc)) == Held(s1.PoolAt(loc)) + multiset(blocks)
      && s1.PoolAt(loc).Avail() == s.PoolAt(loc).Avail() - n
      && (loc.GPU? ==> s1.cpu == s.cpu)
      && (loc.CPU? ==> s1.gpu == s.gpu)
  {
    var p := s.PoolAt(loc);
    var q := if |p.free| < n then Flush(p) else p;
    FlushHeld(p);
    SplitHeld(q, n);
  }

  function WaitFor(loc: Location): WorkerCall { if loc.GPU? then WaitForAllSwapOut else WaitForAllSwapIn }

  /** A device is a queue of blocks, the free ones before those a swap may still be reading: blocks are
      taken off its front, and the workers are waited for exactly when the free ones are too few. */
  lemma TakesInOrder(s: BlockState, n: nat, loc: Location)
    ensures GetFreeBlocks(s, n, loc).Ok? <==> n <= |s.PoolAt(loc).free| + |s.PoolAt(loc).swapping|
    ensures GetFreeBlocks(s, n, loc).Ok? ==>
              var (s1, blocks) := GetFreeBlocks(s, n, loc).value;
              var p, p1 := s.PoolAt(loc), s1.PoolAt(loc);
              && blocks + p1.free + p1.swapping == p.free + p.swapping
              && |p1.swapping| == (if n <= |p.free| then |p.swapping| else 0)
              && s1.calls == s.calls + (if n <= |p.free| then [] else [WaitFor(loc)])
  {
  }

  /** Allocating for a newcomer and freeing it again moves the blocks it had from the front of the free
      list to the back, and leaves everything else as it was. */
  lemma AllocateThenFree(blockSize: nat, s: BlockState, r: Req)
    requires blockSize >= 1 && r.id !in s.table && r.id !in s.location
    requires Need(r, blockSize) <= |s.gpu.free|
    ensures Allocate(blockSize, s, r).Ok? && FreeBlocks(Allocate(blockSize, s, r).value, r.id).Ok?
    ensures var n, free := Need(r, blockSize), s.gpu.free;
            FreeBlocks(Allocate(blockSize, s, r).value, r.id).value
            == s.(gpu := Pool(free[n..] + free[..n], s.gpu.swapping))
  {
    var s2 := FreeBlocks(Allocate(blockSize, s, r).value, r.id).value;
    assert s2.table == s.table && s2.location == s.location;
  }

  /** Multiset arithmetic of a table that grows by `taken`. */
  lemma Rebalance(pool: multiset<nat>, pool1: multiset<nat>, taken: multiset<nat>,
                  held: multiset<nat>, rest: multiset<nat>)
    requires pool == pool1 + taken
    ensures pool + (held + rest) == pool1 + ((held + taken) + rest)
  {
  }

  lemma TableGrows(s: BlockState, s1: BlockState, loc: Location, max: nat, id: int, taken: seq<nat>)
    requires PoolOk(s, loc, max)
    requires id in s.table ==> s.At(id, loc)
    requires Held(s.PoolAt(loc)) == Held(s1.PoolAt(loc)) + multiset(taken)
    requires TablesAt(s1, loc)
          == TablesAt(s, loc)[id := (if id in s.table then s.table[id] else []) + taken]
    ensures PoolOk(s1, loc, max)
  {
    var m := TablesAt(s, loc);
    var held := if id in s.table then s.table[id] else [];
    if id in m {
      BlocksOfRemove(m, id);
    } else {
      assert m - {id} == m;
    }
    assert BlocksOf(m) == multiset(held) + BlocksOf(m - {id});
    BlocksOfUpdate(m, id, held + taken);
    assert multiset(held + taken) == multiset(held) + multiset(taken);
    Rebalance(Held(s.PoolAt(loc)), Held(s1.PoolAt(loc)), multiset(taken), multiset(held), BlocksOf(m - {id}));
  }

  lemma TableReturned(s: BlockState, s1: BlockState, loc: Location, max: nat, id: int)
    requires PoolOk(s, loc, max) && s.At(id, loc)
    requires Held(s1.PoolAt(loc)) == Held(s.PoolAt(loc)) + multiset(s.table[id])
    requires TablesAt(s1, loc) == TablesAt(s, loc) - {id}
    ensures PoolOk(s1, loc, max)
  {
    BlocksOfRemove(TablesAt(s, loc), id);
    assert TablesAt(s, loc)[id] == s.table[id];
  }

  function TableOf(s: BlockState, id: int): seq<nat> { if id in s.table then s.table[id] else [] }

  /** An allocation extends the request's own table on the GPU by `taken` and nothing else. */
  ghost predicate Extends(s: BlockState, s2: BlockState, id: int, taken: seq<nat>) {
    && s2.table == s.table[id := TableOf(s, id) + taken]
    && s2.location == s.location[id := GPU]
    && s2.cpu == s.cpu
    && Held(s.gpu) == Held(s2.gpu) + multiset(taken)
    && s2.gpu.Avail() == s.gpu.Avail() - |taken|
  }

  lemma TakingExtends(s: BlockState, id: int, n: nat) returns (taken: seq<nat>)
    requires GetFreeBlocks(s, n, GPU).Ok?
    ensures taken == GetFreeBlocks(s, n, GPU).value.1 && |taken| == n
    ensures var s1 := GetFreeBlocks(s, n, GPU).value.0;
            var s2 := s1.(table := s1.table[id := TableOf(s, id) + taken], location := s1.location[id := GPU]);
            Extends(s, s2, id, taken)
  {
    GetFreeBlocksSpec(s, n, GPU);
    taken := GetFreeBlocks(s, n, GPU).value.1;
  }

  lemma NothingExtends(s: BlockState, id: int)
    requires s.OnGpu(id)
    ensures Extends(s, s, id, [])
  {
    assert s.table[id] + [] == s.table[id];
  }

  lemma AllocateExtends(blockSize: nat, s: BlockState, r: Req) returns (taken: seq<nat>)
    requires blockSize >= 1 && s.table.Keys == s.location.Keys
    requires Allocate(blockSize, s, r).Ok?
    ensures Extends(s, Allocate(blockSize, s, r).value, r.id, taken)
    ensures |TableOf(s, r.id)| <= Need(r, blockSize) ==> |TableOf(s, r.id) + taken| == Need(r, blockSize)
  {
    if r.id !in s.table {
      taken := TakingExtends(s, r.id, Need(r, blockSize));
      assert [] + taken == taken;
    } else if |s.table[r.id]| < Need(r, blockSize) {
      taken := TakingExtends(s, r.id, Need(r, blockSize) - |s.table[r.id]|);
      GetFreeBlocksSpec(s, Need(r, blockSize) - |s.table[r.id]|, GPU);
      assert s.location[r.id := GPU] == s.location;
    } else {
      taken := [];
      NothingExtends(s, r.id);
    }
  }

  /** Allocation fails only for a request on the CPU or for want of GPU blocks. */
  lemma AllocateFails(blockSize: nat, s: BlockState, r: Req)
    requires blockSize >= 1
    requires r.id in s.table ==> s.OnGpu(r.id)
    requires |TableOf(s, r.id)| + s.gpu.Avail() >= Need(r, blockSize)
    ensures Allocate(blockSize, s, r).Ok?
  {
  }

  lemma TablesAtPut(s: BlockState, s2: BlockState, id: int, blocks: seq<nat>, loc: Location, other: Location)
    requires s2.table == s.table[id := blocks] && s2.location == s.location[id := loc] && other != loc
    ensures TablesAt(s2, loc) == TablesAt(s, loc)[id := blocks]
    ensures TablesAt(s2, other) == TablesAt(s, other) - {id}
  {
  }

  lemma AllocatePartitioned(blockSize: nat, s: BlockState, r: Req, maxGpu: nat, maxCpu: nat)
    requires blockSize >= 1 && Partitioned(s, maxGpu, maxCpu)
    requires Allocate(blockSize, s, r).Ok?
    ensures Partitioned(Allocate(blockSize, s, r).value, maxGpu, maxCpu)
  {
    var taken := AllocateExtends(blockSize, s, r);
    var s2 := Allocate(blockSize, s, r).value;
    TablesAtPut(s, s2, r.id, TableOf(s, r.id) + taken, GPU, CPU);
    assert TablesAt(s, CPU) - {r.id} == TablesAt(s, CPU);
    TableGrows(s, s2, GPU, maxGpu, r.id, taken);
  }

  lemma FreePartitioned(s: BlockState, id: int, maxGpu: nat, maxCpu: nat)
    requires Partitioned(s, maxGpu, maxCpu) && FreeBlocks(s, id).Ok?
    ensures Partitioned(FreeBlocks(s, id).value, maxGpu, maxCpu)
  {
    var s1 := FreeBlocks(s, id).value;
    var loc := s.location[id];
    assert TablesAt(s1, loc) == TablesAt(s, loc) - {id};
    var other := if loc.GPU? then CPU else GPU;
    assert TablesAt(s1, other) == TablesAt(s, other);
    assert multiset(s.PoolAt(loc).free + s.table[id]) == multiset(s.PoolAt(loc).free) + multiset(s.table[id]);
    TableReturned(s, s1, loc, if loc.GPU? then maxGpu else maxCpu, id);
  }

  lemma SwapOnePartitioned(s: BlockState, id: int, isSwapIn: bool, maxGpu: nat, maxCpu: nat)
    requires Partitioned(s, maxGpu, maxCpu) && SwapOne(s, id, isSwapIn).Ok?
    ensures Partitioned(SwapOne(s, id, isSwapIn).value.0, maxGpu, maxCpu)
  {
    var src, dst, held := Source(isSwapIn), Target(isSwapIn), s.table[id];
    GetFreeBlocksSpec(s, |held|, dst);
    var (s1, taken) := GetFreeBlocks(s, |held|, dst).value;
    var s2 := SwapOne(s, id, isSwapIn).value.0;
    assert s2.PoolAt(src) == Pool(s.PoolAt(src).free, s.PoolAt(src).swapping + held);
    assert s2.PoolAt(dst) == s1.PoolAt(dst);
    SwapSourceShrinks(s, s2, src, if src.GPU? then maxGpu else maxCpu, id, taken, dst);
    SwapTargetGrows(s, s2, dst, if dst.GPU? then maxGpu else maxCpu, id, taken);
  }

  lemma SwapSourceShrinks(s: BlockState, s2: BlockState, src: Location, max: nat, id: int,
                          taken: seq<nat>, dst: Location)
    requires PoolOk(s, src, max) && s.At(id, src) && dst != src
    requires s2.PoolAt(src) == Pool(s.PoolAt(src).free, s.PoolAt(src).swapping + s.table[id])
    requires s2.table == s.table[id := taken] && s2.location == s.location[id := dst]
    ensures PoolOk(s2, src, max)
  {
    assert TablesAt(s2, src) == TablesAt(s, src) - {id};
    assert multiset(s.PoolAt(src).swapping + s.table[id])
        == multiset(s.PoolAt(src).swapping) + multiset(s.table[id]);
    TableReturned(s, s2, src, max, id);
  }

  lemma SwapTargetGrows(s: BlockState, s2: BlockState, dst: Location, max: nat, id: int, taken: seq<nat>)
    requires PoolOk(s, dst, max)
    requires id in s.table && !s.At(id, dst)
    requires Held(s.PoolAt(dst)) == Held(s2.PoolAt(dst)) + multiset(taken)
    requires s2.table == s.table[id := taken] && s2.location == s.location[id := dst]
    ensures PoolOk(s2, dst, max)
  {
    var m := TablesAt(s, dst);
    assert TablesAt(s2, dst) == m[id := taken] by {
      TablesAtPut(s, s2, id, taken, dst, if dst.GPU? then CPU else GPU);
    }
    BlocksOfUpdate(m, id, taken);
    assert m - {id} == m;
    Rebalance(Held(s.PoolAt(dst)), Held(s2.PoolAt(dst)), multiset(taken), multiset{}, BlocksOf(m));
  }

  lemma {:induction false} SwapLoopPartitioned(s: BlockState, ids: seq<int>, isSwapIn: bool,
      source: seq<nat>, target: seq<nat>, maxGpu: nat, maxCpu: nat)
    requires Partitioned(s, maxGpu, maxCpu) && SwapLoop(s, ids, isSwapIn, source, target).Ok?
    ensures Partitioned(SwapLoop(s, ids, isSwapIn, source, target).value.state, maxGpu, maxCpu)
    decreases |ids|
  {
    if ids != [] {
      SwapOnePartitioned(s, ids[0], isSwapIn, maxGpu, maxCpu);
      var (s1, blocks) := SwapOne(s, ids[0], isSwapIn).value;
      SwapLoopPartitioned(s1, ids[1..], isSwapIn, source + s.table[ids[0]], target + blocks, maxGpu, maxCpu);
    }
  }

  lemma SwapPartitioned(s: BlockState, ids: seq<int>, isSwapIn: bool, maxGpu: nat, maxCpu: nat)
    requires Partitioned(s, maxGpu, maxCpu) && SwapRequests(s, ids, isSwapIn).Ok?
    ensures Partitioned(SwapRequests(s, ids, isSwapIn).value, maxGpu, maxCpu)
  {
    SwapLoopPartitioned(s, ids, isSwapIn, [], [], maxGpu, maxCpu);
    var r := SwapLoop(s, ids, isSwapIn, [], []).value.state;
    var t := SwapRequests(s, ids, isSwapIn).value;
    assert TablesAt(t, GPU) == TablesAt(r, GPU) && TablesAt(t, CPU) == TablesAt(r, CPU);
  }

  /** What the partition means for two requests on one device, and for the free blocks. */
  lemma PartitionSeparates(s: BlockState, loc: Location, max: nat, id: int, b: nat)
    requires PoolOk(s, loc, max) && s.At(id, loc) && b in s.table[id]
    ensures b < max
    ensures b !in s.PoolAt(loc).free && b !in s.PoolAt(loc).swapping
    ensures multiset(s.table[id])[b] == 1
    ensures forall other :: other != id && s.At(other, loc) ==> b !in s.table[other]
  {
    var m := TablesAt(s, loc);
    UniverseOnce(max, b);
    BlocksOfRemove(m, id);
    forall other | other != id && s.At(other, loc) ensures b !in s.table[other] {
      BlocksOfRemove(m - {id}, other);
      assert multiset((m - {id})[other])[b] <= BlocksOf(m - {id})[b];
    }
  }

  /** When nothing is allocated every block of the device is available again. */
  lemma EmptyMeansAllAvailable(s: BlockState, maxGpu: nat, maxCpu: nat)
    requires Partitioned(s, maxGpu, maxCpu) && s.table == map[]
    ensures s.gpu.Avail() == maxGpu && s.cpu.Avail() == maxCpu
  {
    assert TablesAt(s, GPU) == map[] && TablesAt(s, CPU) == map[];
    assert |Held(s.gpu)| == s.gpu.Avail() && |Held(s.cpu)| == s.cpu.Avail();
    assert |Universe(maxGpu)| == maxGpu && |Universe(maxCpu)| == maxCpu;
  }

  // ---------------------------------------------------------------- what one swap does

  /** A swap moves a request's whole table to the other device, block for block. */
  ghost predicate Moves(s: BlockState, s2: BlockState, id: int, isSwapIn: bool) {
    && s.At(id, Source(isSwapIn))
    && s2.At(id, Target(isSwapIn))
    && s2.table == s.table[id := s2.table[id]]
    && |s2.table[id]| == |s.table[id]|
    && s2.location == s.location[id := Target(isSwapIn)]
    && s2.PoolAt(Source(isSwapIn)).Avail() == s.PoolAt(Source(isSwapIn)).Avail() + |s.table[id]|
    && s2.PoolAt(Target(isSwapIn)).Avail() == s.PoolAt(Target(isSwapIn)).Avail() - |s.table[id]|
  }

  lemma SwapSingle(s: BlockState, id: int, isSwapIn: bool)
    requires s.At(id, Source(isSwapIn))
    ensures SwapRequests(s, [id], isSwapIn).Ok?
        <==> |s.table[id]| <= s.PoolAt(Target(isSwapIn)).Avail()
    ensures SwapRequests(s, [id], isSwapIn).Err?
        ==> SwapRequests(s, [id], isSwapIn).error == if isSwapIn then OutOfGpuBlocks else OutOfCpuBlocks
    ensures SwapRequests(s, [id], isSwapIn).Ok?
        ==> Moves(s, SwapRequests(s, [id], isSwapIn).value, id, isSwapIn)
  {
    var n := |s.table[id]|;
    if n <= s.PoolAt(Target(isSwapIn)).Avail() {
      GetFreeBlocksSpec(s, n, Target(isSwapIn));
      var (s1, blocks) := SwapOne(s, id, isSwapIn).value;
      assert [id][1..] == [];
      assert SwapLoop(s, [id], isSwapIn, [], []) == Ok(SwapResult(s1, [] + s.table[id], [] + blocks));
    }
  }
}
