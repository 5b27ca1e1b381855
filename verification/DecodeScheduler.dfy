/** The decoding-stage FCFS scheduler as a function of its state
    (distserve/decoding_stage_scheduler.py). */
module DecodeScheduler {
  import opened Common
  import opened Sums
  import opened Quotients
  import opened Requests
  import opened Blocks

  datatype Config = Config(blockSize: nat, maxGpu: nat, maxCpu: nat,
                           maxBatchSize: int, maxTokensPerBatch: int,
                           pp: nat, waitingThreshold: real)
  {
    predicate Valid() { blockSize >= 1 && pp >= 1 }
  }

  /** An element of the bridge queue: a prefilled request whose blocks are still on the context side. */
  datatype Mig = Mig(req: Req, blockIndexes: seq<nat>)

  datatype Sched = Sched(batches: seq<Batch>, cur: int,
                         waiting: seq<Req>, swapped: seq<Req>, unaccepted: seq<Mig>,
                         bm: BlockState)

  /** (i + 1) % pp for an index the scheduler can hold. */
  function Next(i: int, pp: nat): int { if i + 1 == pp then 0 else i + 1 }

  lemma NextIsModular(i: int, pp: nat)
    requires pp >= 1 && -1 <= i < pp
    ensures (i + 1) % pp == Next(i, pp) && 0 <= Next(i, pp) < pp
  {
    if i + 1 < pp {
      QuotientUnique(i + 1, pp, 0, i + 1);
    } else {
      QuotientUnique(pp, pp, 1, 0);
    }
  }

  predicate Shape(c: Config, s: Sched) {
    c.Valid() && |s.batches| == c.pp && -1 <= s.cur < c.pp
  }

  predicate Running(c: Config, s: Sched) { Shape(c, s) && s.cur >= 0 }

  // ---------------------------------------------------------------- get_next_batch

  function TotalNeed(c: Config, s: Sched): nat
    requires c.Valid()
  {
    SumBatches(NeedF(c.blockSize), s.batches) + Sum(InNeedF(c.blockSize), s.waiting)
  }

  predicate Overflow(c: Config, s: Sched)
    requires c.Valid()
  {
    TotalNeed(c, s) > c.maxGpu
  }

  function Current(c: Config, s: Sched): seq<Req>
    requires Running(c, s)
  {
    s.batches[s.cur].requests
  }

  function WithCurrent(c: Config, s: Sched, rs: seq<Req>): seq<Batch>
    requires Running(c, s)
  {
    s.batches[s.cur := s.batches[s.cur].(requests := rs)]
  }

  function SwapOutLast(c: Config, s: Sched): (res: Result<Sched>)
    requires Running(c, s)
    ensures res.Ok? ==> Running(c, res.value)
                        && |Current(c, s)| > 0
                        && |Current(c, res.value)| == |Current(c, s)| - 1
  {
    var rs := Current(c, s);
    if rs == [] then Err(PopFromEmptyBatch)
    else
      var r := rs[|rs| - 1];
      var bm :- SwapRequests(s.bm, [r.id], false);
      Ok(s.(batches := WithCurrent(c, s, rs[..|rs| - 1]), swapped := s.swapped + [r], bm := bm))
  }

  function SwapOutLoop(c: Config, s: Sched): (res: Result<Sched>)
    requires Running(c, s)
    ensures res.Ok? ==> Running(c, res.value)
    decreases |Current(c, s)|
  {
    if !Overflow(c, s) then Ok(s)
    else
      var s1 :- SwapOutLast(c, s);
      SwapOutLoop(c, s1)
  }

  predicate CheckAdd(c: Config, s: Sched, r: Req)
    requires Running(c, s)
  {
    && |Current(c, s)| < c.maxBatchSize
    && Sum(NumInputTokensF(), Current(c, s)) + NumInputTokens(r) <= c.maxTokensPerBatch
    && TotalNeed(c, s) + Need(r, c.blockSize) <= c.maxGpu
  }

  function AddToCurrent(c: Config, s: Sched, r: Req): (res: Result<Sched>)
    requires Running(c, s)
  {
    if r.id in Ids(Current(c, s)) then Err(DuplicateInBatch)
    else Ok(s.(batches := WithCurrent(c, s, Current(c, s) + [r])))
  }

  function SwapInHead(c: Config, s: Sched): (res: Result<Sched>)
    requires Running(c, s) && s.swapped != []
    ensures res.Ok? ==> Running(c, res.value)
                        && res.value.swapped == s.swapped[1..] && res.value.waiting == s.waiting
  {
    var bm :- SwapRequests(s.bm, [s.swapped[0].id], true);
    var s1 :- AddToCurrent(c, s.(bm := bm), s.swapped[0]);
    Ok(s1.(swapped := s.swapped[1..]))
  }

  function AdmitHead(c: Config, s: Sched): (res: Result<Sched>)
    requires Running(c, s) && s.waiting != []
    ensures res.Ok? ==> Running(c, res.value)
                        && res.value.swapped == s.swapped && res.value.waiting == s.waiting[1..]
  {
    var s1 :- AddToCurrent(c, s, s.waiting[0]);
    Ok(s1.(waiting := s.waiting[1..]))
  }

  function AdmitLoop(c: Config, s: Sched): (res: Result<Sched>)
    requires Running(c, s)
    ensures res.Ok? ==> Running(c, res.value)
    decreases |s.swapped| + |s.waiting|
  {
    if s.swapped != [] then
      if CheckAdd(c, s, s.swapped[0]) then
        var s1 :- SwapInHead(c, s);
        AdmitLoop(c, s1)
      else Ok(s)
    else if s.waiting != [] then
      if CheckAdd(c, s, s.waiting[0]) then
        var s1 :- AdmitHead(c, s);
        AdmitLoop(c, s1)
      else Ok(s)
    else Ok(s)
  }

  function Rotate(c: Config, s: Sched): (s1: Sched)
    requires Shape(c, s)
    ensures Running(c, s1)
  {
    s.(cur := Next(s.cur, c.pp))
  }

  function GetNextBatch(c: Config, s: Sched): (res: Result<Sched>)
    requires Shape(c, s)
    ensures res.Ok? ==> Running(c, res.value)
  {
    var s1 :- SwapOutLoop(c, Rotate(c, s));
    AdmitLoop(c, s1)
  }

  // ---------------------------------------------------------------- post_process

  predicate ShouldAccept(c: Config, s: Sched, m: Mig)
    requires c.Valid()
  {
    && Sum(InNeedF(c.blockSize), s.waiting) as real < c.maxGpu as real * c.waitingThreshold
    && InNeed(m.req, c.blockSize) <= s.bm.gpu.Avail()
  }

  // ---------------------------------------------------------------- the scheduler's invariant

  /** Requests with GPU blocks: the batches, the waiting queue and the one being migrated in. */
  function GpuSum(f: Req -> nat, s: Sched, mig: seq<Req>): nat {
    SumBatches(f, s.batches) + Sum(f, s.waiting) + Sum(f, mig)
  }

  function AllSum(f: Req -> nat, s: Sched, mig: seq<Req>): nat {
    GpuSum(f, s, mig) + Sum(f, s.swapped)
  }

  function HeldF(table: map<int, seq<nat>>): Req -> nat {
    (r: Req) => if r.id in table then |table[r.id]| else 0
  }

  /** Each id is in exactly one place if the allocator knows it, and nowhere otherwise. */
  ghost predicate Counted(s: Sched, mig: seq<Req>) {
    && s.bm.table.Keys == s.bm.location.Keys
    && forall id {:trigger IdF(id)} ::
         AllSum(IdF(id), s, mig) == if id in s.bm.table then 1 else 0
  }

  /** A request the decoding stage may still extend: it has a token and room for another. */
  predicate Live(r: Req) {
    !r.finished && 1 <= |r.output| < r.sampling.maxTokens
  }

  predicate Fits(c: Config, bm: BlockState, r: Req)
    requires c.Valid()
  {
    Live(r) && bm.OnGpu(r.id) && |bm.table[r.id]| <= Need(r, c.blockSize)
  }

  predicate Exact(c: Config, bm: BlockState, r: Req)
    requires c.Valid()
  {
    Live(r) && bm.OnGpu(r.id) && |bm.table[r.id]| == Need(r, c.blockSize)
  }

  predicate PromptSized(c: Config, bm: BlockState, r: Req)
    requires c.Valid()
  {
    Live(r) && bm.OnGpu(r.id) && |bm.table[r.id]| == InNeed(r, c.blockSize)
  }

  predicate Evicted(c: Config, bm: BlockState, r: Req)
    requires c.Valid()
  {
    Live(r) && bm.OnCpu(r.id) && |bm.table[r.id]| <= Need(r, c.blockSize)
  }

  predicate BatchPlaced(c: Config, bm: BlockState, rs: seq<Req>, exact: bool)
    requires c.Valid()
  {
    forall r :: r in rs ==> Fits(c, bm, r) && (exact ==> Exact(c, bm, r))
  }

  /** Batches other than `open` hold exactly the blocks they need, `open` at most that many;
      waiting and migrating requests hold the blocks of their prompt; the rest is on the CPU. */
  ghost predicate Placed(c: Config, s: Sched, mig: seq<Req>, open: int)
    requires c.Valid()
  {
    && (forall j :: 0 <= j < |s.batches| ==> BatchPlaced(c, s.bm, s.batches[j].requests, j != open))
    && (forall r :: r in s.waiting ==> PromptSized(c, s.bm, r))
    && (forall r :: r in mig ==> PromptSized(c, s.bm, r))
    && (forall r :: r in s.swapped ==> Evicted(c, s.bm, r))
  }

  /** The blocks not available are exactly those the queues account for. */
  ghost predicate Balanced(c: Config, s: Sched, mig: seq<Req>) {
    s.bm.gpu.Avail() + GpuSum(HeldF(s.bm.table), s, mig) == c.maxGpu
  }

  ghost predicate SchedInv(c: Config, s: Sched, mig: seq<Req>, open: int) {
    Shape(c, s) && Counted(s, mig) && Placed(c, s, mig, open) && Balanced(c, s, mig)
  }

  // ---------------------------------------------------------------- sums of held blocks

  ghost predicate AgreeExcept(t: map<int, seq<nat>>, u: map<int, seq<nat>>, id: int) {
    forall r: Req {:trigger HeldF(t)(r)} {:trigger HeldF(u)(r)} :: r.id != id ==> HeldF(t)(r) == HeldF(u)(r)
  }

  lemma HeldUntouched(t: map<int, seq<nat>>, u: map<int, seq<nat>>, id: int, rs: seq<Req>)
    requires AgreeExcept(t, u, id) && Sum(IdF(id), rs) == 0
    ensures Sum(HeldF(t), rs) == Sum(HeldF(u), rs)
  {
    AbsentId(id, rs);
    SumAgree(HeldF(t), HeldF(u), rs);
  }

  lemma HeldUntouchedInBatches(t: map<int, seq<nat>>, u: map<int, seq<nat>>, id: int, batches: seq<Batch>)
    requires AgreeExcept(t, u, id) && SumBatches(IdF(id), batches) == 0
    ensures SumBatches(HeldF(t), batches) == SumBatches(HeldF(u), batches)
  {
    AbsentIdInBatches(id, batches);
    SumBatchesAgree(HeldF(t), HeldF(u), batches);
  }

  /** The queues without request `id` hold what they held before its table changed. */
  lemma GpuHeldUntouched(s: Sched, u: map<int, seq<nat>>, id: int, mig: seq<Req>)
    requires AgreeExcept(s.bm.table, u, id) && GpuSum(IdF(id), s, mig) == 0
    ensures GpuSum(HeldF(s.bm.table), s, mig) == GpuSum(HeldF(u), s, mig)
  {
    HeldUntouchedInBatches(s.bm.table, u, id, s.batches);
    HeldUntouched(s.bm.table, u, id, s.waiting);
    HeldUntouched(s.bm.table, u, id, mig);
  }

  /** Requests other than `id` keep their place when only `id` changes in the allocator. */
  ghost predicate OnlyChanges(bm: BlockState, bm2: BlockState, id: int) {
    && (forall x :: x != id ==> (x in bm.table <==> x in bm2.table) && (x in bm.location <==> x in bm2.location))
    && (forall x :: x != id && x in bm.table ==> bm2.table[x] == bm.table[x])
    && (forall x :: x != id && x in bm.location ==> bm2.location[x] == bm.location[x])
  }

  lemma OnlyChangesAgrees(bm: BlockState, bm2: BlockState, id: int)
    requires OnlyChanges(bm, bm2, id)
    ensures AgreeExcept(bm.table, bm2.table, id)
  {
  }

  lemma PlacedUntouched(c: Config, s: Sched, bm2: BlockState, id: int, mig: seq<Req>, open: int)
    requires c.Valid() && Placed(c, s, mig, open)
    requires OnlyChanges(s.bm, bm2, id) && AllSum(IdF(id), s, mig) == 0
    ensures Placed(c, s.(bm := bm2), mig, open)
  {
    AbsentIdInBatches(id, s.batches);
    AbsentId(id, s.waiting);
    AbsentId(id, mig);
    AbsentId(id, s.swapped);
  }

  /** A step that only touches the current batch and the blocks of its own requests: the other
      batches keep their requests and block tables, and nobody enters or leaves the allocator. */
  ghost predicate Undisturbed(c: Config, s: Sched, s1: Sched)
    requires Running(c, s)
  {
    && |s1.batches| == |s.batches| && s1.cur == s.cur && s1.unaccepted == s.unaccepted
    && s1.batches[s.cur].started == s.batches[s.cur].started
    && s1.bm.table.Keys == s.bm.table.Keys
    && (forall j :: 0 <= j < |s.batches| && j != s.cur ==>
          s1.batches[j] == s.batches[j] && SameTables(s.bm, s1.bm, s.batches[j].requests))
  }

  ghost predicate SameTables(bm: BlockState, bm1: BlockState, rs: seq<Req>) {
    forall r :: r in rs ==> r.id in bm.table && r.id in bm1.table && bm1.table[r.id] == bm.table[r.id]
  }

  lemma OthersUndisturbed(c: Config, s: Sched, s1: Sched, mig: seq<Req>, open: int, id: int)
    requires Running(c, s) && Placed(c, s, mig, open)
    requires |s1.batches| == |s.batches| && s1.cur == s.cur && s1.unaccepted == s.unaccepted
    requires s1.batches[s.cur].started == s.batches[s.cur].started
    requires s1.bm.table.Keys == s.bm.table.Keys && OnlyChanges(s.bm, s1.bm, id)
    requires forall j :: 0 <= j < |s.batches| && j != s.cur ==> s1.batches[j] == s.batches[j]
    requires forall j, r :: 0 <= j < |s.batches| && j != s.cur && r in s.batches[j].requests ==> r.id != id
    ensures Undisturbed(c, s, s1)
  {
    forall j | 0 <= j < |s.batches| && j != s.cur ensures SameTables(s.bm, s1.bm, s.batches[j].requests) {
      assert BatchPlaced(c, s.bm, s.batches[j].requests, j != open);
    }
  }

  lemma UndisturbedTransitive(c: Config, s: Sched, s1: Sched, s2: Sched)
    requires Running(c, s) && Running(c, s1) && Undisturbed(c, s, s1) && Undisturbed(c, s1, s2)
    ensures Undisturbed(c, s, s2)
  {
    forall j | 0 <= j < |s.batches| && j != s.cur ensures SameTables(s.bm, s2.bm, s.batches[j].requests) {
      assert SameTables(s.bm, s1.bm, s.batches[j].requests);
      assert SameTables(s1.bm, s2.bm, s1.batches[j].requests);
    }
  }

  // ---------------------------------------------------------------- swapping out

  /** If the need overflows the GPU, the current batch has a request to give up: every other
      queue holds exactly what it needs, so an empty current batch would fit. */
  lemma OverflowMeansNonEmpty(c: Config, s: Sched)
    requires Running(c, s) && SchedInv(c, s, [], s.cur) && Overflow(c, s)
    ensures Current(c, s) != []
  {
    if Current(c, s) == [] {
      forall j, r | 0 <= j < |s.batches| && r in s.batches[j].requests
        ensures NeedF(c.blockSize)(r) == HeldF(s.bm.table)(r)
      {
        assert BatchPlaced(c, s.bm, s.batches[j].requests, j != s.cur);
      }
      SumBatchesAgree(NeedF(c.blockSize), HeldF(s.bm.table), s.batches);
      SumAgree(InNeedF(c.blockSize), HeldF(s.bm.table), s.waiting);
    }
  }

  /** The state without the last request of the current batch. */
  function Popped(c: Config, s: Sched): Sched
    requires Running(c, s) && Current(c, s) != []
  {
    s.(batches := WithCurrent(c, s, Current(c, s)[..|Current(c, s)| - 1]))
  }

  lemma PoppedSums(c: Config, s: Sched, f: Req -> nat, mig: seq<Req>)
    requires Running(c, s) && Current(c, s) != []
    ensures GpuSum(f, s, mig) == GpuSum(f, Popped(c, s), mig) + f(Current(c, s)[|Current(c, s)| - 1])
    ensures AllSum(f, s, mig) == AllSum(f, Popped(c, s), mig) + f(Current(c, s)[|Current(c, s)| - 1])
  {
    SumLast(f, Current(c, s));
    SumBatchesUpdate(f, s.batches, s.cur, Popped(c, s).batches[s.cur]);
  }

  lemma PoppedPlaced(c: Config, s: Sched, open: int)
    requires Running(c, s) && Current(c, s) != [] && Placed(c, s, [], open)
    ensures Placed(c, Popped(c, s), [], open)
  {
    var p := Popped(c, s);
    forall j | 0 <= j < |p.batches| ensures BatchPlaced(c, p.bm, p.batches[j].requests, j != open) {
      assert BatchPlaced(c, s.bm, s.batches[j].requests, j != open);
    }
  }

  /** The state after the last request r of the current batch moved to the swapped queue. */
  ghost predicate SwappedOut(c: Config, s: Sched, s1: Sched)
    requires Running(c, s) && Current(c, s) != []
  {
    var r := Current(c, s)[|Current(c, s)| - 1];
    s1 == Popped(c, s).(swapped := s.swapped + [r], bm := s1.bm) && Moves(s.bm, s1.bm, r.id, false)
  }

  lemma SwapOutCounted(c: Config, s: Sched, s1: Sched)
    requires Running(c, s) && Counted(s, []) && Current(c, s) != [] && SwappedOut(c, s, s1)
    ensures Counted(s1, [])
    ensures AllSum(IdF(Current(c, s)[|Current(c, s)| - 1].id), Popped(c, s), []) == 0
  {
    var r := Current(c, s)[|Current(c, s)| - 1];
    forall id ensures AllSum(IdF(id), s1, []) == AllSum(IdF(id), s, []) {
      PoppedSums(c, s, IdF(id), []);
      SumSnoc(IdF(id), s.swapped, r);
    }
    PoppedSums(c, s, IdF(r.id), []);
    assert AllSum(IdF(r.id), s, []) == 1;
  }

  lemma MovesOnlyChanges(bm: BlockState, bm2: BlockState, id: int, isSwapIn: bool)
    requires Moves(bm, bm2, id, isSwapIn)
    ensures OnlyChanges(bm, bm2, id) && AgreeExcept(bm.table, bm2.table, id)
  {
  }

  /** Who swaps out and how: only the CPU pool can refuse. */
  lemma SwapOutHappens(c: Config, s: Sched)
    requires Running(c, s) && SchedInv(c, s, [], s.cur) && Overflow(c, s)
    ensures Current(c, s) != []
    ensures SwapOutLast(c, s).Err? ==> SwapOutLast(c, s).error == OutOfCpuBlocks
    ensures SwapOutLast(c, s).Ok? ==> SwappedOut(c, s, SwapOutLast(c, s).value)
  {
    OverflowMeansNonEmpty(c, s);
    var r := Current(c, s)[|Current(c, s)| - 1];
    assert BatchPlaced(c, s.bm, Current(c, s), false);
    assert r in Current(c, s);
    SwapSingle(s.bm, r.id, false);
  }

  lemma SwapOutBalanced(c: Config, s: Sched, s1: Sched)
    requires Running(c, s) && Current(c, s) != [] && SwappedOut(c, s, s1) && Balanced(c, s, [])
    requires AllSum(IdF(Current(c, s)[|Current(c, s)| - 1].id), Popped(c, s), []) == 0
    ensures Balanced(c, s1, [])
  {
    var r := Current(c, s)[|Current(c, s)| - 1];
    MovesOnlyChanges(s.bm, s1.bm, r.id, false);
    GpuHeldUntouched(Popped(c, s), s1.bm.table, r.id, []);
    PoppedSums(c, s, HeldF(s.bm.table), []);
  }

  lemma SwapOutPlaced(c: Config, s: Sched, s1: Sched)
    requires Running(c, s) && Current(c, s) != [] && SwappedOut(c, s, s1) && Placed(c, s, [], s.cur)
    requires AllSum(IdF(Current(c, s)[|Current(c, s)| - 1].id), Popped(c, s), []) == 0
    ensures Placed(c, s1, [], s.cur)
  {
    var r := Current(c, s)[|Current(c, s)| - 1];
    assert BatchPlaced(c, s.bm, Current(c, s), false);
    assert r in Current(c, s);
    MovesOnlyChanges(s.bm, s1.bm, r.id, false);
    PoppedPlaced(c, s, s.cur);
    PlacedUntouched(c, Popped(c, s), s1.bm, r.id, [], s.cur);
  }

  lemma SwapOutUndisturbed(c: Config, s: Sched, s1: Sched)
    requires Running(c, s) && Current(c, s) != [] && SwappedOut(c, s, s1) && Placed(c, s, [], s.cur)
    requires AllSum(IdF(Current(c, s)[|Current(c, s)| - 1].id), Popped(c, s), []) == 0
    ensures Undisturbed(c, s, s1)
  {
    var r := Current(c, s)[|Current(c, s)| - 1];
    MovesOnlyChanges(s.bm, s1.bm, r.id, false);
    AbsentIdInBatches(r.id, Popped(c, s).batches);
    assert forall j :: 0 <= j < |s.batches| && j != s.cur ==> Popped(c, s).batches[j] == s.batches[j];
    OthersUndisturbed(c, s, s1, [], s.cur, r.id);
  }

  lemma SwapOutStep(c: Config, s: Sched)
    requires Running(c, s) && SchedInv(c, s, [], s.cur) && Overflow(c, s)
    ensures SwapOutLast(c, s).Err? ==> SwapOutLast(c, s).error == OutOfCpuBlocks
    ensures SwapOutLast(c, s).Ok? ==>
              var s1 := SwapOutLast(c, s).value;
              s1.cur == s.cur && SchedInv(c, s1, [], s.cur) && Undisturbed(c, s, s1)
  {
    SwapOutHappens(c, s);
    if SwapOutLast(c, s).Ok? {
      var s1 := SwapOutLast(c, s).value;
      SwapOutCounted(c, s, s1);
      SwapOutPlaced(c, s, s1);
      SwapOutBalanced(c, s, s1);
      SwapOutUndisturbed(c, s, s1);
    }
  }

  lemma {:induction false} SwapOutLoopSafe(c: Config, s: Sched)
    requires Running(c, s) && SchedInv(c, s, [], s.cur)
    ensures SwapOutLoop(c, s).Err? ==> SwapOutLoop(c, s).error == OutOfCpuBlocks
    ensures SwapOutLoop(c, s).Ok? ==>
              var s1 := SwapOutLoop(c, s).value;
              s1.cur == s.cur && SchedInv(c, s1, [], s.cur) && !Overflow(c, s1) && Undisturbed(c, s, s1)
    decreases |Current(c, s)|
  {
    if Overflow(c, s) {
      SwapOutStep(c, s);
      if SwapOutLast(c, s).Ok? {
        var s1 := SwapOutLast(c, s).value;
        SwapOutLoopSafe(c, s1);
        if SwapOutLoop(c, s1).Ok? {
          UndisturbedTransitive(c, s, s1, SwapOutLoop(c, s1).value);
        }
      }
    } else {
      assert forall j :: 0 <= j < |s.batches| && j != s.cur ==> BatchPlaced(c, s.bm, s.batches[j].requests, true);
    }
  }

  // ---------------------------------------------------------------- admitting

  /** Nothing holds more than it needs, so the blocks in use never exceed the need. */
  lemma HeldBelowNeed(c: Config, s: Sched, open: int)
    requires Shape(c, s) && Placed(c, s, [], open)
    ensures GpuSum(HeldF(s.bm.table), s, []) <= TotalNeed(c, s)
  {
    forall j, r | 0 <= j < |s.batches| && r in s.batches[j].requests
      ensures HeldF(s.bm.table)(r) <= NeedF(c.blockSize)(r)
    {
      assert BatchPlaced(c, s.bm, s.batches[j].requests, j != open);
    }
    SumBatchesBelow(HeldF(s.bm.table), NeedF(c.blockSize), s.batches);
    SumBelow(HeldF(s.bm.table), InNeedF(c.blockSize), s.waiting);
  }

  function Pushed(c: Config, s: Sched, r: Req): Sched
    requires Running(c, s)
  {
    s.(batches := WithCurrent(c, s, Current(c, s) + [r]))
  }

  lemma PushedSums(c: Config, s: Sched, r: Req, f: Req -> nat, mig: seq<Req>)
    requires Running(c, s)
    ensures GpuSum(f, Pushed(c, s, r), mig) == GpuSum(f, s, mig) + f(r)
    ensures AllSum(f, Pushed(c, s, r), mig) == AllSum(f, s, mig) + f(r)
  {
    SumSnoc(f, Current(c, s), r);
    SumBatchesUpdate(f, s.batches, s.cur, Pushed(c, s, r).batches[s.cur]);
  }

  lemma PushedPlaced(c: Config, s: Sched, r: Req)
    requires Running(c, s) && Placed(c, s, [], s.cur) && Fits(c, s.bm, r)
    ensures Placed(c, Pushed(c, s, r), [], s.cur)
  {
    var p := Pushed(c, s, r);
    forall j | 0 <= j < |p.batches| ensures BatchPlaced(c, p.bm, p.batches[j].requests, j != s.cur) {
      assert BatchPlaced(c, s.bm, s.batches[j].requests, j != s.cur);
    }
  }

  /** A request that sits in another queue cannot already be in the current batch. */
  lemma NotInCurrent(c: Config, s: Sched, id: int)
    requires Running(c, s) && SumBatches(IdF(id), s.batches) == 0
    ensures id !in Ids(Current(c, s))
  {
    SumBatchesMember(IdF(id), s.batches, s.cur);
    AbsentId(id, Current(c, s));
  }

  /** The queues without the head of the swapped queue. */
  function Unqueued(s: Sched): Sched
    requires s.swapped != []
  {
    s.(swapped := s.swapped[1..])
  }

  /** The state after the head of the swapped queue came back to the current batch. */
  ghost predicate SwappedIn(c: Config, s: Sched, s1: Sched)
    requires Running(c, s) && s.swapped != []
  {
    s1 == Pushed(c, Unqueued(s).(bm := s1.bm), s.swapped[0]) && Moves(s.bm, s1.bm, s.swapped[0].id, true)
  }

  lemma SwapInHappens(c: Config, s: Sched)
    requires Running(c, s) && SchedInv(c, s, [], s.cur)
    requires s.swapped != [] && CheckAdd(c, s, s.swapped[0])
    ensures SwapInHead(c, s).Ok? && SwappedIn(c, s, SwapInHead(c, s).value)
    ensures GpuSum(IdF(s.swapped[0].id), s, []) == 0 && AllSum(IdF(s.swapped[0].id), Unqueued(s), []) == 0
  {
    var r := s.swapped[0];
    assert r in s.swapped;
    HeldBelowNeed(c, s, s.cur);
    SwapSingle(s.bm, r.id, true);
    assert AllSum(IdF(r.id), s, []) == 1;
    NotInCurrent(c, s, r.id);
  }

  lemma SwapInCounted(c: Config, s: Sched, s1: Sched)
    requires Running(c, s) && s.swapped != [] && SwappedIn(c, s, s1) && Counted(s, [])
    ensures Counted(s1, [])
  {
    forall id ensures AllSum(IdF(id), s1, []) == AllSum(IdF(id), s, []) {
      PushedSums(c, Unqueued(s).(bm := s1.bm), s.swapped[0], IdF(id), []);
    }
  }

  lemma SwapInPlaced(c: Config, s: Sched, s1: Sched)
    requires Running(c, s) && s.swapped != [] && SwappedIn(c, s, s1) && Placed(c, s, [], s.cur)
    requires AllSum(IdF(s.swapped[0].id), Unqueued(s), []) == 0
    ensures Placed(c, s1, [], s.cur)
  {
    var r := s.swapped[0];
    assert r in s.swapped;
    MovesOnlyChanges(s.bm, s1.bm, r.id, true);
    PlacedUntouched(c, Unqueued(s), s1.bm, r.id, [], s.cur);
    PushedPlaced(c, Unqueued(s).(bm := s1.bm), r);
  }

  lemma SwapInBalanced(c: Config, s: Sched, s1: Sched)
    requires Running(c, s) && s.swapped != [] && SwappedIn(c, s, s1) && Balanced(c, s, [])
    requires GpuSum(IdF(s.swapped[0].id), s, []) == 0 && CheckAdd(c, s, s.swapped[0])
    ensures Balanced(c, s1, []) && !Overflow(c, s1)
  {
    var r := s.swapped[0];
    var u := Unqueued(s).(bm := s1.bm);
    MovesOnlyChanges(s.bm, s1.bm, r.id, true);
    GpuHeldUntouched(Unqueued(s), s1.bm.table, r.id, []);
    PushedSums(c, u, r, HeldF(s1.bm.table), []);
    PushedSums(c, u, r, NeedF(c.blockSize), []);
  }

  lemma SwapInStep(c: Config, s: Sched)
    requires Running(c, s) && SchedInv(c, s, [], s.cur)
    requires s.swapped != [] && CheckAdd(c, s, s.swapped[0])
    ensures SwapInHead(c, s).Ok?
    ensures var s1 := SwapInHead(c, s).value;
            s1.cur == s.cur && SchedInv(c, s1, [], s.cur) && !Overflow(c, s1) && Undisturbed(c, s, s1)
  {
    SwapInHappens(c, s);
    var s1 := SwapInHead(c, s).value;
    SwapInCounted(c, s, s1);
    SwapInPlaced(c, s, s1);
    SwapInBalanced(c, s, s1);
    SwapInUndisturbed(c, s, s1);
  }

  lemma SwapInUndisturbed(c: Config, s: Sched, s1: Sched)
    requires Running(c, s) && s.swapped != [] && SwappedIn(c, s, s1) && Placed(c, s, [], s.cur)
    requires GpuSum(IdF(s.swapped[0].id), s, []) == 0
    ensures Undisturbed(c, s, s1)
  {
    MovesOnlyChanges(s.bm, s1.bm, s.swapped[0].id, true);
    AbsentIdInBatches(s.swapped[0].id, s.batches);
    OthersUndisturbed(c, s, s1, [], s.cur, s.swapped[0].id);
  }

  lemma AdmitStep(c: Config, s: Sched)
    requires Running(c, s) && SchedInv(c, s, [], s.cur)
    requires s.waiting != [] && CheckAdd(c, s, s.waiting[0])
    ensures AdmitHead(c, s).Ok?
    ensures var s1 := AdmitHead(c, s).value;
            s1.cur == s.cur && SchedInv(c, s1, [], s.cur) && !Overflow(c, s1) && Undisturbed(c, s, s1)
  {
    var r := s.waiting[0];
    assert r in s.waiting;
    assert AllSum(IdF(r.id), s, []) == 1;
    NotInCurrent(c, s, r.id);
    var s1 := AdmitHead(c, s).value;
    var u := s.(waiting := s.waiting[1..]);
    assert s1 == Pushed(c, u, r);
    forall id ensures AllSum(IdF(id), s1, []) == AllSum(IdF(id), s, []) {
      PushedSums(c, u, r, IdF(id), []);
    }
    InNeedBelowNeed(r, c.blockSize);
    PushedPlaced(c, u, r);
    PushedSums(c, u, r, HeldF(s1.bm.table), []);
    PushedSums(c, u, r, NeedF(c.blockSize), []);
    AbsentIdInBatches(r.id, s.batches);
    OthersUndisturbed(c, s, s1, [], s.cur, r.id);
  }

  lemma {:induction false} AdmitLoopSafe(c: Config, s: Sched)
    requires Running(c, s) && SchedInv(c, s, [], s.cur) && !Overflow(c, s)
    ensures AdmitLoop(c, s).Ok?
    ensures var s1 := AdmitLoop(c, s).value;
            s1.cur == s.cur && SchedInv(c, s1, [], s.cur) && !Overflow(c, s1) && Undisturbed(c, s, s1)
    decreases |s.swapped| + |s.waiting|
  {
    if s.swapped != [] && CheckAdd(c, s, s.swapped[0]) {
      SwapInStep(c, s);
      var s1 := SwapInHead(c, s).value;
      AdmitLoopSafe(c, s1);
      UndisturbedTransitive(c, s, s1, AdmitLoop(c, s1).value);
    } else if s.swapped == [] && s.waiting != [] && CheckAdd(c, s, s.waiting[0]) {
      AdmitStep(c, s);
      var s1 := AdmitHead(c, s).value;
      AdmitLoopSafe(c, s1);
      UndisturbedTransitive(c, s, s1, AdmitLoop(c, s1).value);
    } else {
      assert forall j :: 0 <= j < |s.batches| && j != s.cur ==> BatchPlaced(c, s.bm, s.batches[j].requests, true);
    }
  }

  /** Choosing the next batch never raises except for want of CPU blocks, and afterwards the
      blocks every admitted request needs fit on the GPU together. */
  lemma GetNextBatchSafe(c: Config, s: Sched)
    requires Shape(c, s) && SchedInv(c, s, [], Next(s.cur, c.pp))
    ensures GetNextBatch(c, s).Err? ==> GetNextBatch(c, s).error == OutOfCpuBlocks
    ensures GetNextBatch(c, s).Ok? ==>
              var s1 := GetNextBatch(c, s).value;
              && s1.cur == Next(s.cur, c.pp) && SchedInv(c, s1, [], s1.cur) && !Overflow(c, s1)
              && Undisturbed(c, Rotate(c, s), s1)
  {
    var s0 := Rotate(c, s);
    assert SchedInv(c, s0, [], s0.cur) by {
      forall id ensures AllSum(IdF(id), s0, []) == AllSum(IdF(id), s, []) {
      }
    }
    SwapOutLoopSafe(c, s0);
    if SwapOutLoop(c, s0).Ok? {
      var s1 := SwapOutLoop(c, s0).value;
      AdmitLoopSafe(c, s1);
      UndisturbedTransitive(c, s0, s1, AdmitLoop(c, s1).value);
    }
  }

  // ---------------------------------------------------------------- growing the chosen batch

  /** The state without the i-th request of the current batch. */
  function Without(c: Config, s: Sched, i: nat): Sched
    requires Running(c, s) && i < |Current(c, s)|
  {
    s.(batches := WithCurrent(c, s, Current(c, s)[..i] + Current(c, s)[i + 1..]))
  }

  lemma WithoutSums(c: Config, s: Sched, i: nat, f: Req -> nat)
    requires Running(c, s) && i < |Current(c, s)|
    ensures GpuSum(f, s, []) == GpuSum(f, Without(c, s, i), []) + f(Current(c, s)[i])
    ensures AllSum(f, s, []) == AllSum(f, Without(c, s, i), []) + f(Current(c, s)[i])
  {
    var rs := Current(c, s);
    assert rs == rs[..i] + ([rs[i]] + rs[i + 1..]);
    SumAppend(f, rs[..i], [rs[i]] + rs[i + 1..]);
    SumAppend(f, rs[..i], rs[i + 1..]);
    SumBatchesUpdate(f, s.batches, s.cur, Without(c, s, i).batches[s.cur]);
  }

  lemma OtherIds(c: Config, s: Sched, i: nat)
    requires Running(c, s) && i < |Current(c, s)| && Counted(s, [])
    ensures AllSum(IdF(Current(c, s)[i].id), Without(c, s, i), []) == 0
    ensures forall k :: 0 <= k < |Current(c, s)| && k != i ==> Current(c, s)[k].id != Current(c, s)[i].id
  {
    var rs := Current(c, s);
    var id := rs[i].id;
    WithoutSums(c, s, i, IdF(id));
    assert AllSum(IdF(id), s, []) <= 1;
    SumBatchesMember(IdF(id), Without(c, s, i).batches, s.cur);
    AbsentId(id, Without(c, s, i).batches[s.cur].requests);
    forall k | 0 <= k < |rs| && k != i ensures rs[k].id != id {
      if k < i {
        assert rs[k] == (rs[..i] + rs[i + 1..])[k];
      } else {
        assert rs[k] == (rs[..i] + rs[i + 1..])[k - 1];
      }
    }
  }

  /** Changing the table of one request of the current batch. */
  lemma ChangeInCurrent(c: Config, s: Sched, i: nat, bm2: BlockState)
    requires Running(c, s) && i < |Current(c, s)| && Counted(s, []) && Placed(c, s, [], s.cur)
    requires OnlyChanges(s.bm, bm2, Current(c, s)[i].id) && Fits(c, bm2, Current(c, s)[i])
    ensures Placed(c, s.(bm := bm2), [], s.cur)
    ensures GpuSum(HeldF(bm2.table), s, [])
         == GpuSum(HeldF(s.bm.table), s, []) - HeldF(s.bm.table)(Current(c, s)[i]) + HeldF(bm2.table)(Current(c, s)[i])
  {
    var r := Current(c, s)[i];
    var w := Without(c, s, i);
    assert r in Current(c, s) && BatchPlaced(c, s.bm, Current(c, s), false);
    OtherIds(c, s, i);
    forall j | 0 <= j < |w.batches| ensures BatchPlaced(c, s.bm, w.batches[j].requests, j != s.cur) {
      assert BatchPlaced(c, s.bm, s.batches[j].requests, j != s.cur);
    }
    PlacedUntouched(c, w, bm2, r.id, [], s.cur);
    forall j | 0 <= j < |s.batches| ensures BatchPlaced(c, bm2, s.batches[j].requests, j != s.cur) {
      assert BatchPlaced(c, bm2, w.batches[j].requests, j != s.cur);
      if j == s.cur {
        CurrentFrom(c, s, i);
      }
    }
    OnlyChangesAgrees(s.bm, bm2, r.id);
    GpuHeldUntouched(w, bm2.table, r.id, []);
    WithoutSums(c, s, i, HeldF(s.bm.table));
    WithoutSums(c, s, i, HeldF(bm2.table));
  }

  lemma CurrentFrom(c: Config, s: Sched, i: nat)
    requires Running(c, s) && i < |Current(c, s)|
    ensures forall r :: r in Current(c, s) ==> r == Current(c, s)[i] || r in Without(c, s, i).batches[s.cur].requests
  {
    var rs := Current(c, s);
    assert rs == rs[..i] + ([rs[i]] + rs[i + 1..]);
  }

  lemma CountedKeepsKeys(s: Sched, bm2: BlockState)
    requires Counted(s, [])
    requires bm2.table.Keys == s.bm.table.Keys && bm2.location.Keys == s.bm.location.Keys
    ensures Counted(s.(bm := bm2), [])
  {
    forall id ensures AllSum(IdF(id), s.(bm := bm2), []) == if id in bm2.table then 1 else 0 {
      assert AllSum(IdF(id), s, []) == if id in s.bm.table then 1 else 0;
    }
  }

  /** While the need fits, a request of the current batch can grow to its need. */
  lemma RoomToGrow(c: Config, s: Sched, i: nat)
    requires Running(c, s) && i < |Current(c, s)| && SchedInv(c, s, [], s.cur) && !Overflow(c, s)
    ensures s.bm.OnGpu(Current(c, s)[i].id)
    ensures |s.bm.table[Current(c, s)[i].id]| + s.bm.gpu.Avail() >= Need(Current(c, s)[i], c.blockSize)
  {
    var r := Current(c, s)[i];
    assert r in Current(c, s) && BatchPlaced(c, s.bm, Current(c, s), false);
    var grown := s.bm.(table := s.bm.table[r.id := seq(Need(r, c.blockSize), _ => 0)]);
    ChangeInCurrent(c, s, i, grown);
    HeldBelowNeed(c, s.(bm := grown), s.cur);
    assert GpuSum(HeldF(grown.table), s.(bm := grown), []) == GpuSum(HeldF(grown.table), s, []);
  }

  /** The k-th request of the current batch grows to exactly its need. */
  lemma GrowHappens(c: Config, s: Sched, i: nat)
    requires Running(c, s) && i < |Current(c, s)| && SchedInv(c, s, [], s.cur) && !Overflow(c, s)
    ensures Allocate(c.blockSize, s.bm, Current(c, s)[i]).Ok?
    ensures var r, bm2 := Current(c, s)[i], Allocate(c.blockSize, s.bm, Current(c, s)[i]).value;
            && Exact(c, bm2, r) && OnlyChanges(s.bm, bm2, r.id)
            && bm2.table.Keys == s.bm.table.Keys && bm2.location.Keys == s.bm.location.Keys
            && bm2.gpu.Avail() + HeldF(bm2.table)(r) == s.bm.gpu.Avail() + HeldF(s.bm.table)(r)
  {
    var r := Current(c, s)[i];
    RoomToGrow(c, s, i);
    assert r in Current(c, s) && BatchPlaced(c, s.bm, Current(c, s), false);
    AllocateFails(c.blockSize, s.bm, r);
    var taken := AllocateExtends(c.blockSize, s.bm, r);
  }

  lemma GrowUndisturbed(c: Config, s: Sched, i: nat, bm2: BlockState)
    requires Running(c, s) && i < |Current(c, s)| && Counted(s, []) && Placed(c, s, [], s.cur)
    requires OnlyChanges(s.bm, bm2, Current(c, s)[i].id) && bm2.table.Keys == s.bm.table.Keys
    ensures Undisturbed(c, s, s.(bm := bm2))
  {
    OtherIds(c, s, i);
    AbsentIdInBatches(Current(c, s)[i].id, Without(c, s, i).batches);
    assert forall j :: 0 <= j < |s.batches| && j != s.cur ==> Without(c, s, i).batches[j] == s.batches[j];
    OthersUndisturbed(c, s, s.(bm := bm2), [], s.cur, Current(c, s)[i].id);
  }

  lemma GrowStep(c: Config, s: Sched, i: nat)
    requires Running(c, s) && i < |Current(c, s)| && SchedInv(c, s, [], s.cur) && !Overflow(c, s)
    ensures Allocate(c.blockSize, s.bm, Current(c, s)[i]).Ok?
    ensures var s1 := s.(bm := Allocate(c.blockSize, s.bm, Current(c, s)[i]).value);
            && SchedInv(c, s1, [], s.cur) && !Overflow(c, s1)
            && Exact(c, s1.bm, Current(c, s)[i])
            && OnlyChanges(s.bm, s1.bm, Current(c, s)[i].id)
            && Undisturbed(c, s, s1)
  {
    GrowHappens(c, s, i);
    var bm2 := Allocate(c.blockSize, s.bm, Current(c, s)[i]).value;
    ChangeInCurrent(c, s, i, bm2);
    CountedKeepsKeys(s, bm2);
    assert GpuSum(HeldF(bm2.table), s.(bm := bm2), []) == GpuSum(HeldF(bm2.table), s, []);
    GrowUndisturbed(c, s, i, bm2);
  }

  ghost predicate ExactUpTo(c: Config, s: Sched, i: nat)
    requires Running(c, s) && i <= |Current(c, s)|
  {
    forall k :: 0 <= k < i ==> Exact(c, s.bm, Current(c, s)[k])
  }

  /** The whole chosen batch gets its blocks: the per-step batched allocation cannot fail. */
  lemma {:induction false} GrowLoop(c: Config, s: Sched, i: nat)
    requires Running(c, s) && i <= |Current(c, s)| && SchedInv(c, s, [], s.cur) && !Overflow(c, s)
    requires ExactUpTo(c, s, i)
    ensures AllocateBatched(c.blockSize, s.bm, Current(c, s)[i..]).Ok?
    ensures var s1 := s.(bm := AllocateBatched(c.blockSize, s.bm, Current(c, s)[i..]).value);
            && SchedInv(c, s1, [], s.cur) && !Overflow(c, s1) && ExactUpTo(c, s1, |Current(c, s)|)
            && Undisturbed(c, s, s1)
    decreases |Current(c, s)| - i
  {
    var rs := Current(c, s);
    if i < |rs| {
      GrowStep(c, s, i);
      OtherIds(c, s, i);
      var s1 := s.(bm := Allocate(c.blockSize, s.bm, rs[i]).value);
      assert ExactUpTo(c, s1, i + 1);
      assert rs[i..][0] == rs[i] && rs[i..][1..] == rs[i + 1..];
      GrowLoop(c, s1, i + 1);
      UndisturbedTransitive(c, s, s1, s1.(bm := AllocateBatched(c.blockSize, s1.bm, rs[i + 1..]).value));
    } else {
      assert forall j :: 0 <= j < |s.batches| && j != s.cur ==> BatchPlaced(c, s.bm, s.batches[j].requests, true);
    }
  }

  lemma GrowBatch(c: Config, s: Sched)
    requires Running(c, s) && SchedInv(c, s, [], s.cur) && !Overflow(c, s)
    ensures AllocateBatched(c.blockSize, s.bm, Current(c, s)).Ok?
    ensures var bm2 := AllocateBatched(c.blockSize, s.bm, Current(c, s)).value;
            && SchedInv(c, s.(bm := bm2), [], s.cur)
            && Undisturbed(c, s, s.(bm := bm2))
            && BatchPlaced(c, bm2, Current(c, s), true)
            && AllOnGpu(bm2, Current(c, s))
  {
    var rs := Current(c, s);
    assert rs[0..] == rs;
    GrowLoop(c, s, 0);
    var bm2 := AllocateBatched(c.blockSize, s.bm, rs).value;
    forall r | r in rs ensures Exact(c, bm2, r) {
      var k :| 0 <= k < |rs| && rs[k] == r;
      assert Exact(c, bm2, Current(c, s.(bm := bm2))[k]);
    }
  }

  /** Once the current batch is exact too, any batch may be the open one. */
  lemma ExactEverywhere(c: Config, s: Sched, open: int)
    requires Running(c, s) && Placed(c, s, [], s.cur) && BatchPlaced(c, s.bm, Current(c, s), true)
    ensures Placed(c, s, [], open)
  {
    forall j | 0 <= j < |s.batches| ensures BatchPlaced(c, s.bm, s.batches[j].requests, j != open) {
      assert BatchPlaced(c, s.bm, s.batches[j].requests, j != s.cur);
    }
  }

  // ---------------------------------------------------------------- block partition along the way

  ghost predicate Intact(c: Config, bm: BlockState) { Partitioned(bm, c.maxGpu, c.maxCpu) }

  lemma {:induction false} SwapOutLoopIntact(c: Config, s: Sched)
    requires Running(c, s) && Intact(c, s.bm) && SwapOutLoop(c, s).Ok?
    ensures Intact(c, SwapOutLoop(c, s).value.bm)
    decreases |Current(c, s)|
  {
    if Overflow(c, s) {
      SwapPartitioned(s.bm, [Current(c, s)[|Current(c, s)| - 1].id], false, c.maxGpu, c.maxCpu);
      SwapOutLoopIntact(c, SwapOutLast(c, s).value);
    }
  }

  lemma {:induction false} AdmitLoopIntact(c: Config, s: Sched)
    requires Running(c, s) && Intact(c, s.bm) && AdmitLoop(c, s).Ok?
    ensures Intact(c, AdmitLoop(c, s).value.bm)
    decreases |s.swapped| + |s.waiting|
  {
    if s.swapped != [] && CheckAdd(c, s, s.swapped[0]) {
      SwapPartitioned(s.bm, [s.swapped[0].id], true, c.maxGpu, c.maxCpu);
      AdmitLoopIntact(c, SwapInHead(c, s).value);
    } else if s.swapped == [] && s.waiting != [] && CheckAdd(c, s, s.waiting[0]) {
      AdmitLoopIntact(c, AdmitHead(c, s).value);
    }
  }

  lemma GetNextBatchIntact(c: Config, s: Sched)
    requires Shape(c, s) && Intact(c, s.bm) && GetNextBatch(c, s).Ok?
    ensures Intact(c, GetNextBatch(c, s).value.bm)
  {
    SwapOutLoopIntact(c, Rotate(c, s));
    AdmitLoopIntact(c, SwapOutLoop(c, Rotate(c, s)).value);
  }

  lemma {:induction false} AllocateBatchedIntact(c: Config, bm: BlockState, rs: seq<Req>)
    requires c.Valid() && Intact(c, bm) && AllocateBatched(c.blockSize, bm, rs).Ok?
    ensures Intact(c, AllocateBatched(c.blockSize, bm, rs).value)
    decreases |rs|
  {
    if rs != [] {
      AllocatePartitioned(c.blockSize, bm, rs[0], c.maxGpu, c.maxCpu);
      AllocateBatchedIntact(c, Allocate(c.blockSize, bm, rs[0]).value, rs[1..]);
    }
  }

  lemma {:induction false} FreeBatchedIntact(c: Config, bm: BlockState, rs: seq<Req>)
    requires Intact(c, bm) && FreeBatched(bm, rs).Ok?
    ensures Intact(c, FreeBatched(bm, rs).value)
    decreases |rs|
  {
    if rs != [] {
      FreePartitioned(bm, rs[0].id, c.maxGpu, c.maxCpu);
      FreeBatchedIntact(c, FreeBlocks(bm, rs[0].id).value, rs[1..]);
    }
  }

  // ---------------------------------------------------------------- freeing finished requests

  /** bm2 has the tables of bm except those of requests that left. */
  ghost predicate Shrinks(bm: BlockState, bm2: BlockState, gone: seq<Req>) {
    && (forall x {:trigger x in bm2.table} {:trigger IdF(x)} ::
          x in bm2.table <==> x in bm.table && Sum(IdF(x), gone) == 0)
    && (forall x :: x in bm2.table ==> x in bm.table && bm2.table[x] == bm.table[x])
  }

  lemma FreeOne(c: Config, s: Sched, r: Req, rest: seq<Req>, open: int)
    requires Shape(c, s) && Counted(s, [r] + rest) && Placed(c, s, [], open) && Balanced(c, s, [r] + rest)
    requires s.bm.OnGpu(r.id)
    ensures FreeBlocks(s.bm, r.id).Ok?
    ensures var s1 := s.(bm := FreeBlocks(s.bm, r.id).value);
            && Counted(s1, rest) && Placed(c, s1, [], open) && Balanced(c, s1, rest)
            && OnlyChanges(s.bm, s1.bm, r.id) && r.id !in s1.bm.table
    ensures Sum(IdF(r.id), rest) == 0
  {
    var s1 := s.(bm := FreeBlocks(s.bm, r.id).value);
    forall f: Req -> nat ensures Sum(f, [r] + rest) == f(r) + Sum(f, rest) {
      assert ([r] + rest)[1..] == rest;
    }
    assert AllSum(IdF(r.id), s, [r] + rest) == 1;
    forall id ensures AllSum(IdF(id), s1, rest) == if id in s1.bm.table then 1 else 0 {
      assert AllSum(IdF(id), s, [r] + rest) == if id in s.bm.table then 1 else 0;
      assert Sum(IdF(id), [r] + rest) == IdF(id)(r) + Sum(IdF(id), rest);
    }
    PlacedUntouched(c, s, s1.bm, r.id, [], open);
    OnlyChangesAgrees(s.bm, s1.bm, r.id);
    GpuHeldUntouched(s, s1.bm.table, r.id, rest);
    assert Sum(HeldF(s.bm.table), [r] + rest) == HeldF(s.bm.table)(r) + Sum(HeldF(s.bm.table), rest);
  }

  lemma ShrinksMore(bm: BlockState, bm1: BlockState, bm2: BlockState, gone: seq<Req>)
    requires gone != [] && OnlyChanges(bm, bm1, gone[0].id) && gone[0].id in bm.table && gone[0].id !in bm1.table
    requires Shrinks(bm1, bm2, gone[1..])
    ensures Shrinks(bm, bm2, gone)
  {
    forall x ensures x in bm2.table <==> x in bm.table && Sum(IdF(x), gone) == 0 {
      assert Sum(IdF(x), gone) == IdF(x)(gone[0]) + Sum(IdF(x), gone[1..]);
    }
  }

  lemma FreeHead(c: Config, s: Sched, gone: seq<Req>, open: int)
    requires Shape(c, s) && Counted(s, gone) && Placed(c, s, [], open) && Balanced(c, s, gone) && gone != []
    requires forall r :: r in gone ==> s.bm.OnGpu(r.id)
    ensures FreeBlocks(s.bm, gone[0].id).Ok?
    ensures var s1 := s.(bm := FreeBlocks(s.bm, gone[0].id).value);
            && Counted(s1, gone[1..]) && Placed(c, s1, [], open) && Balanced(c, s1, gone[1..])
            && OnlyChanges(s.bm, s1.bm, gone[0].id) && gone[0].id !in s1.bm.table
            && forall r :: r in gone[1..] ==> s1.bm.OnGpu(r.id)
  {
    assert gone == [gone[0]] + gone[1..];
    assert gone[0] in gone;
    FreeOne(c, s, gone[0], gone[1..], open);
    AbsentId(gone[0].id, gone[1..]);
  }

  lemma {:induction false} FreeAll(c: Config, s: Sched, gone: seq<Req>, open: int)
    requires Shape(c, s) && Counted(s, gone) && Placed(c, s, [], open) && Balanced(c, s, gone)
    requires forall r :: r in gone ==> s.bm.OnGpu(r.id)
    ensures FreeBatched(s.bm, gone).Ok?
    ensures var s1 := s.(bm := FreeBatched(s.bm, gone).value);
            SchedInv(c, s1, [], open) && Shrinks(s.bm, s1.bm, gone)
    decreases |gone|
  {
    if gone != [] {
      FreeHead(c, s, gone, open);
      assert gone[0] in gone;
      var s1 := s.(bm := FreeBlocks(s.bm, gone[0].id).value);
      FreeAll(c, s1, gone[1..], open);
      ShrinksMore(s.bm, s1.bm, FreeBatched(s1.bm, gone[1..]).value, gone);
    }
  }
}
