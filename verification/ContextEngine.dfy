/** The context stage: FCFS admission against a block budget (distserve/context_stage_scheduler.py)
    and the engine's step protocol cut at its await (distserve/single_stage_engine.py). */
module ContextEngine {
  import opened Common
  import opened Sums
  import opened Requests
  import opened Blocks
  import opened DecodeScheduler
  import opened DecodeEngine

  datatype CtxSched = CtxSched(waiting: seq<Req>, unaccepted: seq<Req>, onFly: int, bm: BlockState)

  datatype Ctx = Ctx(sched: CtxSched, pipeline: seq<Batch>, futures: seq<Option<StepCall>>, submitted: bool)

  function InitCtx(c: Config): Ctx {
    Ctx(CtxSched([], [], 0, InitState(c.maxGpu, c.maxCpu)), [], [], false)
  }

  // ---------------------------------------------------------------- get_next_batch_and_pop

  predicate CheckPick(c: Config, s: CtxSched, picked: seq<Req>, r: Req)
    requires c.Valid()
  {
    && |picked| < c.maxBatchSize
    && Sum(NumInputTokensF(), picked) + NumInputTokens(r) <= c.maxTokensPerBatch
    && Sum(InNeedF(c.blockSize), picked + [r]) + Sum(InNeedF(c.blockSize), s.unaccepted) + s.onFly <= c.maxGpu
  }

  function PickLoop(c: Config, s: CtxSched, picked: seq<Req>): Result<(CtxSched, seq<Req>)>
    requires c.Valid()
    decreases |s.waiting|
  {
    if s.waiting != [] && CheckPick(c, s, picked, s.waiting[0]) then
      if s.waiting[0].id in Ids(picked) then Err(DuplicateInBatch)
      else PickLoop(c, s.(waiting := s.waiting[1..]), picked + [s.waiting[0]])
    else Ok((s, picked))
  }

  function NextBatchAndPop(c: Config, s: CtxSched): Result<(CtxSched, seq<Req>)>
    requires c.Valid()
  {
    var (s1, picked) :- PickLoop(c, s, []);
    Ok((s1.(onFly := s1.onFly + Sum(InNeedF(c.blockSize), picked)), picked))
  }

  // ---------------------------------------------------------------- the step

  function CtxSubmit(c: Config, x: Ctx): Result<Ctx>
    requires c.Valid()
  {
    var (s, picked) :- NextBatchAndPop(c, x.sched);
    if picked == [] then
      Ok(Ctx(s, x.pipeline + [Batch([], false)], x.futures + [None], true))
    else
      var bm :- AllocateBatched(c.blockSize, s.bm, picked);
      var b :- StartIteration(Batch(picked, false));
      var call :- MakeCall(bm, picked);
      Ok(Ctx(s.(bm := bm), x.pipeline + [b], x.futures + [Some(call)], true))
  }

  /** The last loop of the step: unfinished requests go to the bridge with their block tables,
      the others give their blocks back. */
  function Dispatch(bm: BlockState, rs: seq<Req>): Result<(BlockState, seq<Mig>)>
    decreases |rs|
  {
    if rs == [] then Ok((bm, []))
    else if rs[0].finished then
      var bm1 :- FreeBlocks(bm, rs[0].id);
      Dispatch(bm1, rs[1..])
    else if rs[0].id !in bm.table then Err(NotAllocated)
    else
      var (bm1, migs) :- Dispatch(bm, rs[1..]);
      Ok((bm1, [Mig(rs[0], bm.table[rs[0].id])] + migs))
  }

  function OnFinish(c: Config, s: CtxSched, rs: seq<Req>): CtxSched
    requires c.Valid()
  {
    s.(unaccepted := s.unaccepted + Unfinished(rs), onFly := s.onFly - Sum(InNeedF(c.blockSize), rs))
  }

  predicate CtxFull(c: Config, x: Ctx) { |x.pipeline| == c.pp }

  /** The step after the earliest batch returned: the new state and what is put on the bridge. */
  function CtxReturn(c: Config, x: Ctx, tokens: seq<Token>): Result<(Ctx, seq<Mig>)>
    requires c.Valid() && |x.futures| == |x.pipeline|
  {
    if CtxFull(c, x) && x.futures[0].Some? then
      var b :- FinishIteration(x.pipeline[0], tokens);
      var s := OnFinish(c, x.sched, b.requests);
      var (bm, migs) :- Dispatch(s.bm, b.requests);
      Ok((Ctx(s.(bm := bm), x.pipeline[1..], x.futures[1..], false), migs))
    else if CtxFull(c, x) then
      Ok((x.(pipeline := x.pipeline[1..], futures := x.futures[1..], submitted := false), []))
    else
      Ok((x.(submitted := false), []))
  }

  function RemoveFirst(rs: seq<Req>, id: int): seq<Req> {
    if rs == [] then []
    else if rs[0].id == id then rs[1..]
    else [rs[0]] + RemoveFirst(rs[1..], id)
  }

  function ClearMigrated(x: Ctx, m: Mig): Result<Ctx> {
    var bm :- FreeBlocks(x.sched.bm, m.req.id);
    Ok(x.(sched := x.sched.(bm := bm, unaccepted := RemoveFirst(x.sched.unaccepted, m.req.id))))
  }

  function CtxArrive(x: Ctx, r: Req): Ctx {
    x.(sched := x.sched.(waiting := x.sched.waiting + [r]))
  }

  // ---------------------------------------------------------------- invariant

  /** Requests with blocks: those in the pipeline, those waiting to be migrated, and `gone`,
      finished ones whose blocks are about to be freed. */
  function HeldSum(f: Req -> nat, p: seq<Batch>, u: seq<Req>, gone: seq<Req>): nat {
    SumBatches(f, p) + Sum(f, u) + Sum(f, gone)
  }

  predicate Sized(c: Config, bm: BlockState, rs: seq<Req>)
    requires c.Valid()
  {
    forall r :: r in rs ==> bm.OnGpu(r.id) && |bm.table[r.id]| == InNeed(r, c.blockSize)
  }

  ghost predicate HeldCounted(bm: BlockState, p: seq<Batch>, u: seq<Req>, gone: seq<Req>) {
    && bm.table.Keys == bm.location.Keys
    && forall id {:trigger IdF(id)} :: HeldSum(IdF(id), p, u, gone) == if id in bm.table then 1 else 0
  }

  ghost predicate HeldPlaced(c: Config, bm: BlockState, p: seq<Batch>, u: seq<Req>, gone: seq<Req>)
    requires c.Valid()
  {
    && (forall j :: 0 <= j < |p| ==> Sized(c, bm, p[j].requests))
    && Sized(c, bm, u)
    && Sized(c, bm, gone)
  }

  ghost predicate HeldBalanced(c: Config, bm: BlockState, p: seq<Batch>, u: seq<Req>, gone: seq<Req>) {
    bm.gpu.Avail() + HeldSum(HeldF(bm.table), p, u, gone) == c.maxGpu
  }

  ghost predicate Holds(c: Config, bm: BlockState, p: seq<Batch>, u: seq<Req>, gone: seq<Req>) {
    c.Valid() && HeldCounted(bm, p, u, gone) && HeldPlaced(c, bm, p, u, gone) && HeldBalanced(c, bm, p, u, gone)
  }

  /** A request that has not run yet. */
  predicate Fresh(r: Req) { r.output == [] && !r.finished && r.sampling.maxTokens >= 1 }

  predicate AllFresh(rs: seq<Req>) { forall r :: r in rs ==> Fresh(r) }

  predicate AllLive(rs: seq<Req>) { forall r :: r in rs ==> Live(r) }

  ghost predicate CtxFlight(x: Ctx, i: int)
    requires 0 <= i < |x.pipeline| == |x.futures|
  {
    var b := x.pipeline[i];
    if b.requests == [] then x.futures[i] == None && !b.started
    else x.futures[i] == Some(CallOf(x.sched.bm, b.requests)) && b.started
  }

  ghost predicate CtxFlights(c: Config, x: Ctx) {
    && |x.futures| == |x.pipeline| <= c.pp
    && (x.submitted ==> |x.pipeline| >= 1)
    && (!x.submitted ==> |x.pipeline| < c.pp)
    && (forall i :: 0 <= i < |x.pipeline| ==> CtxFlight(x, i) && AllFresh(x.pipeline[i].requests))
  }

  /** No request waits twice, and none that waits already has blocks. */
  ghost predicate Unallocated(bm: BlockState, rs: seq<Req>) {
    forall id {:trigger IdF(id)} :: Sum(IdF(id), rs) + (if id in bm.table then 1 else 0) <= 1
  }

  ghost predicate CtxInv(c: Config, x: Ctx) {
    && Holds(c, x.sched.bm, x.pipeline, x.sched.unaccepted, [])
    && Intact(c, x.sched.bm)
    && CtxFlights(c, x)
    && Unallocated(x.sched.bm, x.sched.waiting)
    && AllFresh(x.sched.waiting)
    && AllLive(x.sched.unaccepted)
    && x.sched.onFly == SumBatches(InNeedF(c.blockSize), x.pipeline)
  }

  // ---------------------------------------------------------------- budget

  /** The scheduler's budget is the allocator's reality: what is on the fly plus what waits for
      migration is exactly the number of blocks in use, so it never exceeds the GPU. */
  lemma BudgetIsUsage(c: Config, x: Ctx)
    requires CtxInv(c, x)
    ensures x.sched.onFly + Sum(InNeedF(c.blockSize), x.sched.unaccepted)
         == c.maxGpu - x.sched.bm.gpu.Avail()
    ensures 0 <= x.sched.onFly + Sum(InNeedF(c.blockSize), x.sched.unaccepted) <= c.maxGpu
  {
    var t := x.sched.bm.table;
    forall j, r | 0 <= j < |x.pipeline| && r in x.pipeline[j].requests
      ensures InNeedF(c.blockSize)(r) == HeldF(t)(r)
    {
      assert Sized(c, x.sched.bm, x.pipeline[j].requests);
    }
    SumBatchesAgree(InNeedF(c.blockSize), HeldF(t), x.pipeline);
    SumAgree(InNeedF(c.blockSize), HeldF(t), x.sched.unaccepted);
  }

  // ---------------------------------------------------------------- frames

  lemma HeldSumUntouched(t: map<int, seq<nat>>, t2: map<int, seq<nat>>, id: int,
                         p: seq<Batch>, u: seq<Req>, gone: seq<Req>)
    requires AgreeExcept(t, t2, id) && HeldSum(IdF(id), p, u, gone) == 0
    ensures HeldSum(HeldF(t), p, u, gone) == HeldSum(HeldF(t2), p, u, gone)
  {
    HeldUntouchedInBatches(t, t2, id, p);
    HeldUntouched(t, t2, id, u);
    HeldUntouched(t, t2, id, gone);
  }

  lemma HeldPlacedUntouched(c: Config, bm: BlockState, bm2: BlockState, id: int,
                            p: seq<Batch>, u: seq<Req>, gone: seq<Req>)
    requires c.Valid() && HeldPlaced(c, bm, p, u, gone)
    requires OnlyChanges(bm, bm2, id) && HeldSum(IdF(id), p, u, gone) == 0
    ensures HeldPlaced(c, bm2, p, u, gone)
  {
    AbsentIdInBatches(id, p);
    AbsentId(id, u);
    AbsentId(id, gone);
    forall j | 0 <= j < |p| ensures Sized(c, bm2, p[j].requests) {
      assert Sized(c, bm, p[j].requests);
    }
  }

  // ---------------------------------------------------------------- allocating the picked batch

  /** Adding a request to the last batch, as the batch being allocated. */
  function Grow(p: seq<Batch>, done: seq<Req>): seq<Batch> { p + [Batch(done, true)] }

  lemma GrowSums(f: Req -> nat, p: seq<Batch>, done: seq<Req>, r: Req, u: seq<Req>)
    ensures HeldSum(f, Grow(p, done + [r]), u, []) == HeldSum(f, Grow(p, done), u, []) + f(r)
  {
    SumBatchesSnoc(f, p, Batch(done, true));
    SumBatchesSnoc(f, p, Batch(done + [r], true));
    SumSnoc(f, done, r);
  }

  /** Tables of requests already there are kept. */
  ghost predicate Keeps(bm: BlockState, bm2: BlockState) {
    forall x :: x in bm.table ==> x in bm2.table && bm2.table[x] == bm.table[x]
  }

  lemma GrowCounted(bm: BlockState, bm2: BlockState, p: seq<Batch>, done: seq<Req>, u: seq<Req>,
                    r: Req, taken: seq<nat>)
    requires HeldCounted(bm, Grow(p, done), u, []) && r.id !in bm.table && Extends(bm, bm2, r.id, taken)
    ensures HeldCounted(bm2, Grow(p, done + [r]), u, [])
    ensures HeldSum(IdF(r.id), Grow(p, done), u, []) == 0
  {
    assert HeldSum(IdF(r.id), Grow(p, done), u, []) == 0;
    forall id ensures HeldSum(IdF(id), Grow(p, done + [r]), u, []) == if id in bm2.table then 1 else 0 {
      GrowSums(IdF(id), p, done, r, u);
      assert HeldSum(IdF(id), Grow(p, done), u, []) == if id in bm.table then 1 else 0;
    }
  }

  lemma GrowPlaced(c: Config, bm: BlockState, p: seq<Batch>, done: seq<Req>, u: seq<Req>, r: Req)
    requires c.Valid() && HeldPlaced(c, bm, Grow(p, done), u, [])
    requires bm.OnGpu(r.id) && |bm.table[r.id]| == InNeed(r, c.blockSize)
    ensures HeldPlaced(c, bm, Grow(p, done + [r]), u, [])
  {
    forall j | 0 <= j < |Grow(p, done + [r])| ensures Sized(c, bm, Grow(p, done + [r])[j].requests) {
      assert Sized(c, bm, Grow(p, done)[j].requests);
    }
  }

  lemma GrowOne(c: Config, bm: BlockState, p: seq<Batch>, done: seq<Req>, u: seq<Req>, r: Req)
    requires Holds(c, bm, Grow(p, done), u, []) && r.id !in bm.table && r.output == []
    requires InNeed(r, c.blockSize) <= bm.gpu.Avail()
    ensures Allocate(c.blockSize, bm, r).Ok?
    ensures var bm2 := Allocate(c.blockSize, bm, r).value;
            && Holds(c, bm2, Grow(p, done + [r]), u, [])
            && Keeps(bm, bm2) && bm2.table.Keys == bm.table.Keys + {r.id}
            && bm2.gpu.Avail() == bm.gpu.Avail() - InNeed(r, c.blockSize)
  {
    AllocateFails(c.blockSize, bm, r);
    var taken := AllocateExtends(c.blockSize, bm, r);
    var bm2 := Allocate(c.blockSize, bm, r).value;
    assert bm2.table[r.id] == [] + taken && |[] + taken| == |taken|;
    GrowCounted(bm, bm2, p, done, u, r, taken);
    ExtendsOnlyChanges(bm, bm2, r.id, taken);
    HeldPlacedUntouched(c, bm, bm2, r.id, Grow(p, done), u, []);
    GrowPlaced(c, bm2, p, done, u, r);
    HeldSumUntouched(bm.table, bm2.table, r.id, Grow(p, done), u, []);
    GrowSums(HeldF(bm2.table), p, done, r, u);
  }

  function IdSet(rs: seq<Req>): set<int> { set r | r in rs :: r.id }

  lemma IdSetCounts(rs: seq<Req>, id: int)
    ensures id in IdSet(rs) <==> Sum(IdF(id), rs) >= 1
  {
    if id in IdSet(rs) {
      var r :| r in rs && r.id == id;
      PresentId(rs, r);
    } else {
      SumZero(IdF(id), rs);
    }
  }

  lemma HeadUnallocated(bm: BlockState, rs: seq<Req>)
    requires rs != [] && Unallocated(bm, rs)
    ensures rs[0].id !in bm.table
  {
    assert Sum(IdF(rs[0].id), rs) == 1 + Sum(IdF(rs[0].id), rs[1..]);
  }

  lemma RestUnallocated(bm: BlockState, bm1: BlockState, rs: seq<Req>)
    requires rs != [] && Unallocated(bm, rs) && bm1.table.Keys == bm.table.Keys + {rs[0].id}
    ensures Unallocated(bm1, rs[1..])
  {
    forall id ensures Sum(IdF(id), rs[1..]) + (if id in bm1.table then 1 else 0) <= 1 {
      assert Sum(IdF(id), rs) == IdF(id)(rs[0]) + Sum(IdF(id), rs[1..]);
    }
  }

  lemma IdSetStep(rs: seq<Req>)
    requires rs != []
    ensures IdSet(rs) == {rs[0].id} + IdSet(rs[1..])
  {
    assert rs == [rs[0]] + rs[1..];
  }

  ghost predicate Grown(c: Config, bm: BlockState, bm2: BlockState, p: seq<Batch>,
                        all: seq<Req>, u: seq<Req>, rs: seq<Req>)
  {
    Holds(c, bm2, Grow(p, all), u, []) && Keeps(bm, bm2) && bm2.table.Keys == bm.table.Keys + IdSet(rs)
  }

  lemma GrownAfter(c: Config, bm: BlockState, bm1: BlockState, bm2: BlockState,
                   p: seq<Batch>, done: seq<Req>, u: seq<Req>, rs: seq<Req>)
    requires rs != [] && Keeps(bm, bm1) && bm1.table.Keys == bm.table.Keys + {rs[0].id}
    requires Grown(c, bm1, bm2, p, done + [rs[0]] + rs[1..], u, rs[1..])
    ensures Grown(c, bm, bm2, p, done + rs, u, rs)
  {
    assert done + [rs[0]] + rs[1..] == done + rs;
    IdSetStep(rs);
  }

  lemma {:induction false} GrowAll(c: Config, bm: BlockState, p: seq<Batch>, done: seq<Req>, rs: seq<Req>, u: seq<Req>)
    requires Holds(c, bm, Grow(p, done), u, []) && Unallocated(bm, rs) && AllFresh(rs)
    requires Sum(InNeedF(c.blockSize), rs) <= bm.gpu.Avail()
    ensures AllocateBatched(c.blockSize, bm, rs).Ok?
    ensures Grown(c, bm, AllocateBatched(c.blockSize, bm, rs).value, p, done + rs, u, rs)
    decreases |rs|
  {
    if rs == [] {
      assert done + rs == done;
    } else {
      assert rs[0] in rs;
      HeadUnallocated(bm, rs);
      GrowOne(c, bm, p, done, u, rs[0]);
      var bm1 := Allocate(c.blockSize, bm, rs[0]).value;
      RestUnallocated(bm, bm1, rs);
      GrowAll(c, bm1, p, done + [rs[0]], rs[1..], u);
      GrownAfter(c, bm, bm1, AllocateBatched(c.blockSize, bm1, rs[1..]).value, p, done, u, rs);
    }
  }

  // ---------------------------------------------------------------- picking

  predicate Affordable(c: Config, s: CtxSched, picked: seq<Req>)
    requires c.Valid()
  {
    picked != [] ==>
      Sum(InNeedF(c.blockSize), picked) + Sum(InNeedF(c.blockSize), s.unaccepted) + s.onFly <= c.maxGpu
  }

  ghost predicate AllDifferent(rs: seq<Req>) {
    forall id {:trigger IdF(id)} :: Sum(IdF(id), rs) <= 1
  }

  lemma NotPickedYet(picked: seq<Req>, waiting: seq<Req>)
    requires waiting != [] && AllDifferent(picked + waiting)
    ensures waiting[0].id !in Ids(picked)
  {
    var id := waiting[0].id;
    SumAppend(IdF(id), picked, waiting);
    assert Sum(IdF(id), waiting) == 1 + Sum(IdF(id), waiting[1..]);
    AbsentId(id, picked);
  }

  ghost predicate PickedInTurn(c: Config, s: CtxSched, from: nat, picked: seq<Req>)
    requires c.Valid()
  {
    forall k :: from <= k < |picked| ==> CheckPick(c, s, picked[..k], picked[k])
  }

  lemma PickedOneMore(c: Config, s: CtxSched, s1: CtxSched, picked: seq<Req>, r: Req, picked2: seq<Req>)
    requires c.Valid() && CheckPick(c, s, picked, r) && s1 == s.(waiting := s1.waiting)
    requires picked + [r] <= picked2 && PickedInTurn(c, s1, |picked| + 1, picked2)
    ensures PickedInTurn(c, s, |picked|, picked2)
  {
    forall k | |picked| <= k < |picked2| ensures CheckPick(c, s, picked2[..k], picked2[k]) {
      if k == |picked| {
        assert picked2[..k] == picked && picked2[k] == r;
      } else {
        assert CheckPick(c, s1, picked2[..k], picked2[k]);
      }
    }
  }

  /** First come, first served, as far as the limits allow: the picked batch is the longest
      prefix of the queue that passes the check request by request, and it fits the budget. */
  lemma {:induction false} PickIsFcfs(c: Config, s: CtxSched, picked: seq<Req>)
    requires c.Valid() && AllDifferent(picked + s.waiting) && Affordable(c, s, picked)
    ensures PickLoop(c, s, picked).Ok?
    ensures var (s1, picked1) := PickLoop(c, s, picked).value;
            && picked1 + s1.waiting == picked + s.waiting
            && |picked| <= |picked1|
            && s1 == s.(waiting := s1.waiting)
            && Affordable(c, s, picked1)
            && PickedInTurn(c, s, |picked|, picked1)
            && (s1.waiting != [] ==> !CheckPick(c, s, picked1, s1.waiting[0]))
    decreases |s.waiting|
  {
    if s.waiting != [] && CheckPick(c, s, picked, s.waiting[0]) {
      NotPickedYet(picked, s.waiting);
      var s1 := s.(waiting := s.waiting[1..]);
      var more := picked + [s.waiting[0]];
      assert more + s1.waiting == picked + s.waiting;
      PickIsFcfs(c, s1, more);
      var (s2, picked2) := PickLoop(c, s1, more).value;
      PrefixStays(more, s1.waiting, picked2, s2.waiting);
      PickedOneMore(c, s, s1, picked, s.waiting[0], picked2);
    }
  }

  lemma PrefixStays(a: seq<Req>, b: seq<Req>, a1: seq<Req>, b1: seq<Req>)
    requires a + b == a1 + b1 && |a| <= |a1|
    ensures a <= a1
  {
    assert (a + b)[..|a|] == a && (a1 + b1)[..|a|] == a1[..|a|];
  }

  // ---------------------------------------------------------------- submitting

  lemma HoldsEmptyBatch(c: Config, bm: BlockState, p: seq<Batch>, u: seq<Req>, started: bool)
    requires Holds(c, bm, p, u, [])
    ensures Holds(c, bm, p + [Batch([], started)], u, [])
  {
    var p1 := p + [Batch([], started)];
    forall id ensures HeldSum(IdF(id), p1, u, []) == if id in bm.table then 1 else 0 {
      SumBatchesSnoc(IdF(id), p, Batch([], started));
      assert HeldSum(IdF(id), p, u, []) == if id in bm.table then 1 else 0;
    }
    SumBatchesSnoc(HeldF(bm.table), p, Batch([], started));
    forall j | 0 <= j < |p1| ensures Sized(c, bm, p1[j].requests) {
      if j < |p| {
        assert Sized(c, bm, p[j].requests);
      }
    }
  }

  lemma CtxCallKept(bm: BlockState, bm1: BlockState, rs: seq<Req>)
    requires Keeps(bm, bm1) && forall r :: r in rs ==> r.id in bm.table
    ensures CallOf(bm1, rs) == CallOf(bm, rs)
  {
    SameCall(bm, bm1, rs);
  }

  lemma CtxFlightsSnoc(c: Config, x: Ctx, s1: CtxSched, b: Batch, call: Option<StepCall>)
    requires CtxFlights(c, x) && !x.submitted && Keeps(x.sched.bm, s1.bm)
    requires c.Valid() && HeldPlaced(c, x.sched.bm, x.pipeline, x.sched.unaccepted, [])
    requires AllFresh(b.requests)
    requires if b.requests == [] then call == None && !b.started
             else call == Some(CallOf(s1.bm, b.requests)) && b.started
    ensures CtxFlights(c, Ctx(s1, x.pipeline + [b], x.futures + [call], true))
  {
    var x1 := Ctx(s1, x.pipeline + [b], x.futures + [call], true);
    forall i | 0 <= i < |x1.pipeline| ensures CtxFlight(x1, i) && AllFresh(x1.pipeline[i].requests) {
      if i < |x.pipeline| {
        assert CtxFlight(x, i) && AllFresh(x.pipeline[i].requests);
        assert Sized(c, x.sched.bm, x.pipeline[i].requests);
        CtxCallKept(x.sched.bm, s1.bm, x.pipeline[i].requests);
      }
    }
  }

  lemma PickedApart(bm: BlockState, bm1: BlockState, waiting: seq<Req>, picked: seq<Req>, rest: seq<Req>)
    requires waiting == picked + rest
    requires Unallocated(bm, waiting)
    requires bm1.table.Keys == bm.table.Keys + IdSet(picked)
    ensures Unallocated(bm1, rest)
  {
    forall id ensures Sum(IdF(id), rest) + (if id in bm1.table then 1 else 0) <= 1 {
      SumAppend(IdF(id), picked, rest);
      IdSetCounts(picked, id);
      assert Sum(IdF(id), waiting) + (if id in bm.table then 1 else 0) <= 1;
    }
  }

  /** Requests picked for a batch are not yet known to the allocator. */
  lemma PickedUnallocated(bm: BlockState, waiting: seq<Req>, picked: seq<Req>, rest: seq<Req>)
    requires waiting == picked + rest
    requires Unallocated(bm, waiting)
    ensures Unallocated(bm, picked) && AllDifferent(waiting)
  {
    forall id ensures Sum(IdF(id), picked) + (if id in bm.table then 1 else 0) <= 1 {
      SumAppend(IdF(id), picked, rest);
      assert Sum(IdF(id), waiting) + (if id in bm.table then 1 else 0) <= 1;
    }
  }

  /** Nobody enters or leaves the context stage: a submitted request leaves the waiting queue
      for the allocator, and everyone else keeps their blocks. */
  ghost predicate CtxSubmitted(c: Config, x: Ctx, x1: Ctx) {
    && CtxInv(c, x1) && x1.submitted
    && x1.sched.unaccepted == x.sched.unaccepted
    && Keeps(x.sched.bm, x1.sched.bm)
    && (forall r :: r in x1.sched.waiting ==> r in x.sched.waiting)
    && IdSet(x1.sched.waiting) + x1.sched.bm.table.Keys == IdSet(x.sched.waiting) + x.sched.bm.table.Keys
  }

  lemma PickFromStart(c: Config, x: Ctx) returns (s1: CtxSched, picked: seq<Req>)
    requires CtxInv(c, x)
    ensures PickLoop(c, x.sched, []) == Ok((s1, picked))
    ensures picked + s1.waiting == x.sched.waiting && s1 == x.sched.(waiting := s1.waiting)
    ensures Affordable(c, x.sched, picked)
    ensures s1.waiting != [] ==> !CheckPick(c, x.sched, picked, s1.waiting[0])
  {
    var s := x.sched;
    assert [] + s.waiting == s.waiting == s.waiting + [];
    PickedUnallocated(s.bm, s.waiting, s.waiting, []);
    BudgetIsUsage(c, x);
    PickIsFcfs(c, s, []);
    s1, picked := PickLoop(c, s, []).value.0, PickLoop(c, s, []).value.1;
  }

  lemma CtxSubmitNothing(c: Config, x: Ctx, s1: CtxSched)
    requires CtxInv(c, x) && !x.submitted && PickLoop(c, x.sched, []) == Ok((s1, []))
    requires [] + s1.waiting == x.sched.waiting && s1 == x.sched.(waiting := s1.waiting)
    ensures CtxSubmit(c, x).Ok?
    ensures CtxSubmitted(c, x, CtxSubmit(c, x).value)
  {
    assert [] + s1.waiting == s1.waiting;
    CtxIdleInv(c, x);
  }

  lemma CtxSubmitSome(c: Config, x: Ctx, s1: CtxSched, picked: seq<Req>)
    requires CtxInv(c, x) && !x.submitted && PickLoop(c, x.sched, []) == Ok((s1, picked)) && picked != []
    requires picked + s1.waiting == x.sched.waiting && s1 == x.sched.(waiting := s1.waiting)
    requires Affordable(c, x.sched, picked)
    ensures CtxSubmit(c, x).Ok?
    ensures CtxSubmitted(c, x, CtxSubmit(c, x).value)
  {
    var bm := PickedAllocated(c, x, s1.waiting, picked);
    PickedInv(c, x, s1.waiting, picked, bm);
    CtxSubmitComputes(c, x, s1, picked, bm);
  }

  /** A context step never runs out of blocks, and raises nothing else either. */
  lemma CtxSubmitSafe(c: Config, x: Ctx)
    requires CtxInv(c, x) && !x.submitted
    ensures CtxSubmit(c, x).Ok?
    ensures CtxSubmitted(c, x, CtxSubmit(c, x).value)
  {
    var s1, picked := PickFromStart(c, x);
    if picked == [] {
      CtxSubmitNothing(c, x, s1);
    } else {
      CtxSubmitSome(c, x, s1, picked);
    }
  }

  lemma CtxIdleInv(c: Config, x: Ctx)
    requires CtxInv(c, x) && !x.submitted
    ensures CtxInv(c, Ctx(x.sched, x.pipeline + [Batch([], false)], x.futures + [None], true))
  {
    HoldsEmptyBatch(c, x.sched.bm, x.pipeline, x.sched.unaccepted, false);
    CtxFlightsSnoc(c, x, x.sched, Batch([], false), None);
    SumBatchesSnoc(InNeedF(c.blockSize), x.pipeline, Batch([], false));
  }

  lemma PickedAllocated(c: Config, x: Ctx, rest: seq<Req>, picked: seq<Req>) returns (bm: BlockState)
    requires CtxInv(c, x) && picked != [] && picked + rest == x.sched.waiting
    requires Affordable(c, x.sched, picked)
    ensures AllocateBatched(c.blockSize, x.sched.bm, picked) == Ok(bm)
    ensures Grown(c, x.sched.bm, bm, x.pipeline, picked, x.sched.unaccepted, picked)
    ensures AllFresh(picked) && Intact(c, bm)
    ensures forall r :: r in picked ==> r.id in bm.table
  {
    var s := x.sched;
    BudgetIsUsage(c, x);
    PickedUnallocated(s.bm, s.waiting, picked, rest);
    assert forall r :: r in picked ==> r in s.waiting;
    HoldsEmptyBatch(c, s.bm, x.pipeline, s.unaccepted, true);
    GrowAll(c, s.bm, x.pipeline, [], picked, s.unaccepted);
    assert [] + picked == picked;
    bm := AllocateBatched(c.blockSize, s.bm, picked).value;
    AllocateBatchedIntact(c, s.bm, picked);
    assert forall r :: r in picked ==> r.id in IdSet(picked);
  }

  lemma CtxSubmitComputes(c: Config, x: Ctx, s1: CtxSched, picked: seq<Req>, bm: BlockState)
    requires c.Valid() && PickLoop(c, x.sched, []) == Ok((s1, picked)) && picked != []
    requires s1 == x.sched.(waiting := s1.waiting)
    requires AllocateBatched(c.blockSize, x.sched.bm, picked) == Ok(bm)
    requires forall r :: r in picked ==> r.id in bm.table
    ensures CtxSubmit(c, x) == Ok(CtxPushed(c, x, s1.waiting, picked, bm))
  {
  }

  /** The context engine right after `picked` was allocated and pushed. */
  function CtxPushed(c: Config, x: Ctx, rest: seq<Req>, picked: seq<Req>, bm: BlockState): Ctx
    requires c.Valid()
  {
    Ctx(x.sched.(waiting := rest, onFly := x.sched.onFly + Sum(InNeedF(c.blockSize), picked), bm := bm),
        Grow(x.pipeline, picked), x.futures + [Some(CallOf(bm, picked))], true)
  }

  lemma PickedInv(c: Config, x: Ctx, rest: seq<Req>, picked: seq<Req>, bm: BlockState)
    requires CtxInv(c, x) && !x.submitted && picked != [] && AllFresh(picked)
    requires picked + rest == x.sched.waiting && Intact(c, bm)
    requires Grown(c, x.sched.bm, bm, x.pipeline, picked, x.sched.unaccepted, picked)
    ensures CtxInv(c, CtxPushed(c, x, rest, picked, bm))
    ensures IdSet(rest) + bm.table.Keys == IdSet(x.sched.waiting) + x.sched.bm.table.Keys
  {
    var x1 := CtxPushed(c, x, rest, picked, bm);
    CtxFlightsSnoc(c, x, x1.sched, Batch(picked, true), Some(CallOf(bm, picked)));
    PickedApart(x.sched.bm, bm, x.sched.waiting, picked, rest);
    SumBatchesSnoc(InNeedF(c.blockSize), x.pipeline, Batch(picked, true));
    assert forall r :: r in rest ==> r in x.sched.waiting;
    IdSetAppend(picked, rest);
  }

  lemma IdSetAppend(a: seq<Req>, b: seq<Req>)
    ensures IdSet(a + b) == IdSet(a) + IdSet(b)
  {
  }

  // ---------------------------------------------------------------- freeing and dispatching

  lemma ConsSum(f: Req -> nat, r: Req, rest: seq<Req>)
    ensures Sum(f, [r] + rest) == f(r) + Sum(f, rest)
  {
    assert ([r] + rest)[1..] == rest;
  }

  lemma FreeHeldCounted(bm: BlockState, p: seq<Batch>, u: seq<Req>, r: Req, gone: seq<Req>)
    requires HeldCounted(bm, p, u, [r] + gone) && bm.OnGpu(r.id)
    ensures HeldCounted(FreeBlocks(bm, r.id).value, p, u, gone)
    ensures HeldSum(IdF(r.id), p, u, gone) == 0
  {
    var bm1 := FreeBlocks(bm, r.id).value;
    ConsSum(IdF(r.id), r, gone);
    assert HeldSum(IdF(r.id), p, u, [r] + gone) == 1;
    forall id ensures HeldSum(IdF(id), p, u, gone) == if id in bm1.table then 1 else 0 {
      ConsSum(IdF(id), r, gone);
      assert HeldSum(IdF(id), p, u, [r] + gone) == if id in bm.table then 1 else 0;
    }
  }

  lemma FreeOnlyChanges(bm: BlockState, id: int)
    requires bm.OnGpu(id)
    ensures FreeBlocks(bm, id).Ok?
    ensures var bm1 := FreeBlocks(bm, id).value;
            && OnlyChanges(bm, bm1, id) && AgreeExcept(bm.table, bm1.table, id)
            && bm1.table.Keys == bm.table.Keys - {id}
            && bm1.gpu.Avail() == bm.gpu.Avail() + |bm.table[id]|
  {
  }

  lemma FreeHeld(c: Config, bm: BlockState, p: seq<Batch>, u: seq<Req>, r: Req, gone: seq<Req>)
    requires Holds(c, bm, p, u, [r] + gone)
    ensures FreeBlocks(bm, r.id).Ok?
    ensures Holds(c, FreeBlocks(bm, r.id).value, p, u, gone)
    ensures OnlyChanges(bm, FreeBlocks(bm, r.id).value, r.id)
    ensures FreeBlocks(bm, r.id).value.table.Keys == bm.table.Keys - {r.id}
  {
    assert r in [r] + gone && Sized(c, bm, [r] + gone);
    FreeHeldCounted(bm, p, u, r, gone);
    FreeOnlyChanges(bm, r.id);
    var bm1 := FreeBlocks(bm, r.id).value;
    assert Sized(c, bm, gone) by {
      assert forall q :: q in gone ==> q in [r] + gone;
    }
    HeldPlacedUntouched(c, bm, bm1, r.id, p, u, gone);
    HeldSumUntouched(bm.table, bm1.table, r.id, p, u, gone);
    ConsSum(HeldF(bm.table), r, gone);
  }

  function Reqs(ms: seq<Mig>): (rs: seq<Req>)
    ensures |rs| == |ms| && forall i :: 0 <= i < |ms| ==> rs[i] == ms[i].req
  {
    seq(|ms|, i requires 0 <= i < |ms| => ms[i].req)
  }

  /** The block list a bridge entry carries is the request's table on the context side. */
  ghost predicate Indexed(bm: BlockState, ms: seq<Mig>) {
    forall m :: m in ms ==> m.req.id in bm.table && bm.table[m.req.id] == m.blockIndexes
  }

  /** bm1 has some of the tables of bm. */
  ghost predicate Within(bm: BlockState, bm1: BlockState) {
    forall x :: x in bm1.table ==> x in bm.table && bm1.table[x] == bm.table[x]
  }

  ghost predicate Dispatched(c: Config, bm: BlockState, p: seq<Batch>, u: seq<Req>, rs: seq<Req>,
                             bm1: BlockState, migs: seq<Mig>)
  {
    Holds(c, bm1, p, u, []) && Intact(c, bm1) && Within(bm, bm1)
    && Reqs(migs) == Unfinished(rs) && Indexed(bm1, migs)
  }

  lemma DispatchedFreed(c: Config, bm: BlockState, p: seq<Batch>, u: seq<Req>, rs: seq<Req>,
                        freed: BlockState, bm1: BlockState, migs: seq<Mig>)
    requires rs != [] && rs[0].finished && OnlyChanges(bm, freed, rs[0].id)
    requires freed.table.Keys == bm.table.Keys - {rs[0].id}
    requires Dispatched(c, freed, p, u, rs[1..], bm1, migs)
    ensures Dispatched(c, bm, p, u, rs, bm1, migs)
  {
    assert Unfinished(rs) == Unfinished(rs[1..]);
  }

  lemma IndexedCons(bm: BlockState, bm1: BlockState, m: Mig, migs: seq<Mig>)
    requires Within(bm, bm1) && Indexed(bm1, migs) && m.req.id in bm1.table
    requires bm.table[m.req.id] == m.blockIndexes
    ensures Indexed(bm1, [m] + migs) && Reqs([m] + migs) == [m.req] + Reqs(migs)
  {
  }

  lemma DispatchedLive(c: Config, bm: BlockState, p: seq<Batch>, u: seq<Req>, rs: seq<Req>,
                       bm1: BlockState, migs: seq<Mig>)
    requires rs != [] && !rs[0].finished && rs[0] in u && rs[0].id in bm.table
    requires Dispatched(c, bm, p, u, rs[1..], bm1, migs)
    ensures Dispatched(c, bm, p, u, rs, bm1, [Mig(rs[0], bm.table[rs[0].id])] + migs)
  {
    var m := Mig(rs[0], bm.table[rs[0].id]);
    SplitHead(rs);
    InHeld(c, bm1, p, u, [], rs[0]);
    IndexedCons(bm, bm1, m, migs);
  }

  lemma {:induction false} DispatchSafe(c: Config, bm: BlockState, p: seq<Batch>, u: seq<Req>, rs: seq<Req>)
    requires Holds(c, bm, p, u, Finished(rs)) && Intact(c, bm)
    requires forall r :: r in Unfinished(rs) ==> r in u
    ensures Dispatch(bm, rs).Ok?
    ensures Dispatched(c, bm, p, u, rs, Dispatch(bm, rs).value.0, Dispatch(bm, rs).value.1)
    decreases |rs|
  {
    if rs == [] {
      assert Finished(rs) == [];
    } else if rs[0].finished {
      SplitHead(rs);
      FreeHeld(c, bm, p, u, rs[0], Finished(rs[1..]));
      FreePartitioned(bm, rs[0].id, c.maxGpu, c.maxCpu);
      var freed := FreeBlocks(bm, rs[0].id).value;
      DispatchSafe(c, freed, p, u, rs[1..]);
      var (bm1, migs) := Dispatch(freed, rs[1..]).value;
      DispatchedFreed(c, bm, p, u, rs, freed, bm1, migs);
    } else {
      SplitHead(rs);
      assert Finished(rs) == Finished(rs[1..]);
      InHeld(c, bm, p, u, Finished(rs), rs[0]);
      DispatchSafe(c, bm, p, u, rs[1..]);
      var (bm1, migs) := Dispatch(bm, rs[1..]).value;
      DispatchedLive(c, bm, p, u, rs, bm1, migs);
    }
  }

  lemma InHeld(c: Config, bm: BlockState, p: seq<Batch>, u: seq<Req>, gone: seq<Req>, r: Req)
    requires Holds(c, bm, p, u, gone) && r in u
    ensures r.id in bm.table
  {
    assert Sized(c, bm, u);
  }

  // ---------------------------------------------------------------- returning

  /** A fresh request after its first token: still prompt-sized, and live unless finished. */
  lemma FirstToken(c: Config, bm: BlockState, before: seq<Req>, tokens: seq<Token>)
    requires c.Valid() && Sized(c, bm, before) && AllFresh(before) && |tokens| == |before|
    ensures AddTokens(before, tokens).Ok?
    ensures var rs := AddTokens(before, tokens).value;
            && |rs| == |before|
            && (forall i :: 0 <= i < |rs| ==> rs[i].id == before[i].id && rs[i].prompt == before[i].prompt)
            && Sized(c, bm, rs) && AllLive(Unfinished(rs))
  {
    AddTokensSpec(before, tokens);
    var rs := AddTokens(before, tokens).value;
    forall i | 0 <= i < |rs|
      ensures rs[i].id == before[i].id && rs[i].prompt == before[i].prompt
      ensures bm.OnGpu(rs[i].id) && |bm.table[rs[i].id]| == InNeed(rs[i], c.blockSize)
      ensures !rs[i].finished ==> Live(rs[i])
    {
      assert Extended(before[i], rs[i], tokens[i]) && before[i] in before;
    }
    forall r | r in rs
      ensures bm.OnGpu(r.id) && |bm.table[r.id]| == InNeed(r, c.blockSize) && (!r.finished ==> Live(r))
    {
      var i :| 0 <= i < |rs| && rs[i] == r;
    }
  }

  lemma RetiredSums(f: Req -> nat, p: seq<Batch>, u: seq<Req>, rs: seq<Req>)
    requires p != [] && |rs| == |p[0].requests|
    requires forall i :: 0 <= i < |rs| ==> f(rs[i]) == f(p[0].requests[i])
    ensures HeldSum(f, p[1..], u + Unfinished(rs), Finished(rs)) == HeldSum(f, p, u, [])
  {
    SumPointwise(f, p[0].requests, rs);
    SplitSums(f, rs);
    SumAppend(f, u, Unfinished(rs));
  }

  /** The returned batch leaves the pipeline: its live requests wait for migration. */
  lemma RetiredHolds(c: Config, bm: BlockState, p: seq<Batch>, u: seq<Req>, rs: seq<Req>)
    requires Holds(c, bm, p, u, []) && p != [] && |rs| == |p[0].requests|
    requires forall i :: 0 <= i < |rs| ==> rs[i].id == p[0].requests[i].id
    requires Sized(c, bm, rs)
    ensures Holds(c, bm, p[1..], u + Unfinished(rs), Finished(rs))
  {
    forall id ensures HeldSum(IdF(id), p[1..], u + Unfinished(rs), Finished(rs)) == if id in bm.table then 1 else 0 {
      RetiredSums(IdF(id), p, u, rs);
      assert HeldSum(IdF(id), p, u, []) == if id in bm.table then 1 else 0;
    }
    RetiredSums(HeldF(bm.table), p, u, rs);
    forall j | 0 <= j < |p[1..]| ensures Sized(c, bm, p[1..][j].requests) {
      assert Sized(c, bm, p[j + 1].requests);
    }
  }

  /** What a returned context batch hands over: the new unaccepted requests are exactly what is
      put on the bridge, in order, each with its own block table. */
  ghost predicate CtxReturned(c: Config, x: Ctx, x1: Ctx, migs: seq<Mig>) {
    && CtxInv(c, x1) && !x1.submitted
    && x1.sched.unaccepted == x.sched.unaccepted + Reqs(migs)
    && x1.sched.waiting == x.sched.waiting
    && Within(x.sched.bm, x1.sched.bm)
    && Indexed(x1.sched.bm, migs)
  }

  predicate CtxTokensFor(c: Config, x: Ctx, tokens: seq<Token>) {
    |x.futures| > 0 && CtxFull(c, x) && x.futures[0].Some? ==> |tokens| == |x.futures[0].value.ids|
  }

  lemma CtxFlightsTail(c: Config, x: Ctx, s1: CtxSched)
    requires CtxFlights(c, x) && x.pipeline != []
    requires Within(x.sched.bm, s1.bm)
    requires c.Valid() && forall j :: 0 < j < |x.pipeline| ==> Sized(c, s1.bm, x.pipeline[j].requests)
    ensures CtxFlights(c, Ctx(s1, x.pipeline[1..], x.futures[1..], false))
  {
    var x1 := Ctx(s1, x.pipeline[1..], x.futures[1..], false);
    forall i | 0 <= i < |x1.pipeline| ensures CtxFlight(x1, i) && AllFresh(x1.pipeline[i].requests) {
      assert CtxFlight(x, i + 1) && AllFresh(x.pipeline[i + 1].requests);
      assert Sized(c, s1.bm, x.pipeline[i + 1].requests);
      SameCall(x.sched.bm, s1.bm, x.pipeline[i + 1].requests);
    }
  }

  lemma WithinApart(bm: BlockState, bm1: BlockState, waiting: seq<Req>)
    requires Unallocated(bm, waiting) && Within(bm, bm1)
    ensures Unallocated(bm1, waiting)
  {
    forall id ensures Sum(IdF(id), waiting) + (if id in bm1.table then 1 else 0) <= 1 {
      assert Sum(IdF(id), waiting) + (if id in bm.table then 1 else 0) <= 1;
    }
  }

  lemma CtxReturnBatch(c: Config, x: Ctx, tokens: seq<Token>)
    requires CtxInv(c, x) && x.submitted && CtxTokensFor(c, x, tokens)
    requires CtxFull(c, x) && x.futures[0].Some?
    ensures CtxReturn(c, x, tokens).Ok?
    ensures CtxReturned(c, x, CtxReturn(c, x, tokens).value.0, CtxReturn(c, x, tokens).value.1)
  {
    assert CtxFlight(x, 0) && AllFresh(x.pipeline[0].requests);
    var before := x.pipeline[0].requests;
    var u, bm := x.sched.unaccepted, x.sched.bm;
    assert Sized(c, bm, before);
    FirstToken(c, bm, before, tokens);
    var rs := AddTokens(before, tokens).value;
    RetiredHolds(c, bm, x.pipeline, u, rs);
    DispatchSafe(c, bm, x.pipeline[1..], u + Unfinished(rs), rs);
    var (bm1, migs) := Dispatch(bm, rs).value;
    CtxReturnComputes(c, x, tokens, rs, bm1, migs);
    CtxReturnInv(c, x, rs, bm1, migs);
  }

  /** The context engine after batch `rs` came back and was dispatched. */
  function Retired(c: Config, x: Ctx, rs: seq<Req>, bm: BlockState): Ctx
    requires c.Valid() && x.pipeline != [] && x.futures != []
  {
    Ctx(OnFinish(c, x.sched, rs).(bm := bm), x.pipeline[1..], x.futures[1..], false)
  }

  lemma CtxReturnComputes(c: Config, x: Ctx, tokens: seq<Token>, rs: seq<Req>, bm1: BlockState, migs: seq<Mig>)
    requires c.Valid() && |x.futures| == |x.pipeline| && CtxFull(c, x) && x.futures[0].Some?
    requires x.pipeline[0].started && AddTokens(x.pipeline[0].requests, tokens) == Ok(rs)
    requires Dispatch(x.sched.bm, rs) == Ok((bm1, migs))
    ensures CtxReturn(c, x, tokens) == Ok((Retired(c, x, rs, bm1), migs))
  {
  }

  lemma TailSized(c: Config, bm: BlockState, p: seq<Batch>, u: seq<Req>)
    requires p != [] && Holds(c, bm, p[1..], u, [])
    ensures forall j :: 0 < j < |p| ==> Sized(c, bm, p[j].requests)
  {
    forall j | 0 < j < |p| ensures Sized(c, bm, p[j].requests) {
      assert p[j] == p[1..][j - 1];
    }
  }

  lemma CtxReturnInv(c: Config, x: Ctx, rs: seq<Req>, bm1: BlockState, migs: seq<Mig>)
    requires CtxInv(c, x) && x.submitted && CtxFull(c, x)
    requires |rs| == |x.pipeline[0].requests| && AllLive(Unfinished(rs))
    requires forall i :: 0 <= i < |rs| ==> rs[i].prompt == x.pipeline[0].requests[i].prompt
    requires Dispatched(c, x.sched.bm, x.pipeline[1..], x.sched.unaccepted + Unfinished(rs), rs, bm1, migs)
    ensures CtxReturned(c, x, Retired(c, x, rs, bm1), migs)
  {
    var x1 := Retired(c, x, rs, bm1);
    TailSized(c, bm1, x.pipeline, x.sched.unaccepted + Unfinished(rs));
    CtxFlightsTail(c, x, x1.sched);
    WithinApart(x.sched.bm, bm1, x.sched.waiting);
    RetiredOnFly(c, x, rs);
    AppendLive(x.sched.unaccepted, Unfinished(rs));
  }

  lemma AppendLive(a: seq<Req>, b: seq<Req>)
    requires AllLive(a) && AllLive(b)
    ensures AllLive(a + b)
  {
  }

  lemma RetiredOnFly(c: Config, x: Ctx, rs: seq<Req>)
    requires c.Valid() && x.pipeline != [] && |rs| == |x.pipeline[0].requests|
    requires forall i :: 0 <= i < |rs| ==> rs[i].prompt == x.pipeline[0].requests[i].prompt
    ensures SumBatches(InNeedF(c.blockSize), x.pipeline)
         == Sum(InNeedF(c.blockSize), rs) + SumBatches(InNeedF(c.blockSize), x.pipeline[1..])
  {
    SumPointwise(InNeedF(c.blockSize), x.pipeline[0].requests, rs);
  }

  lemma CtxReturnSafe(c: Config, x: Ctx, tokens: seq<Token>)
    requires CtxInv(c, x) && x.submitted && CtxTokensFor(c, x, tokens)
    ensures CtxReturn(c, x, tokens).Ok?
    ensures CtxReturned(c, x, CtxReturn(c, x, tokens).value.0, CtxReturn(c, x, tokens).value.1)
  {
    if CtxFull(c, x) && x.futures[0].Some? {
      CtxReturnBatch(c, x, tokens);
    } else if CtxFull(c, x) {
      assert CtxFlight(x, 0);
      assert Unfinished([]) == [] && Finished([]) == [];
      RetiredHolds(c, x.sched.bm, x.pipeline, x.sched.unaccepted, []);
      assert x.sched.unaccepted + [] == x.sched.unaccepted;
      forall j | 0 < j < |x.pipeline| ensures Sized(c, x.sched.bm, x.pipeline[j].requests) {
      }
      CtxFlightsTail(c, x, x.sched);
    } else {
      CtxNotFull(c, x);
    }
  }

  lemma CtxNotFull(c: Config, x: Ctx)
    requires CtxInv(c, x) && !CtxFull(c, x)
    ensures CtxReturned(c, x, x.(submitted := false), [])
  {
    var x1 := x.(submitted := false);
    forall i | 0 <= i < |x1.pipeline| ensures CtxFlight(x1, i) && AllFresh(x1.pipeline[i].requests) {
      assert CtxFlight(x, i) && AllFresh(x.pipeline[i].requests);
    }
  }

  // ---------------------------------------------------------------- migration callback, arrivals

  lemma ClearMigratedSafe(c: Config, x: Ctx, m: Mig)
    requires CtxInv(c, x) && x.sched.unaccepted != [] && x.sched.unaccepted[0] == m.req
    ensures ClearMigrated(x, m).Ok?
    ensures var x1 := ClearMigrated(x, m).value;
            && CtxInv(c, x1) && x1.submitted == x.submitted
            && x1.sched.unaccepted == x.sched.unaccepted[1..]
            && x1.sched.waiting == x.sched.waiting
            && Within(x.sched.bm, x1.sched.bm)
            && x1.sched.bm.table.Keys == x.sched.bm.table.Keys - {m.req.id}
            && x1.futures == x.futures
  {
    var u, bm := x.sched.unaccepted, x.sched.bm;
    MoveToGone(c, bm, x.pipeline, u);
    FreeHeld(c, bm, x.pipeline, u[1..], m.req, []);
    FreePartitioned(bm, m.req.id, c.maxGpu, c.maxCpu);
    var bm1 := FreeBlocks(bm, m.req.id).value;
    WithinApart(x.sched.bm, bm1, x.sched.waiting);
    CtxFlightsWithin(c, x, x.sched.(bm := bm1, unaccepted := u[1..]));
    assert RemoveFirst(u, m.req.id) == u[1..];
  }

  lemma MoveToGone(c: Config, bm: BlockState, p: seq<Batch>, u: seq<Req>)
    requires Holds(c, bm, p, u, []) && u != []
    ensures Holds(c, bm, p, u[1..], [u[0]] + [])
  {
    forall f: Req -> nat ensures HeldSum(f, p, u[1..], [u[0]] + []) == HeldSum(f, p, u, []) {
      ConsSum(f, u[0], []);
    }
    forall id ensures HeldSum(IdF(id), p, u[1..], [u[0]] + []) == if id in bm.table then 1 else 0 {
      assert HeldSum(IdF(id), p, u, []) == if id in bm.table then 1 else 0;
    }
    assert u[0] in u;
    assert Sized(c, bm, u);
  }

  lemma CtxFlightsWithin(c: Config, x: Ctx, s1: CtxSched)
    requires CtxFlights(c, x) && Within(x.sched.bm, s1.bm) && c.Valid()
    requires forall j :: 0 <= j < |x.pipeline| ==> Sized(c, s1.bm, x.pipeline[j].requests)
    ensures CtxFlights(c, x.(sched := s1))
  {
    var x1 := x.(sched := s1);
    forall i | 0 <= i < |x1.pipeline| ensures CtxFlight(x1, i) && AllFresh(x1.pipeline[i].requests) {
      assert CtxFlight(x, i) && AllFresh(x.pipeline[i].requests);
      assert Sized(c, s1.bm, x.pipeline[i].requests);
      SameCall(x.sched.bm, s1.bm, x.pipeline[i].requests);
    }
  }

  lemma CtxArriveSafe(c: Config, x: Ctx, r: Req)
    requires CtxInv(c, x) && Fresh(r)
    requires r.id !in IdSet(x.sched.waiting) && r.id !in x.sched.bm.table
    ensures CtxInv(c, CtxArrive(x, r))
  {
    var x1 := CtxArrive(x, r);
    forall id ensures Sum(IdF(id), x1.sched.waiting) + (if id in x1.sched.bm.table then 1 else 0) <= 1 {
      SumSnoc(IdF(id), x.sched.waiting, r);
      IdSetCounts(x.sched.waiting, id);
      assert Sum(IdF(id), x.sched.waiting) + (if id in x.sched.bm.table then 1 else 0) <= 1;
    }
    CtxFlightsWithin(c, x, x1.sched);
  }

  lemma InitCtxInv(c: Config)
    requires c.Valid()
    ensures CtxInv(c, InitCtx(c))
  {
    InitPartitioned(c.maxGpu, c.maxCpu);
  }
}
