/** Whatever the engines do, each block manager only ever goes through its own operations, so what
    holds of every sequence of manager operations holds in every run of the system. */
module ManagerTraces {
  import opened Common
  import opened Requests
  import opened Blocks
  import opened DecodeScheduler
  import opened DecodeEngine
  import opened ContextEngine
  import opened Disaggregated
  import opened SwapHazards

  /** Some sequence of manager operations leads from one state to the other. */
  ghost predicate Reaches(blockSize: nat, s: BlockState, t: BlockState)
    requires blockSize >= 1
  {
    exists ops :: ApplyAll(blockSize, s, ops) == Ok(t)
  }

  lemma {:induction false} ApplyAllAppend(blockSize: nat, s: BlockState, a: seq<ManagerOp>, b: seq<ManagerOp>)
    requires blockSize >= 1 && ApplyAll(blockSize, s, a).Ok?
    ensures ApplyAll(blockSize, s, a + b) == ApplyAll(blockSize, ApplyAll(blockSize, s, a).value, b)
    decreases |a|
  {
    if a == [] {
      assert a + b == b;
    } else {
      ApplyAllAppend(blockSize, ApplyOp(blockSize, s, a[0]).value, a[1..], b);
      assert (a + b)[1..] == a[1..] + b;
    }
  }

  lemma ReachesTransitive(blockSize: nat, s: BlockState, t: BlockState, u: BlockState)
    requires blockSize >= 1 && Reaches(blockSize, s, t) && Reaches(blockSize, t, u)
    ensures Reaches(blockSize, s, u)
  {
    var a :| ApplyAll(blockSize, s, a) == Ok(t);
    var b :| ApplyAll(blockSize, t, b) == Ok(u);
    ApplyAllAppend(blockSize, s, a, b);
  }

  lemma ReachesSelf(blockSize: nat, s: BlockState)
    requires blockSize >= 1
    ensures Reaches(blockSize, s, s)
  {
    assert ApplyAll(blockSize, s, []) == Ok(s);
  }

  lemma ReachesOne(blockSize: nat, s: BlockState, op: ManagerOp, t: BlockState)
    requires blockSize >= 1 && ApplyOp(blockSize, s, op) == Ok(t)
    ensures Reaches(blockSize, s, t)
  {
    assert [op][1..] == [];
    assert ApplyAll(blockSize, t, []) == Ok(t);
    assert ApplyAll(blockSize, s, [op]) == Ok(t);
  }

  lemma ReachesFirst(blockSize: nat, s: BlockState, op: ManagerOp, t: BlockState, u: BlockState)
    requires blockSize >= 1 && ApplyOp(blockSize, s, op) == Ok(t) && Reaches(blockSize, t, u)
    ensures Reaches(blockSize, s, u)
  {
    ReachesOne(blockSize, s, op, t);
    ReachesTransitive(blockSize, s, t, u);
  }

  // ---------------------------------------------------------------- the loops of the engines

  lemma {:induction false} AllocatesReach(blockSize: nat, s: BlockState, rs: seq<Req>)
    requires blockSize >= 1 && AllocateBatched(blockSize, s, rs).Ok?
    ensures Reaches(blockSize, s, AllocateBatched(blockSize, s, rs).value)
    decreases |rs|
  {
    if rs == [] {
      ReachesSelf(blockSize, s);
    } else {
      var t := Allocate(blockSize, s, rs[0]).value;
      AllocatesReach(blockSize, t, rs[1..]);
      ReachesFirst(blockSize, s, Alloc(rs[0]), t, AllocateBatched(blockSize, t, rs[1..]).value);
    }
  }

  lemma {:induction false} FreesReach(blockSize: nat, s: BlockState, rs: seq<Req>)
    requires blockSize >= 1 && FreeBatched(s, rs).Ok?
    ensures Reaches(blockSize, s, FreeBatched(s, rs).value)
    decreases |rs|
  {
    if rs == [] {
      ReachesSelf(blockSize, s);
    } else {
      var t := FreeBlocks(s, rs[0].id).value;
      FreesReach(blockSize, t, rs[1..]);
      ReachesFirst(blockSize, s, Free(rs[0].id), t, FreeBatched(t, rs[1..]).value);
    }
  }

  lemma {:induction false} DispatchReaches(blockSize: nat, s: BlockState, rs: seq<Req>)
    requires blockSize >= 1 && Dispatch(s, rs).Ok?
    ensures Reaches(blockSize, s, Dispatch(s, rs).value.0)
    decreases |rs|
  {
    if rs == [] {
      ReachesSelf(blockSize, s);
    } else if rs[0].finished {
      var t := FreeBlocks(s, rs[0].id).value;
      DispatchReaches(blockSize, t, rs[1..]);
      ReachesFirst(blockSize, s, Free(rs[0].id), t, Dispatch(t, rs[1..]).value.0);
    } else {
      DispatchReaches(blockSize, s, rs[1..]);
    }
  }

  lemma {:induction false} SwapOutReaches(c: Config, s: Sched)
    requires Running(c, s) && SwapOutLoop(c, s).Ok?
    ensures Reaches(c.blockSize, s.bm, SwapOutLoop(c, s).value.bm)
    decreases |Current(c, s)|
  {
    if Overflow(c, s) {
      var s1 := SwapOutLast(c, s).value;
      SwapOutReaches(c, s1);
      var id := Current(c, s)[|Current(c, s)| - 1].id;
      ReachesFirst(c.blockSize, s.bm, Swap([id], false), s1.bm, SwapOutLoop(c, s1).value.bm);
    } else {
      ReachesSelf(c.blockSize, s.bm);
    }
  }

  lemma {:induction false} AdmitReaches(c: Config, s: Sched)
    requires Running(c, s) && AdmitLoop(c, s).Ok?
    ensures Reaches(c.blockSize, s.bm, AdmitLoop(c, s).value.bm)
    decreases |s.swapped| + |s.waiting|
  {
    ReachesSelf(c.blockSize, s.bm);
    if s.swapped != [] {
      if CheckAdd(c, s, s.swapped[0]) {
        var s1 := SwapInHead(c, s).value;
        AdmitReaches(c, s1);
        ReachesFirst(c.blockSize, s.bm, Swap([s.swapped[0].id], true), s1.bm, AdmitLoop(c, s1).value.bm);
      }
    } else if s.waiting != [] {
      if CheckAdd(c, s, s.waiting[0]) {
        AdmitReaches(c, AdmitHead(c, s).value);
      }
    }
  }

  // ---------------------------------------------------------------- the steps

  lemma NextBatchReaches(c: Config, s: Sched)
    requires Shape(c, s) && GetNextBatch(c, s).Ok?
    ensures Reaches(c.blockSize, s.bm, GetNextBatch(c, s).value.bm)
  {
    var s1 := SwapOutLoop(c, Rotate(c, s)).value;
    SwapOutReaches(c, Rotate(c, s));
    AdmitReaches(c, s1);
    ReachesTransitive(c.blockSize, s.bm, s1.bm, AdmitLoop(c, s1).value.bm);
  }

  lemma DecSubmitReaches(c: Config, d: Dec)
    requires Shape(c, d.sched) && Submit(c, d).Ok?
    ensures Reaches(c.blockSize, d.sched.bm, Submit(c, d).value.sched.bm)
  {
    var s := GetNextBatch(c, d.sched).value;
    NextBatchReaches(c, d.sched);
    if s.batches[s.cur].requests != [] {
      AllocatesReach(c.blockSize, s.bm, s.batches[s.cur].requests);
      ReachesTransitive(c.blockSize, d.sched.bm, s.bm, Submit(c, d).value.sched.bm);
    }
  }

  lemma DecReturnReaches(c: Config, d: Dec, ts: seq<Token>)
    requires IndicesOk(c, d) && Return(c, d, ts).Ok?
    ensures Reaches(c.blockSize, d.sched.bm, Return(c, d, ts).value.sched.bm)
  {
    ReachesSelf(c.blockSize, d.sched.bm);
    if Full(c, d) && d.futures[0].Some? {
      var j := d.pipeline[0];
      var s1 := d.sched.(batches := d.sched.batches[j := FinishIteration(d.sched.batches[j], ts).value]);
      FreesReach(c.blockSize, d.sched.bm, Finished(s1.batches[Next(s1.cur, c.pp)].requests));
    }
  }

  lemma CtxSubmitReaches(c: Config, x: Ctx)
    requires c.Valid() && CtxSubmit(c, x).Ok?
    ensures Reaches(c.blockSize, x.sched.bm, CtxSubmit(c, x).value.sched.bm)
  {
    PickKeepsManager(c, x.sched, []);
    var (s, picked) := NextBatchAndPop(c, x.sched).value;
    ReachesSelf(c.blockSize, s.bm);
    if picked != [] {
      AllocatesReach(c.blockSize, s.bm, picked);
    }
  }

  lemma {:induction false} PickKeepsManager(c: Config, s: CtxSched, picked: seq<Req>)
    requires c.Valid() && PickLoop(c, s, picked).Ok?
    ensures PickLoop(c, s, picked).value.0.bm == s.bm
    decreases |s.waiting|
  {
    if s.waiting != [] && CheckPick(c, s, picked, s.waiting[0]) {
      PickKeepsManager(c, s.(waiting := s.waiting[1..]), picked + [s.waiting[0]]);
    }
  }

  lemma CtxReturnReaches(c: Config, x: Ctx, ts: seq<Token>)
    requires c.Valid() && |x.futures| == |x.pipeline| && CtxReturn(c, x, ts).Ok?
    ensures Reaches(c.blockSize, x.sched.bm, CtxReturn(c, x, ts).value.0.sched.bm)
  {
    ReachesSelf(c.blockSize, x.sched.bm);
    if CtxFull(c, x) && x.futures[0].Some? {
      DispatchReaches(c.blockSize, x.sched.bm, FinishIteration(x.pipeline[0], ts).value.requests);
    }
  }

  lemma MigrateBeginReaches(c: Config, d: Dec)
    requires c.Valid() && d.sched.unaccepted != [] && MigrateBegin(c, d).Ok?
    ensures Reaches(c.blockSize, d.sched.bm, MigrateBegin(c, d).value.sched.bm)
  {
    ReachesOne(c.blockSize, d.sched.bm, Alloc(d.sched.unaccepted[0].req.(output := [])),
               MigrateBegin(c, d).value.sched.bm);
  }

  lemma ClearReaches(c: Config, x: Ctx, m: Mig)
    requires c.Valid() && ClearMigrated(x, m).Ok?
    ensures Reaches(c.blockSize, x.sched.bm, ClearMigrated(x, m).value.sched.bm)
  {
    ReachesOne(c.blockSize, x.sched.bm, Free(m.req.id), ClearMigrated(x, m).value.sched.bm);
  }

  /** Every event takes both managers through manager operations only. */
  lemma StepReaches(c: SysConfig, s: Sys, e: Event)
    requires Typed(c, s) && Enabled(c, s, e) && Step(c, s, e).Ok?
    ensures Reaches(c.ctx.blockSize, s.ctx.sched.bm, Step(c, s, e).value.ctx.sched.bm)
    ensures Reaches(c.dec.blockSize, s.dec.sched.bm, Step(c, s, e).value.dec.sched.bm)
  {
    ReachesSelf(c.ctx.blockSize, s.ctx.sched.bm);
    ReachesSelf(c.dec.blockSize, s.dec.sched.bm);
    match e
    case CtxStep => CtxSubmitReaches(c.ctx, s.ctx);
    case CtxBack(ts) => CtxReturnReaches(c.ctx, s.ctx, ts);
    case DecStep => DecSubmitReaches(c.dec, s.dec);
    case DecBack(ts) => DecReturnReaches(c.dec, s.dec, ts);
    case MigBegin => MigrateBeginReaches(c.dec, s.dec);
    case MigEnd => ClearReaches(c.ctx, s.ctx, s.dec.phase.mig);
    case _ =>
  }

  lemma {:induction false} RunReaches(c: SysConfig, s: Sys, es: seq<Event>)
    requires Typed(c, s) && Possible(c, s, es) && Run(c, s, es).Ok?
    ensures Reaches(c.ctx.blockSize, s.ctx.sched.bm, Run(c, s, es).value.ctx.sched.bm)
    ensures Reaches(c.dec.blockSize, s.dec.sched.bm, Run(c, s, es).value.dec.sched.bm)
    decreases |es|
  {
    if es == [] {
      ReachesSelf(c.ctx.blockSize, s.ctx.sched.bm);
      ReachesSelf(c.dec.blockSize, s.dec.sched.bm);
    } else {
      var t := Step(c, s, es[0]).value;
      StepReaches(c, s, es[0]);
      RunReaches(c, t, es[1..]);
      ReachesTransitive(c.ctx.blockSize, s.ctx.sched.bm, t.ctx.sched.bm, Run(c, s, es).value.ctx.sched.bm);
      ReachesTransitive(c.dec.blockSize, s.dec.sched.bm, t.dec.sched.bm, Run(c, s, es).value.dec.sched.bm);
    }
  }

  lemma ReachedIsHazardFree(blockSize: nat, s: BlockState, maxGpu: nat, maxCpu: nat)
    requires blockSize >= 1 && Reaches(blockSize, InitState(maxGpu, maxCpu), s)
    ensures HazardInv(s, maxGpu, maxCpu)
  {
    var ops :| ApplyAll(blockSize, InitState(maxGpu, maxCpu), ops) == Ok(s);
    ManagerIsHazardFree(blockSize, ops, maxGpu, maxCpu);
  }

  /** In every run of the system, on both sides, each block id is in exactly one place, blocks an
      unfinished swap may still be reading are handed to nobody, and no swap ever writes one. */
  lemma RunsAreHazardFree(c: SysConfig, es: seq<Event>)
    requires c.Valid() && Typed(c, Init(c)) && Possible(c, Init(c), es) && Run(c, Init(c), es).Ok?
    ensures var s := Run(c, Init(c), es).value;
            && HazardInv(s.ctx.sched.bm, c.ctx.maxGpu, c.ctx.maxCpu)
            && HazardInv(s.dec.sched.bm, c.dec.maxGpu, c.dec.maxCpu)
  {
    RunReaches(c, Init(c), es);
    var s := Run(c, Init(c), es).value;
    ReachedIsHazardFree(c.ctx.blockSize, s.ctx.sched.bm, c.ctx.maxGpu, c.ctx.maxCpu);
    ReachedIsHazardFree(c.dec.blockSize, s.dec.sched.bm, c.dec.maxGpu, c.dec.maxCpu);
  }

  /** In every run, no block of a live request, on either side and either device, may still be read
      by a swap. */
  lemma LiveTablesAreIdle(c: SysConfig, es: seq<Event>, id: int, loc: Location, b: nat)
    requires c.Valid() && Typed(c, Init(c)) && Possible(c, Init(c), es) && Run(c, Init(c), es).Ok?
    ensures var bm := Run(c, Init(c), es).value.ctx.sched.bm;
            bm.At(id, loc) && b in bm.table[id] ==> b !in MayRead(bm.calls, loc)
    ensures var bm := Run(c, Init(c), es).value.dec.sched.bm;
            bm.At(id, loc) && b in bm.table[id] ==> b !in MayRead(bm.calls, loc)
  {
    RunsAreHazardFree(c, es);
    IdleAt(Run(c, Init(c), es).value.ctx.sched.bm, c.ctx.maxGpu, c.ctx.maxCpu, id, loc, b);
    IdleAt(Run(c, Init(c), es).value.dec.sched.bm, c.dec.maxGpu, c.dec.maxCpu, id, loc, b);
  }

  lemma IdleAt(bm: BlockState, maxGpu: nat, maxCpu: nat, id: int, loc: Location, b: nat)
    requires HazardInv(bm, maxGpu, maxCpu)
    ensures bm.At(id, loc) && b in bm.table[id] ==> b !in MayRead(bm.calls, loc)
  {
    if bm.At(id, loc) && b in bm.table[id] {
      TablesAreIdle(bm, maxGpu, maxCpu, id, loc, b);
    }
  }
}
