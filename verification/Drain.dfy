/** When the two engines can be emptied: what is left at rest, for want of what, and conditions on
    the requests and the configuration under which nothing is. */
module Drain {
  import opened Common
  import opened Sums
  import opened Requests
  import opened Blocks
  import opened DecodeScheduler
  import opened DecodeEngine
  import opened ContextEngine
  import opened Disaggregated
  import opened CpuShortage
  import opened Conservation
  import opened DecodeStuck
  import opened Delivery
  import opened Work
  import opened Progress

  // ---------------------------------------------------------------- at rest for ever

  lemma RestingContextStep(c: Config, x: Ctx)
    requires CtxInv(c, x) && !x.submitted && ContextRests(c, x)
    ensures CtxSubmit(c, x).Ok?
    ensures CtxSubmit(c, x).value.sched == x.sched && ContextRests(c, CtxSubmit(c, x).value)
  {
  }

  lemma RestingContextBack(c: Config, x: Ctx, ts: seq<Token>)
    requires CtxInv(c, x) && x.submitted && ContextRests(c, x)
    ensures !(CtxFull(c, x) && x.futures[0].Some?)
    ensures CtxReturn(c, x, ts).Ok? && CtxReturn(c, x, ts).value.1 == []
    ensures ContextRests(c, CtxReturn(c, x, ts).value.0)
  {
    if CtxFull(c, x) {
      assert CtxFlight(x, 0);
    }
    CtxIdleShape(c, x, ts);
  }

  lemma RestingSubmit(c: Config, d: Dec)
    requires DecInv(c, d) && d.phase.Idle? && DecodingRests(c, d.sched)
    ensures Submit(c, d).Ok? && Submit(c, d).value.phase.Submitted? && !Stirs(c, d)
    ensures Submit(c, d).value.sched == Rotate(c, d.sched)
  {
    EmptyCall(c, d.sched);
    assert AdmitLoop(c, Rotate(c, d.sched)) == Ok(Rotate(c, d.sched));
  }

  lemma RestingReturn(c: Config, d: Dec, ts: seq<Token>)
    requires DecInv(c, d) && d.phase.Submitted? && NobodyRuns(d.sched)
    ensures !(Full(c, d) && d.futures[0].Some?)
    ensures Return(c, d, ts).Ok? && Return(c, d, ts).value.sched == d.sched && Return(c, d, ts).value.phase.Accepting?
  {
    if Full(c, d) {
      assert InFlight(d, 0);
    }
    DecIdleShape(c, d, ts);
  }

  lemma ContextStillResting(c: SysConfig, s: Sys, t: Sys)
    requires c.Valid() && AtRest(c, s) && t.dec == s.dec && t.bridge == s.bridge && ContextRests(c.ctx, t.ctx)
    ensures AtRest(c, t)
  {
  }

  lemma RestingPick(c: SysConfig, s: Sys)
    requires Inv(c, s) && Typed(c, s) && Enabled(c, s, CtxStep) && AtRest(c, s)
    ensures Step(c, s, CtxStep).Ok? && !Productive(c, s, CtxStep) && AtRest(c, Step(c, s, CtxStep).value)
  {
    RestingContextStep(c.ctx, s.ctx);
    ContextStillResting(c, s, Step(c, s, CtxStep).value);
  }

  lemma RestingBack(c: SysConfig, s: Sys, ts: seq<Token>)
    requires Inv(c, s) && Typed(c, s) && Enabled(c, s, CtxBack(ts)) && AtRest(c, s)
    ensures Step(c, s, CtxBack(ts)).Ok? && !Productive(c, s, CtxBack(ts)) && AtRest(c, Step(c, s, CtxBack(ts)).value)
  {
    RestingContextBack(c.ctx, s.ctx, ts);
    CtxBackComputes(c, s, ts);
    ContextStillResting(c, s, Step(c, s, CtxBack(ts)).value);
  }

  lemma RestingContext(c: SysConfig, s: Sys, e: Event)
    requires Inv(c, s) && Typed(c, s) && Enabled(c, s, e) && AtRest(c, s) && (e.CtxStep? || e.CtxBack?)
    ensures Step(c, s, e).Ok? && !Productive(c, s, e) && AtRest(c, Step(c, s, e).value)
  {
    if e.CtxStep? {
      RestingPick(c, s);
    } else {
      RestingBack(c, s, e.tokens);
    }
  }

  /** The decoding queues of s, with another index or in another phase. */
  predicate SameQueues(s: Sched, t: Sched) { t == s.(cur := t.cur) }

  lemma StillResting(c: SysConfig, s: Sys, t: Sys)
    requires c.Valid() && AtRest(c, s) && t.ctx == s.ctx && t.bridge == s.bridge
    requires SameQueues(s.dec.sched, t.dec.sched) && !t.dec.phase.Migrating?
    ensures AtRest(c, t)
  {
  }

  lemma RestingDecoding(c: SysConfig, s: Sys, e: Event)
    requires Inv(c, s) && Typed(c, s) && Enabled(c, s, e) && AtRest(c, s) && (e.DecStep? || e.DecBack? || e.DecDone?)
    ensures Step(c, s, e).Ok? && !Productive(c, s, e) && AtRest(c, Step(c, s, e).value)
  {
    if e.DecStep? {
      RestingSubmit(c.dec, s.dec);
      DecStepComputes(c, s);
    } else if e.DecBack? {
      RestingReturn(c.dec, s.dec, e.tokens);
      DecBackComputes(c, s, e.tokens);
    }
    StillResting(c, s, Step(c, s, e).value);
  }

  lemma RestStep(c: SysConfig, s: Sys, e: Event)
    requires Inv(c, s) && Typed(c, s) && Enabled(c, s, e) && AtRest(c, s) && !e.Arrive?
    ensures Step(c, s, e).Ok? && !Productive(c, s, e) && AtRest(c, Step(c, s, e).value)
  {
    if e.CtxStep? || e.CtxBack? {
      RestingContext(c, s, e);
    } else {
      RestingDecoding(c, s, e);
    }
  }

  /** At rest, and until somebody arrives: no exception, and nobody ever changes place. */
  lemma {:induction false} RestIsFinal(c: SysConfig, s: Sys, es: seq<Event>)
    requires Inv(c, s) && Typed(c, s) && AtRest(c, s) && Possible(c, s, es) && NoArrivals(es)
    ensures Run(c, s, es).Ok? && AtRest(c, Run(c, s, es).value) && MovesIn(c, s, es) == 0
    decreases |es|
  {
    if es != [] {
      RestStep(c, s, es[0]);
      StepInv(c, s, es[0]);
      RestIsFinal(c, Step(c, s, es[0]).value, es[1..]);
    }
  }

  // ---------------------------------------------------------------- what is left at rest

  /** The context engine could not prefill it, though it had nothing else to do. */
  predicate Unpickable(c: Config, r: Req)
    requires c.Valid()
  {
    c.maxBatchSize <= 0 || |r.prompt| > c.maxTokensPerBatch || InNeed(r, c.blockSize) > c.maxGpu
  }

  /** The decoding engine would not accept it, though it had nothing else to do. */
  predicate Unacceptable(c: Config, r: Req)
    requires c.Valid()
  {
    c.maxGpu as real * c.waitingThreshold <= 0.0 || InNeed(r, c.blockSize) > c.maxGpu
  }

  lemma EmptyDecoding(c: Config, d: Dec)
    requires DecInv(c, d) && !d.phase.Migrating? && NobodyRuns(d.sched) && !Queued(d.sched)
    ensures d.sched.bm.gpu.Avail() == c.maxGpu
  {
    SumBatchesEmpty(HeldF(d.sched.bm.table), d.sched.batches);
  }

  lemma RestingHead(c: SysConfig, s: Sys)
    requires Inv(c, s) && AtRest(c, s) && !Queued(s.dec.sched) && s.dec.sched.unaccepted != []
    ensures Unacceptable(c.dec, s.dec.sched.unaccepted[0].req)
  {
    EmptyDecoding(c.dec, s.dec);
  }

  lemma NobodyOnFly(c: Config, x: Ctx)
    requires CtxInv(c, x) && NobodyIn(x.pipeline)
    ensures x.sched.onFly == 0
  {
    SumBatchesEmpty(InNeedF(c.blockSize), x.pipeline);
  }

  lemma RestingPrompt(c: Config, x: Ctx)
    requires CtxInv(c, x) && ContextRests(c, x) && x.sched.unaccepted == [] && x.sched.waiting != []
    ensures Unpickable(c, x.sched.waiting[0])
  {
    var r := x.sched.waiting[0];
    NobodyOnFly(c, x);
    assert [] + [r] == [r];
    SumOne(InNeedF(c.blockSize), r);
    assert Fresh(r);
  }

  lemma NobodyLeft(c: SysConfig, s: Sys)
    requires Inv(c, s) && AtRest(c, s) && !Queued(s.dec.sched)
    requires s.ctx.sched.unaccepted == [] && s.ctx.sched.waiting == []
    ensures Everyone(s) == []
  {
    EmptyFlatten(s.ctx.pipeline);
    EmptyFlatten(s.dec.sched.batches);
  }

  /** Everybody past prefill waits in the decoding engine's queue of unaccepted requests. */
  lemma PendingAtRest(c: SysConfig, s: Sys)
    requires Inv(c, s) && AtRest(c, s)
    ensures Reqs(s.dec.sched.unaccepted) == s.ctx.sched.unaccepted
  {
    assert Pending(s) == s.dec.sched.unaccepted;
  }

  /** At rest, either everybody has left, or the decoding queues are stuck, or they are empty and the
      first pending request is unacceptable, or nobody is pending either and the first prompt is
      unpickable. */
  lemma LeftAtRest(c: SysConfig, s: Sys)
    requires Inv(c, s) && AtRest(c, s)
    ensures if Queued(s.dec.sched) then Stuck(c.dec, s.dec.sched)
            else if s.ctx.sched.unaccepted != [] then Unacceptable(c.dec, s.ctx.sched.unaccepted[0])
            else if s.ctx.sched.waiting != [] then Unpickable(c.ctx, s.ctx.sched.waiting[0])
            else Everyone(s) == []
  {
    PendingAtRest(c, s);
    if !Queued(s.dec.sched) {
      if s.ctx.sched.unaccepted != [] {
        RestingHead(c, s);
      } else if s.ctx.sched.waiting != [] {
        RestingPrompt(c.ctx, s.ctx);
      } else {
        NobodyLeft(c, s);
      }
    }
  }

  // ---------------------------------------------------------------- what tokens do not change

  /** A weight that depends on what was asked for alone. */
  ghost predicate Static(f: Req -> nat) {
    forall r: Req, output, finished {:trigger r.(output := output, finished := finished)} ::
      f(r.(output := output, finished := finished)) == f(r)
  }

  lemma StaticReturned(f: Req -> nat, b: seq<Req>, a: seq<Req>, ts: seq<Token>)
    requires Static(f) && |b| == |a| == |ts| && forall i :: 0 <= i < |b| ==> Extended(b[i], a[i], ts[i])
    ensures Sum(f, Unfinished(a)) <= Sum(f, b)
  {
    forall i | 0 <= i < |b| ensures f(b[i]) == f(a[i]) {
      assert Extended(b[i], a[i], ts[i]);
      assert a[i] == b[i].(output := a[i].output, finished := a[i].finished);
    }
    SumPointwise(f, b, a);
    SplitSums(f, a);
  }

  lemma StaticStep(f: Req -> nat, c: SysConfig, s: Sys, e: Event)
    requires Inv(c, s) && Enabled(c, s, e) && Step(c, s, e).Ok? && Static(f)
    ensures Sum(f, Everyone(Step(c, s, e).value)) <= Sum(f, Everyone(s)) + NewSum(f, e)
  {
    if Batch0(c, s, e) == [] {
      OtherSums(f, c, s, e);
    } else {
      TokensAccepted(c, s, e);
      TokensPairWithCall(c, s, e);
      BackSums(f, c, s, e);
      StaticReturned(f, Batch0(c, s, e), Batch1(c, s, e), TokensOfEvent(e));
    }
  }

  lemma {:induction false} StaticRun(f: Req -> nat, c: SysConfig, s: Sys, es: seq<Event>)
    requires Inv(c, s) && Typed(c, s) && Possible(c, s, es) && Static(f)
    ensures Run(c, s, es).Ok? ==>
              Inv(c, Run(c, s, es).value)
              && Sum(f, Everyone(Run(c, s, es).value)) <= Sum(f, Everyone(s)) + Sum(f, Arrived(es))
    decreases |es|
  {
    if es != [] && Step(c, s, es[0]).Ok? {
      StepInv(c, s, es[0]);
      StaticStep(f, c, s, es[0]);
      StaticRun(f, c, Step(c, s, es[0]).value, es[1..]);
      ArrivedSum(f, es);
    }
  }

  // ---------------------------------------------------------------- enough CPU blocks

  /** Blocks for all the tokens a request may ever store: its last one is returned and not stored. */
  function MaxNeed(r: Req, blockSize: nat): nat
    requires blockSize >= 1
  {
    BlocksFor(|r.prompt| + (if r.sampling.maxTokens < 1 then 0 else r.sampling.maxTokens - 1), blockSize)
  }

  function MaxNeedF(blockSize: nat): Req -> nat
    requires blockSize >= 1
  {
    (r: Req) => MaxNeed(r, blockSize)
  }

  /** The CPU could take everybody who is in the system. */
  predicate EnoughCpu(c: SysConfig, s: Sys)
    requires c.Valid()
  {
    Sum(MaxNeedF(c.dec.blockSize), Everyone(s)) <= c.dec.maxCpu
  }

  lemma {:induction false} TablesHold(m: map<int, seq<nat>>, rs: seq<Req>)
    requires forall id :: id in m <==> Sum(IdF(id), rs) >= 1
    requires forall id {:trigger IdF(id)} :: Sum(IdF(id), rs) <= 1
    ensures |BlocksOf(m)| == Sum(HeldF(m), rs)
    decreases |rs|
  {
    if rs == [] {
      forall id ensures id !in m {
        assert Sum(IdF(id), rs) == 0;
      }
      assert m == map[];
    } else {
      var id := rs[0].id;
      forall x ensures Sum(IdF(x), rs) == (if x == id then 1 else 0) + Sum(IdF(x), rs[1..]) {
      }
      BlocksOfRemove(m, id);
      TablesHold(m - {id}, rs[1..]);
      AbsentId(id, rs[1..]);
      SumAgree(HeldF(m), HeldF(m - {id}), rs[1..]);
    }
  }

  /** The tables on the CPU are those of the swapped queue. */
  lemma SwappedTables(c: Config, s: Sched, mig: seq<Req>, open: int, id: int)
    requires SchedInv(c, s, mig, open)
    ensures id in TablesAt(s.bm, CPU) <==> Sum(IdF(id), s.swapped) >= 1
    ensures Sum(IdF(id), s.swapped) <= 1
  {
    assert AllSum(IdF(id), s, mig) == if id in s.bm.table then 1 else 0;
    if Sum(IdF(id), s.swapped) >= 1 {
      var k := MemberOfId(s.swapped, id);
      assert s.swapped[k] in s.swapped;
    } else if id in s.bm.table {
      OnGpuQueued(c, s, mig, open, id);
    }
  }

  lemma OnGpuQueued(c: Config, s: Sched, mig: seq<Req>, open: int, id: int)
    requires c.Valid() && Placed(c, s, mig, open) && GpuSum(IdF(id), s, mig) >= 1
    ensures s.bm.OnGpu(id)
  {
    if Sum(IdF(id), s.waiting) >= 1 {
      var k := MemberOfId(s.waiting, id);
      assert s.waiting[k] in s.waiting;
    } else if Sum(IdF(id), mig) >= 1 {
      var k := MemberOfId(mig, id);
      assert mig[k] in mig;
    } else {
      var j, k := MemberOfBatches(s.batches, id);
      assert BatchPlaced(c, s.bm, s.batches[j].requests, j != open);
      assert s.batches[j].requests[k] in s.batches[j].requests;
    }
  }

  lemma {:induction false} MemberOfBatches(bs: seq<Batch>, id: int) returns (j: nat, k: nat)
    requires SumBatches(IdF(id), bs) >= 1
    ensures j < |bs| && k < |bs[j].requests| && bs[j].requests[k].id == id
    decreases |bs|
  {
    if Sum(IdF(id), bs[0].requests) >= 1 {
      j := 0;
      k := MemberOfId(bs[0].requests, id);
    } else {
      j, k := MemberOfBatches(bs[1..], id);
      j := j + 1;
    }
  }

  /** The CPU's blocks not available are exactly those the swapped queue accounts for. */
  lemma CpuBalanced(c: Config, s: Sched, mig: seq<Req>, open: int)
    requires SchedInv(c, s, mig, open) && Partitioned(s.bm, c.maxGpu, c.maxCpu)
    ensures s.bm.cpu.Avail() + Sum(HeldF(s.bm.table), s.swapped) == c.maxCpu
  {
    var m := TablesAt(s.bm, CPU);
    forall id ensures (id in m <==> Sum(IdF(id), s.swapped) >= 1) && Sum(IdF(id), s.swapped) <= 1 {
      SwappedTables(c, s, mig, open, id);
    }
    TablesHold(m, s.swapped);
    forall r | r in s.swapped ensures HeldF(m)(r) == HeldF(s.bm.table)(r) {
      assert Evicted(c, s.bm, r);
    }
    SumAgree(HeldF(m), HeldF(s.bm.table), s.swapped);
    assert PoolOk(s.bm, CPU, c.maxCpu);
    CpuCount(s.bm, c.maxCpu);
  }

  lemma CpuCount(s: BlockState, max: nat)
    requires PoolOk(s, CPU, max)
    ensures s.cpu.Avail() + |BlocksOf(TablesAt(s, CPU))| == max
  {
    assert |Universe(max)| == max;
    assert |multiset(s.cpu.free) + multiset(s.cpu.swapping) + BlocksOf(TablesAt(s, CPU))| == max;
  }

  /** The victims are requests of the batch. */
  lemma {:induction false} EvictedBelowHeld(c: Config, s: Sched)
    requires Running(c, s)
    ensures EvictedBlocks(c, s) <= Sum(HeldF(s.bm.table), Current(c, s))
    decreases |Current(c, s)|
  {
    if Overflow(c, s) && Current(c, s) != [] {
      SumLast(HeldF(s.bm.table), Current(c, s));
      EvictedBelowHeld(c, Popped(c, s));
    }
  }

  lemma HeldBelowMax(c: Config, bm: BlockState, r: Req)
    requires c.Valid() && Live(r) && |TableOf(bm, r.id)| <= Need(r, c.blockSize)
    ensures HeldF(bm.table)(r) <= MaxNeedF(c.blockSize)(r)
  {
    BlocksForMonotone(|r.prompt| + |r.output|, |r.prompt| + r.sampling.maxTokens - 1, c.blockSize);
  }

  lemma RunningBelowMax(c: Config, s: Sched, open: int, n: nat)
    requires SchedInv(c, s, [], open) && n < |s.batches|
    ensures Sum(HeldF(s.bm.table), s.batches[n].requests) + Sum(HeldF(s.bm.table), s.swapped)
         <= AllSum(MaxNeedF(c.blockSize), s, [])
  {
    forall r | r in s.batches[n].requests ensures HeldF(s.bm.table)(r) <= MaxNeedF(c.blockSize)(r) {
      assert BatchPlaced(c, s.bm, s.batches[n].requests, n != open);
      HeldBelowMax(c, s.bm, r);
    }
    forall r | r in s.swapped ensures HeldF(s.bm.table)(r) <= MaxNeedF(c.blockSize)(r) {
      assert Evicted(c, s.bm, r);
      HeldBelowMax(c, s.bm, r);
    }
    SumBelow(HeldF(s.bm.table), MaxNeedF(c.blockSize), s.batches[n].requests);
    SumBelow(HeldF(s.bm.table), MaxNeedF(c.blockSize), s.swapped);
    SumBatchesMember(MaxNeedF(c.blockSize), s.batches, n);
  }

  lemma EnoughToEvict(c: Config, d: Dec)
    requires DecInv(c, d) && d.phase.Idle? && AllSum(MaxNeedF(c.blockSize), d.sched, []) <= c.maxCpu
    ensures EvictedBlocks(c, Rotate(c, d.sched)) <= d.sched.bm.cpu.Avail()
  {
    var open := Next(d.sched.cur, c.pp);
    CpuBalanced(c, d.sched, [], open);
    RunningBelowMax(c, d.sched, open, open);
    EvictedBelowHeld(c, Rotate(c, d.sched));
  }

  lemma MaxNeedStatic(blockSize: nat)
    requires blockSize >= 1
    ensures Static(MaxNeedF(blockSize))
  {
  }

  lemma EnoughForStep(c: SysConfig, s: Sys)
    requires Inv(c, s) && Enabled(c, s, DecStep) && EnoughCpu(c, s)
    ensures Step(c, s, DecStep).Ok?
  {
    var f := MaxNeedF(c.dec.blockSize);
    SystemParts(f, s);
    DecodingParts(f, s.dec.sched);
    EnoughToEvict(c.dec, s.dec);
    DecodingStepFailsIff(c, s);
  }

  /** With enough CPU blocks no event raises anything, and there stay enough until somebody arrives. */
  lemma EnoughStep(c: SysConfig, s: Sys, e: Event)
    requires Inv(c, s) && Typed(c, s) && Enabled(c, s, e) && !e.Arrive? && EnoughCpu(c, s)
    ensures Step(c, s, e).Ok? && Inv(c, Step(c, s, e).value) && EnoughCpu(c, Step(c, s, e).value)
  {
    StepInv(c, s, e);
    if e.DecStep? {
      EnoughForStep(c, s);
    }
    MaxNeedStatic(c.dec.blockSize);
    StaticStep(MaxNeedF(c.dec.blockSize), c, s, e);
  }

  lemma EnoughNext(c: SysConfig, s: Sys, e: Event) returns (t: Sys)
    requires Inv(c, s) && Typed(c, s) && Enabled(c, s, e) && !e.Arrive? && EnoughCpu(c, s)
    ensures Step(c, s, e) == Ok(t) && Inv(c, t) && Typed(c, t) && EnoughCpu(c, t)
  {
    EnoughStep(c, s, e);
    t := Step(c, s, e).value;
  }

  lemma {:induction false} EnoughRun(c: SysConfig, s: Sys, es: seq<Event>)
    requires Inv(c, s) && Typed(c, s) && EnoughCpu(c, s) && Possible(c, s, es) && NoArrivals(es)
    ensures Run(c, s, es).Ok?
    decreases |es|
  {
    if es != [] {
      FirstEvent(c, s, es);
      assert NoArrivals(es[1..]) && !es[0].Arrive?;
      var t := EnoughNext(c, s, es[0]);
      EnoughRun(c, t, es[1..]);
    }
  }

  // ---------------------------------------------------------------- emptying the engines

  predicate Servable(c: SysConfig, r: Req)
    requires c.Valid()
  {
    !Unpickable(c.ctx, r) && !Unacceptable(c.dec, r)
  }

  function UnservableF(c: SysConfig): Req -> nat
    requires c.Valid()
  {
    (r: Req) => if Servable(c, r) then 0 else 1
  }

  lemma UnservableStatic(c: SysConfig)
    requires c.Valid()
    ensures Static(UnservableF(c))
  {
  }

  lemma AllServable(c: SysConfig, s: Sys, r: Req)
    requires c.Valid() && Sum(UnservableF(c), Everyone(s)) == 0
    requires r in s.ctx.sched.unaccepted || r in s.ctx.sched.waiting
    ensures Servable(c, r)
  {
    assert r in Everyone(s);
    SumMember(UnservableF(c), Everyone(s), r);
  }

  /** Servable requests at rest: gone, or stuck in the decoding engine. */
  lemma ServableAtRest(c: SysConfig, s: Sys)
    requires Inv(c, s) && AtRest(c, s) && Sum(UnservableF(c), Everyone(s)) == 0
    ensures Everyone(s) == [] || Stuck(c.dec, s.dec.sched)
  {
    LeftAtRest(c, s);
    if !Queued(s.dec.sched) {
      if s.ctx.sched.unaccepted != [] {
        AllServable(c, s, s.ctx.sched.unaccepted[0]);
      } else if s.ctx.sched.waiting != [] {
        AllServable(c, s, s.ctx.sched.waiting[0]);
      }
    }
  }

  /** Liveness up to the stuck states: with enough CPU blocks for the servable requests that are in
      the system, some continuation without arrivals ends, without an exception, with everybody gone
      or with the decoding queues stuck. */
  lemma DrainsOrSticks(c: SysConfig, s: Sys) returns (es: seq<Event>, t: Sys)
    requires Inv(c, s) && Typed(c, s) && EnoughCpu(c, s) && Sum(UnservableF(c), Everyone(s)) == 0
    ensures NoArrivals(es) && Possible(c, s, es) && Run(c, s, es) == Ok(t)
    ensures Inv(c, t) && AtRest(c, t) && (Everyone(t) == [] || Stuck(c.dec, t.dec.sched))
  {
    es, t := RunsToRest(c, s);
    StaysServable(c, s, es, t);
    ServableAtRest(c, t);
  }

  lemma StaysServable(c: SysConfig, s: Sys, es: seq<Event>, t: Sys)
    requires Inv(c, s) && Typed(c, s) && NoArrivals(es) && Possible(c, s, es) && Run(c, s, es) == Ok(t)
    requires Sum(UnservableF(c), Everyone(s)) == 0
    ensures Sum(UnservableF(c), Everyone(t)) == 0
  {
    UnservableStatic(c);
    StaticRun(UnservableF(c), c, s, es);
    NothingArrives(es);
  }

  lemma RunsToRest(c: SysConfig, s: Sys) returns (es: seq<Event>, t: Sys)
    requires Inv(c, s) && Typed(c, s) && EnoughCpu(c, s)
    ensures NoArrivals(es) && Possible(c, s, es) && Run(c, s, es) == Ok(t)
    ensures Inv(c, t) && AtRest(c, t)
  {
    es := ComesToRest(c, s);
    EnoughRun(c, s, es);
    t := Run(c, s, es).value;
  }

  lemma {:induction false} NothingArrives(es: seq<Event>)
    requires NoArrivals(es)
    ensures Arrived(es) == []
    decreases |es|
  {
    if es != [] {
      NothingArrives(es[1..]);
    }
  }
}
