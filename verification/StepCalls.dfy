/** What the workers are sent, over whole runs: calls within the limits of a batch, for as many
    requests as the limits allow, that run exactly what the users have not been answered yet. */
module StepCalls {
  import opened Common
  import opened Sums
  import opened Requests
  import opened Blocks
  import opened DecodeScheduler
  import opened DecodeEngine
  import opened ContextEngine
  import opened Disaggregated
  import opened DecodeOrder
  import opened Conservation
  import opened Delivery
  import opened Work

  // ---------------------------------------------------------------- limits

  /** Token positions a call runs. */
  function InputCount(inputs: seq<seq<int>>): nat {
    if inputs == [] then 0 else |inputs[0]| + InputCount(inputs[1..])
  }

  predicate WithinLimits(c: Config, rs: seq<Req>) {
    rs != [] ==> |rs| <= c.maxBatchSize && Sum(NumInputTokensF(), rs) <= c.maxTokensPerBatch
  }

  /** A call is for somebody, and within both limits of a batch. */
  predicate CallFits(c: Config, call: StepCall) {
    0 < |call.ids| <= c.maxBatchSize && InputCount(call.inputs) <= c.maxTokensPerBatch
  }

  lemma {:induction false} InputsOf(inputs: seq<seq<int>>, rs: seq<Req>)
    requires |inputs| == |rs| && forall k :: 0 <= k < |rs| ==> inputs[k] == InputTokenIds(rs[k])
    ensures InputCount(inputs) == Sum(NumInputTokensF(), rs)
  {
    if rs != [] {
      InputsOf(inputs[1..], rs[1..]);
    }
  }

  lemma CallOfFits(c: Config, bm: BlockState, rs: seq<Req>)
    requires rs != [] && WithinLimits(c, rs)
    ensures CallFits(c, CallOf(bm, rs))
  {
    InputsOf(CallOf(bm, rs).inputs, rs);
  }

  /** A decoding request runs one token. */
  lemma {:induction false} OneTokenEach(rs: seq<Req>)
    requires forall r :: r in rs ==> r.output != []
    ensures Sum(NumInputTokensF(), rs) == |rs|
  {
    if rs != [] {
      assert rs[0] in rs;
      OneTokenEach(rs[1..]);
    }
  }

  lemma FewerWithin(c: Config, rs: seq<Req>, k: nat)
    requires WithinLimits(c, rs) && k <= |rs|
    ensures WithinLimits(c, rs[..k])
  {
    SumAppend(NumInputTokensF(), rs[..k], rs[k..]);
    assert rs == rs[..k] + rs[k..];
  }

  lemma {:induction false} AdmitsWithin(c: Config, s: Sched)
    requires Running(c, s) && AdmitLoop(c, s).Ok? && WithinLimits(c, Current(c, s))
    ensures WithinLimits(c, Current(c, AdmitLoop(c, s).value))
    decreases |s.swapped| + |s.waiting|
  {
    if s.swapped != [] && CheckAdd(c, s, s.swapped[0]) {
      SumSnoc(NumInputTokensF(), Current(c, s), s.swapped[0]);
      AdmitsWithin(c, SwapInHead(c, s).value);
    } else if s.swapped == [] && s.waiting != [] && CheckAdd(c, s, s.waiting[0]) {
      SumSnoc(NumInputTokensF(), Current(c, s), s.waiting[0]);
      AdmitsWithin(c, AdmitHead(c, s).value);
    }
  }

  lemma EvictedBatch(c: Config, s: Sched, mid: Sched) returns (k: nat)
    requires Running(c, s) && SwapOutLoop(c, s) == Ok(mid)
    ensures k <= |Current(c, s)| && Current(c, mid) == Current(c, s)[..|Current(c, s)| - k]
  {
    k := SwapOutIsMinimal(c, s);
  }

  lemma EvictedWithin(c: Config, s: Sched, mid: Sched)
    requires Running(c, s) && SwapOutLoop(c, s) == Ok(mid) && WithinLimits(c, Current(c, s))
    ensures WithinLimits(c, Current(c, mid))
  {
    var k := EvictedBatch(c, s, mid);
    FewerWithin(c, Current(c, s), |Current(c, s)| - k);
  }

  lemma NextWithin(c: Config, s: Sched)
    requires Shape(c, s) && GetNextBatch(c, s).Ok? && WithinLimits(c, Current(c, Rotate(c, s)))
    ensures WithinLimits(c, Current(c, GetNextBatch(c, s).value))
  {
    var mid := SwapOutLoop(c, Rotate(c, s)).value;
    EvictedWithin(c, Rotate(c, s), mid);
    AdmitsWithin(c, mid);
  }

  // ---------------------------------------------------------------- the decoding engine keeps them

  predicate BatchesWithin(c: Config, bs: seq<Batch>) {
    forall j :: 0 <= j < |bs| ==> WithinLimits(c, bs[j].requests)
  }

  lemma SubmitWithin(c: Config, d: Dec)
    requires DecInv(c, d) && d.phase.Idle? && Submit(c, d).Ok? && BatchesWithin(c, d.sched.batches)
    ensures BatchesWithin(c, Submit(c, d).value.sched.batches)
  {
    SubmitLaunch(c, d);
    NextWithin(c, d.sched);
  }

  lemma ReturnedWithin(c: Config, before: seq<Req>, after: seq<Req>, ts: seq<Token>)
    requires WithinLimits(c, before) && AllLive(before) && |before| == |after| == |ts|
    requires forall i :: 0 <= i < |before| ==> Extended(before[i], after[i], ts[i])
    ensures WithinLimits(c, Unfinished(after))
  {
    forall r | r in after ensures r.output != [] {
      var i :| 0 <= i < |after| && after[i] == r;
      assert Extended(before[i], after[i], ts[i]);
    }
    OneTokenEach(before);
    OneTokenEach(Unfinished(after));
    SelectShorter(after);
  }

  lemma CallReturnsWithin(c: SysConfig, s: Sys, ts: seq<Token>)
    requires Inv(c, s) && Typed(c, s) && Enabled(c, s, DecBack(ts)) && Full(c.dec, s.dec) && s.dec.futures[0].Some?
    requires BatchesWithin(c.dec, s.dec.sched.batches)
    ensures Return(c.dec, s.dec, ts).Ok? && BatchesWithin(c.dec, Return(c.dec, s.dec, ts).value.sched.batches)
  {
    CallHasRequests(s.dec);
    TokensAccepted(c, s, DecBack(ts));
    TokensPairWithCall(c, s, DecBack(ts));
    ReturnedAre(c, s, DecBack(ts));
    var before, after := Batch0(c, s, DecBack(ts)), Batch1(c, s, DecBack(ts));
    ReturnedWithin(c.dec, before, after, ts);
    BatchReplacedWithin(c.dec, s.dec, ts, after);
  }

  lemma BatchReplacedWithin(c: Config, d: Dec, ts: seq<Token>, after: seq<Req>)
    requires DecInv(c, d) && d.phase.Submitted? && TokensFor(c, d, ts) && Full(c, d) && d.futures[0].Some?
    requires AddTokens(d.sched.batches[d.pipeline[0]].requests, ts) == Ok(after)
    requires BatchesWithin(c, d.sched.batches) && WithinLimits(c, Unfinished(after))
    ensures Return(c, d, ts).Ok? && BatchesWithin(c, Return(c, d, ts).value.sched.batches)
  {
    ReturnBatchSafe(c, d, ts);
    assert InFlight(d, 0);
    DecReturnShape(c, d, ts, after);
  }

  lemma ReturnWithin(c: SysConfig, s: Sys, ts: seq<Token>)
    requires Inv(c, s) && Typed(c, s) && Enabled(c, s, DecBack(ts)) && Step(c, s, DecBack(ts)).Ok?
    requires BatchesWithin(c.dec, s.dec.sched.batches)
    ensures BatchesWithin(c.dec, Step(c, s, DecBack(ts)).value.dec.sched.batches)
  {
    DecBackComputes(c, s, ts);
    if Full(c.dec, s.dec) && s.dec.futures[0].Some? {
      CallReturnsWithin(c, s, ts);
    } else {
      DecIdleShape(c.dec, s.dec, ts);
    }
  }

  lemma DecodingWithin(c: SysConfig, s: Sys, e: Event)
    requires Inv(c, s) && Typed(c, s) && Enabled(c, s, e) && Step(c, s, e).Ok?
    requires BatchesWithin(c.dec, s.dec.sched.batches)
    ensures BatchesWithin(c.dec, Step(c, s, e).value.dec.sched.batches)
  {
    if e.DecStep? {
      DecStepComputes(c, s);
      SubmitWithin(c.dec, s.dec);
    } else if e.DecBack? {
      ReturnWithin(c, s, e.tokens);
    } else {
      BatchesUntouched(c, s, e);
    }
  }

  // ---------------------------------------------------------------- and the context engine

  lemma {:induction false} PicksWithin(c: Config, s: CtxSched, picked: seq<Req>)
    requires c.Valid() && PickLoop(c, s, picked).Ok? && WithinLimits(c, picked)
    ensures WithinLimits(c, PickLoop(c, s, picked).value.1)
    decreases |s.waiting|
  {
    if s.waiting != [] && CheckPick(c, s, picked, s.waiting[0]) {
      SumSnoc(NumInputTokensF(), picked, s.waiting[0]);
      PicksWithin(c, s.(waiting := s.waiting[1..]), picked + [s.waiting[0]]);
    }
  }

  lemma CtxStepWithin(c: Config, x: Ctx)
    requires CtxInv(c, x) && !x.submitted && BatchesWithin(c, x.pipeline)
    ensures CtxSubmit(c, x).Ok? && BatchesWithin(c, CtxSubmit(c, x).value.pipeline)
  {
    CtxSubmitSafe(c, x);
    var s1, picked := PickFromStart(c, x);
    PicksWithin(c, x.sched, []);
    CtxSubmitShape(c, x, s1, picked);
  }

  lemma CtxBackWithin(c: Config, x: Ctx, ts: seq<Token>)
    requires c.Valid() && |x.futures| == |x.pipeline| && CtxReturn(c, x, ts).Ok? && BatchesWithin(c, x.pipeline)
    ensures BatchesWithin(c, CtxReturn(c, x, ts).value.0.pipeline)
  {
  }

  lemma ContextWithin(c: SysConfig, s: Sys, e: Event)
    requires Inv(c, s) && Typed(c, s) && Enabled(c, s, e) && Step(c, s, e).Ok? && BatchesWithin(c.ctx, s.ctx.pipeline)
    ensures BatchesWithin(c.ctx, Step(c, s, e).value.ctx.pipeline)
  {
    if e.CtxStep? {
      CtxStepComputes(c, s);
      CtxStepWithin(c.ctx, s.ctx);
    } else if e.CtxBack? {
      CtxBackComputes(c, s, e.tokens);
      CtxBackWithin(c.ctx, s.ctx, e.tokens);
    } else {
      PipelineUntouched(c, s, e);
    }
  }

  lemma {:induction false} WithinRun(c: SysConfig, s: Sys, es: seq<Event>)
    requires Inv(c, s) && Typed(c, s) && Possible(c, s, es)
    requires BatchesWithin(c.dec, s.dec.sched.batches) && BatchesWithin(c.ctx, s.ctx.pipeline)
    ensures Run(c, s, es).Ok? ==>
              var t := Run(c, s, es).value;
              Inv(c, t) && BatchesWithin(c.dec, t.dec.sched.batches) && BatchesWithin(c.ctx, t.ctx.pipeline)
    decreases |es|
  {
    if es != [] {
      FirstEvent(c, s, es);
      if Step(c, s, es[0]).Ok? {
        StepInv(c, s, es[0]);
        DecodingWithin(c, s, es[0]);
        ContextWithin(c, s, es[0]);
        WithinRun(c, Step(c, s, es[0]).value, es[1..]);
      }
    }
  }

  ghost predicate AllFit(c: Config, calls: seq<Option<StepCall>>) {
    forall i :: 0 <= i < |calls| && calls[i].Some? ==> CallFits(c, calls[i].value)
  }

  lemma DecodeCallsFit(c: Config, d: Dec)
    requires DecInv(c, d) && BatchesWithin(c, d.sched.batches)
    ensures AllFit(c, d.futures)
  {
    forall i | 0 <= i < |d.futures| && d.futures[i].Some? ensures CallFits(c, d.futures[i].value) {
      assert InFlight(d, i);
      CallOfFits(c, d.sched.bm, d.sched.batches[d.pipeline[i]].requests);
    }
  }

  lemma ContextCallsFit(c: Config, x: Ctx)
    requires CtxInv(c, x) && BatchesWithin(c, x.pipeline)
    ensures AllFit(c, x.futures)
  {
    forall i | 0 <= i < |x.futures| && x.futures[i].Some? ensures CallFits(c, x.futures[i].value) {
      assert CtxFlight(x, i);
      CallOfFits(c, x.sched.bm, x.pipeline[i].requests);
    }
  }

  /** In every run, each call in flight, of either engine, is for at least one request, at most
      max_batch_size of them, and at most max_tokens_per_batch token positions. */
  lemma CallsWithinLimits(c: SysConfig, es: seq<Event>, s: Sys)
    requires c.Valid() && Typed(c, Init(c)) && Possible(c, Init(c), es) && Run(c, Init(c), es) == Ok(s)
    ensures AllFit(c.dec, s.dec.futures) && AllFit(c.ctx, s.ctx.futures)
  {
    InitInv(c);
    InitWithin(c);
    WithinFrom(c, Init(c), es, s);
  }

  lemma InitWithin(c: SysConfig)
    requires c.Valid()
    ensures BatchesWithin(c.dec, Init(c).dec.sched.batches) && BatchesWithin(c.ctx, Init(c).ctx.pipeline)
  {
  }

  lemma WithinFrom(c: SysConfig, s0: Sys, es: seq<Event>, s: Sys)
    requires Inv(c, s0) && Typed(c, s0) && Possible(c, s0, es) && Run(c, s0, es) == Ok(s)
    requires BatchesWithin(c.dec, s0.dec.sched.batches) && BatchesWithin(c.ctx, s0.ctx.pipeline)
    ensures AllFit(c.dec, s.dec.futures) && AllFit(c.ctx, s.ctx.futures)
  {
    WithinRun(c, s0, es);
    DecodeCallsFit(c.dec, s.dec);
    ContextCallsFit(c.ctx, s.ctx);
  }

  // ---------------------------------------------------------------- and as full as they allow

  /** Blocks for everybody in a batch, and for the prompts of the waiting queue. */
  function BlocksNeeded(c: Config, s: Sched): nat
    requires c.Valid()
  {
    Sum(TokenBlocksF(c.blockSize), Flatten(s.batches)) + Sum(PromptBlocksF(c.blockSize), s.waiting)
  }

  function TokenBlocksF(blockSize: nat): Req -> nat
    requires blockSize >= 1
  {
    (r: Req) => BlocksFor(|r.prompt| + |r.output|, blockSize)
  }

  function PromptBlocksF(blockSize: nat): Req -> nat
    requires blockSize >= 1
  {
    (r: Req) => BlocksFor(|r.prompt|, blockSize)
  }

  lemma NeededIsNeed(c: Config, s: Sched)
    requires c.Valid()
    ensures BlocksNeeded(c, s) == TotalNeed(c, s)
  {
    SumAgree(TokenBlocksF(c.blockSize), NeedF(c.blockSize), Flatten(s.batches));
    SumAgree(PromptBlocksF(c.blockSize), InNeedF(c.blockSize), s.waiting);
    FlattenSum(NeedF(c.blockSize), s.batches);
  }

  lemma HeadsLive(c: Config, s: Sched, open: int, r: Req)
    requires SchedInv(c, s, [], open) && r in s.swapped + s.waiting
    ensures r.output != [] && NumInputTokens(r) == 1
  {
    if r in s.swapped {
      assert Evicted(c, s.bm, r);
    } else {
      assert PromptSized(c, s.bm, r);
    }
  }

  lemma BatchLive(c: Config, s: Sched, open: int, j: nat)
    requires SchedInv(c, s, [], open) && j < |s.batches|
    ensures Sum(NumInputTokensF(), s.batches[j].requests) == |s.batches[j].requests|
  {
    assert BatchPlaced(c, s.bm, s.batches[j].requests, j != open);
    OneTokenEach(s.batches[j].requests);
  }

  function CallSize(call: Option<StepCall>): nat { if call.Some? then |call.value.ids| else 0 }

  /** Beside n requests of one token each, and blocks needed by everybody: one more request would be
      one too many, its token one too many, or its blocks too many. */
  predicate NoRoom(c: Config, n: nat, needed: nat, head: Req)
    requires c.Valid()
  {
    || n + 1 > c.maxBatchSize
    || n + 1 > c.maxTokensPerBatch
    || needed + BlocksFor(|head.prompt| + |head.output|, c.blockSize) > c.maxGpu
  }

  /** Why get_next_batch left the first in line: there is no room for it in the batch. */
  lemma NextBatchIsFull(c: Config, s: Sched, t: Sched)
    requires Shape(c, s) && SchedInv(c, s, [], Next(s.cur, c.pp)) && GetNextBatch(c, s) == Ok(t)
    requires t.swapped + t.waiting != []
    ensures NoRoom(c, |Current(c, t)|, BlocksNeeded(c, t), (t.swapped + t.waiting)[0])
  {
    GetNextBatchSafe(c, s);
    var k, m, w, mid := NextBatchIsFcfs(c, s);
    var head := (t.swapped + t.waiting)[0];
    HeadsLive(c, t, t.cur, head);
    BatchLive(c, t, t.cur, t.cur);
    NeededIsNeed(c, t);
  }

  /** The same of the call: after every decoding step, the call just made, if there is one, cannot
      take the first in line. */
  lemma DecodingCallsAreFull(c: SysConfig, s: Sys, t: Sys)
    requires Inv(c, s) && Typed(c, s) && Enabled(c, s, DecStep) && Step(c, s, DecStep) == Ok(t)
    requires t.dec.sched.swapped + t.dec.sched.waiting != []
    ensures |t.dec.futures| > 0
    ensures NoRoom(c.dec, CallSize(t.dec.futures[|t.dec.futures| - 1]), BlocksNeeded(c.dec, t.dec.sched),
                   (t.dec.sched.swapped + t.dec.sched.waiting)[0])
  {
    DecStepComputes(c, s);
    SubmitIsFull(c.dec, s.dec, t.dec);
  }

  lemma LastCallIs(c: Config, d: Dec, d1: Dec)
    requires IndicesOk(c, d) && Submit(c, d) == Ok(d1)
    ensures GetNextBatch(c, d.sched).Ok? && |d1.futures| == |d.futures| + 1
    ensures CallSize(d1.futures[|d1.futures| - 1]) == |Current(c, GetNextBatch(c, d.sched).value)|
  {
    SubmitLaunches(c, d);
  }

  lemma SubmitIsFull(c: Config, d: Dec, d1: Dec)
    requires DecInv(c, d) && d.phase.Idle? && Submit(c, d) == Ok(d1) && d1.sched.swapped + d1.sched.waiting != []
    ensures |d1.futures| > 0
    ensures NoRoom(c, CallSize(d1.futures[|d1.futures| - 1]), BlocksNeeded(c, d1.sched),
                   (d1.sched.swapped + d1.sched.waiting)[0])
  {
    LastCallIs(c, d, d1);
    SubmitShape(c, d);
    var s := GetNextBatch(c, d.sched).value;
    NextBatchIsFull(c, d.sched, s);
    SameNeeds(c, s, d1.sched);
  }

  /** Marking a batch started changes nobody's blocks. */
  lemma SameNeeds(c: Config, s: Sched, t: Sched)
    requires Running(c, s) && t.waiting == s.waiting
    requires t.batches == s.batches || t.batches == s.batches[s.cur := s.batches[s.cur].(started := true)]
    ensures BlocksNeeded(c, t) == BlocksNeeded(c, s)
  {
    NeededIsNeed(c, s);
    NeededIsNeed(c, t);
    SumBatchesUpdate(NeedF(c.blockSize), s.batches, s.cur, s.batches[s.cur].(started := true));
  }

  // ---------------------------------------------------------------- the context engine's calls too

  /** Beside n requests of `tokens` tokens in the batch, and `available` blocks left after it. */
  predicate NoRoomForPrompt(c: Config, n: nat, tokens: nat, available: nat, head: Req)
    requires c.Valid()
  {
    || n + 1 > c.maxBatchSize
    || tokens + |head.prompt| > c.maxTokensPerBatch
    || BlocksFor(|head.prompt|, c.blockSize) > available
  }

  /** What the scheduler's test says in blocks that are really there. */
  lemma PickTest(c: Config, x: Ctx, x1: Ctx, picked: seq<Req>, head: Req)
    requires CtxInv(c, x) && CtxInv(c, x1) && head.output == []
    requires x1.sched.unaccepted == x.sched.unaccepted
    requires x1.sched.onFly == x.sched.onFly + Sum(InNeedF(c.blockSize), picked)
    requires !CheckPick(c, x.sched, picked, head)
    ensures NoRoomForPrompt(c, |picked|, Sum(NumInputTokensF(), picked), x1.sched.bm.gpu.Avail(), head)
  {
    BudgetIsUsage(c, x1);
    SumSnoc(InNeedF(c.blockSize), picked, head);
  }

  lemma CtxSubmitSize(c: Config, x: Ctx, s1: CtxSched, picked: seq<Req>)
    requires c.Valid() && |x.futures| == |x.pipeline| && PickLoop(c, x.sched, []) == Ok((s1, picked))
    requires s1 == x.sched.(waiting := s1.waiting) && CtxSubmit(c, x).Ok?
    ensures var x1 := CtxSubmit(c, x).value;
            && x1.sched.unaccepted == x.sched.unaccepted && x1.sched.waiting == s1.waiting
            && x1.sched.onFly == x.sched.onFly + Sum(InNeedF(c.blockSize), picked)
            && |x1.futures| == |x.futures| + 1
            && CallSize(x1.futures[|x.futures|]) == |picked|
            && CallTokens(x1.futures[|x.futures|]) == Sum(NumInputTokensF(), picked)
  {
    if picked != [] {
      var bm := AllocateBatched(c.blockSize, s1.bm, picked).value;
      InputsOf(CallOf(bm, picked).inputs, picked);
    }
  }

  function CallTokens(call: Option<StepCall>): nat { if call.Some? then InputCount(call.value.inputs) else 0 }

  /** After every context step that leaves somebody waiting, the call just made has no room for the
      first of them, or its prompt needs more blocks than the GPU has left. */
  lemma ContextCallsAreFull(c: Config, x: Ctx)
    requires CtxInv(c, x) && !x.submitted
    ensures CtxSubmit(c, x).Ok?
    ensures var x1 := CtxSubmit(c, x).value;
            |x1.futures| > 0 && (x1.sched.waiting != [] ==>
              var call := x1.futures[|x1.futures| - 1];
              NoRoomForPrompt(c, CallSize(call), CallTokens(call), x1.sched.bm.gpu.Avail(), x1.sched.waiting[0]))
  {
    CtxSubmitSafe(c, x);
    var s1, picked := PickFromStart(c, x);
    CtxSubmitSize(c, x, s1, picked);
    if s1.waiting != [] {
      assert (picked + s1.waiting)[|picked|] == s1.waiting[0];
      assert Fresh(s1.waiting[0]);
      PickTest(c, x, CtxSubmit(c, x).value, picked, s1.waiting[0]);
    }
  }

  // ---------------------------------------------------------------- who is accepted

  /** Blocks of the GPU that somebody in the decoding engine holds. */
  function BlocksHeld(s: Sched): nat {
    Sum(HeldF(s.bm.table), Flatten(s.batches)) + Sum(HeldF(s.bm.table), s.waiting)
  }

  lemma AvailableIsTheRest(c: Config, d: Dec)
    requires DecInv(c, d) && !d.phase.Migrating?
    ensures d.sched.bm.gpu.Avail() + BlocksHeld(d.sched) == c.maxGpu
  {
    FlattenSum(HeldF(d.sched.bm.table), d.sched.batches);
  }

  /** The prompts of the waiting queue need less than their share of the GPU, and this prompt fits beside
      all blocks held. */
  predicate RoomToAccept(c: Config, s: Sched, r: Req)
    requires c.Valid()
  {
    && Sum(PromptBlocksF(c.blockSize), s.waiting) as real < c.maxGpu as real * c.waitingThreshold
    && BlocksFor(|r.prompt|, c.blockSize) + BlocksHeld(s) <= c.maxGpu
  }

  lemma AcceptTest(c: Config, d: Dec)
    requires DecInv(c, d) && !d.phase.Migrating? && d.sched.unaccepted != []
    ensures ShouldAccept(c, d.sched, d.sched.unaccepted[0]) <==> RoomToAccept(c, d.sched, d.sched.unaccepted[0].req)
  {
    AvailableIsTheRest(c, d);
    SumAgree(PromptBlocksF(c.blockSize), InNeedF(c.blockSize), d.sched.waiting);
  }

  lemma AcceptanceIs(c: SysConfig, s: Sys)
    requires c.Valid() && DecInv(c.dec, s.dec) && !s.dec.phase.Migrating?
    ensures CanAccept(c, s) <==>
            var u := s.dec.sched.unaccepted;
            u != [] && RoomToAccept(c.dec, s.dec.sched, u[0].req)
  {
    if s.dec.sched.unaccepted != [] {
      AcceptTest(c.dec, s.dec);
    }
  }

  /** After a decoding step the next migration begins exactly when the prompts of the waiting queue need
      less than their share of the GPU and the first pending prompt fits beside all blocks held; and
      the step is over exactly when nobody is pending or that does not hold. */
  lemma AcceptsExactlyWhen(c: SysConfig, s: Sys)
    requires c.Valid() && DecInv(c.dec, s.dec) && s.dec.phase.Accepting?
    ensures Enabled(c, s, MigBegin) <==>
            var u := s.dec.sched.unaccepted;
            u != [] && RoomToAccept(c.dec, s.dec.sched, u[0].req)
    ensures Enabled(c, s, DecDone) <==> !Enabled(c, s, MigBegin)
  {
    AcceptanceIs(c, s);
  }

  // ---------------------------------------------------------------- what a call runs

  /** A decoding call of a request with these outputs runs the newest of them, at its position. */
  ghost predicate RunsNewest(call: StepCall, k: nat, q: seq<Output>, prompt: seq<int>) {
    && k < |call.inputs| && k < |call.first| && q != []
    && call.inputs[k] == [q[|q| - 1].token.id]
    && call.first[k] == |prompt| + |q| - 1
  }

  /** A context call runs a prompt nobody has answered yet, from the beginning. */
  ghost predicate RunsPrompt(call: StepCall, k: nat, q: seq<Output>, prompt: seq<int>) {
    k < |call.inputs| && k < |call.first| && q == [] && call.inputs[k] == prompt && call.first[k] == 0
  }

  lemma NewestInput(os: seq<Output>, arrived: seq<Req>, bm: BlockState, rs: seq<Req>, k: nat)
    requires k < |rs| && Told(os, arrived, rs[k]) && rs[k].output != []
    ensures Asked(rs[k]) in arrived
    ensures RunsNewest(CallOf(bm, rs), k, QueueOf(os, rs[k].id), rs[k].prompt)
  {
    var q := QueueOf(os, rs[k].id);
    assert rs[k].output[|q| - 1] == TokensIn(q)[|q| - 1];
  }

  lemma PromptInput(os: seq<Output>, arrived: seq<Req>, bm: BlockState, rs: seq<Req>, k: nat)
    requires k < |rs| && Told(os, arrived, rs[k]) && rs[k].output == []
    ensures Asked(rs[k]) in arrived
    ensures RunsPrompt(CallOf(bm, rs), k, QueueOf(os, rs[k].id), rs[k].prompt)
  {
    assert |TokensIn(QueueOf(os, rs[k].id))| == 0;
  }

  lemma DecodingIsLive(c: Config, d: Dec, i: nat, k: nat)
    requires DecInv(c, d) && i < |d.futures| && d.futures[i].Some? && k < |d.futures[i].value.ids|
    ensures var rs := d.sched.batches[d.pipeline[i]].requests;
            d.futures[i].value == CallOf(d.sched.bm, rs) && k < |rs| && Live(rs[k])
  {
    assert InFlight(d, i);
    var j := d.pipeline[i];
    assert BatchPlaced(c, d.sched.bm, d.sched.batches[j].requests, j != OpenIndex(c, d));
    assert d.sched.batches[j].requests[k] in d.sched.batches[j].requests;
  }

  lemma PrefillIsFresh(c: Config, x: Ctx, i: nat, k: nat)
    requires CtxInv(c, x) && i < |x.futures| && x.futures[i].Some? && k < |x.futures[i].value.ids|
    ensures var rs := x.pipeline[i].requests;
            x.futures[i].value == CallOf(x.sched.bm, rs) && k < |rs| && Fresh(rs[k])
  {
    assert CtxFlight(x, i) && AllFresh(x.pipeline[i].requests);
  }

  lemma DecodeInputOf(c: SysConfig, s: Sys, os: seq<Output>, arrived: seq<Req>, i: nat, k: nat) returns (a: Req)
    requires Chapter(c, s, os, arrived) && i < |s.dec.futures| && s.dec.futures[i].Some?
    requires k < |s.dec.futures[i].value.ids|
    ensures a in arrived && a.id == s.dec.futures[i].value.ids[k]
    ensures RunsNewest(s.dec.futures[i].value, k, QueueOf(os, a.id), a.prompt)
  {
    DecodingIsLive(c.dec, s.dec, i, k);
    var j := s.dec.pipeline[i];
    var rs := s.dec.sched.batches[j].requests;
    InBatch(s.dec.sched, j, rs[k]);
    assert rs[k] in Everyone(s);
    NewestInput(os, arrived, s.dec.sched.bm, rs, k);
    a := Asked(rs[k]);
  }

  lemma ContextInputOf(c: SysConfig, s: Sys, os: seq<Output>, arrived: seq<Req>, i: nat, k: nat) returns (a: Req)
    requires Chapter(c, s, os, arrived) && i < |s.ctx.futures| && s.ctx.futures[i].Some?
    requires k < |s.ctx.futures[i].value.ids|
    ensures a in arrived && a.id == s.ctx.futures[i].value.ids[k]
    ensures RunsPrompt(s.ctx.futures[i].value, k, QueueOf(os, a.id), a.prompt)
  {
    PrefillIsFresh(c.ctx, s.ctx, i, k);
    var rs := s.ctx.pipeline[i].requests;
    InFlatten(s.ctx.pipeline, i, rs[k]);
    assert rs[k] in Everyone(s);
    PromptInput(os, arrived, s.ctx.sched.bm, rs, k);
    a := Asked(rs[k]);
  }

  /** In every run with unique ids, the k-th input of a decoding call in flight is the last token on
      the output queue of the request it names, at the position after everything before it. */
  lemma DecodeCallsRunNewest(c: SysConfig, es: seq<Event>, s: Sys, i: nat, k: nat) returns (a: Req)
    requires c.Valid() && Typed(c, Init(c)) && Possible(c, Init(c), es) && Run(c, Init(c), es) == Ok(s)
    requires UniqueIds(Arrived(es)) && i < |s.dec.futures| && s.dec.futures[i].Some?
    requires k < |s.dec.futures[i].value.ids|
    ensures a in Arrived(es) && a.id == s.dec.futures[i].value.ids[k]
    ensures RunsNewest(s.dec.futures[i].value, k, QueueOf(Outputs(c, Init(c), es), a.id), a.prompt)
  {
    RunFromStart(c, es);
    a := DecodeInputOf(c, s, Outputs(c, Init(c), es), Arrived(es), i, k);
  }

  /** And each input of a context call in flight is the whole prompt of a request that has no output. */
  lemma ContextCallsRunPrompts(c: SysConfig, es: seq<Event>, s: Sys, i: nat, k: nat) returns (a: Req)
    requires c.Valid() && Typed(c, Init(c)) && Possible(c, Init(c), es) && Run(c, Init(c), es) == Ok(s)
    requires UniqueIds(Arrived(es)) && i < |s.ctx.futures| && s.ctx.futures[i].Some?
    requires k < |s.ctx.futures[i].value.ids|
    ensures a in Arrived(es) && a.id == s.ctx.futures[i].value.ids[k]
    ensures RunsPrompt(s.ctx.futures[i].value, k, QueueOf(Outputs(c, Init(c), es), a.id), a.prompt)
  {
    RunFromStart(c, es);
    a := ContextInputOf(c, s, Outputs(c, Init(c), es), Arrived(es), i, k);
  }
}
