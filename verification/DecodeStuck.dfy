/** When the decoding queues can never move again: between two decoding steps, exactly the states
    after which no decoding call is ever made. */
module DecodeStuck {
  import opened Common
  import opened Sums
  import opened Requests
  import opened DecodeScheduler
  import opened DecodeEngine
  import opened Disaggregated
  import opened DecodeOrder
  import opened CpuShortage
  import opened Conservation

  predicate NobodyRuns(s: Sched) { forall j :: 0 <= j < |s.batches| ==> s.batches[j].requests == [] }

  predicate Queued(s: Sched) { s.swapped != [] || s.waiting != [] }

  /** The request get_next_batch looks at first. */
  function Head(s: Sched): Req
    requires Queued(s)
  {
    if s.swapped != [] then s.swapped[0] else s.waiting[0]
  }

  /** It could not even be alone in a batch: by a limit of the batch, or because the prompts of the
      waiting queue, whose blocks are reserved, leave it too few blocks. */
  predicate TooBig(c: Config, s: Sched, r: Req)
    requires c.Valid()
  {
    || c.maxBatchSize <= 0
    || NumInputTokens(r) > c.maxTokensPerBatch
    || Sum(InNeedF(c.blockSize), s.waiting) + Need(r, c.blockSize) > c.maxGpu
  }

  predicate HeadBlocked(c: Config, s: Sched)
    requires c.Valid() && Queued(s)
  {
    TooBig(c, s, Head(s))
  }

  predicate Stuck(c: Config, s: Sched)
    requires c.Valid()
  {
    NobodyRuns(s) && Queued(s) && HeadBlocked(c, s)
  }

  /** The queues of t are those of s, with requests added at the back of the waiting queue. */
  predicate OnlyQueueGrows(s: Sched, t: Sched) { t.swapped == s.swapped && s.waiting <= t.waiting }

  // ---------------------------------------------------------------- one call of the scheduler

  /** Into an empty batch beside empty ones the head is admitted unless it is blocked. */
  lemma EmptyHead(c: Config, s: Sched)
    requires Running(c, s) && NobodyRuns(s) && Queued(s)
    ensures CheckAdd(c, s, Head(s)) <==> !HeadBlocked(c, s)
  {
    SumBatchesEmpty(NeedF(c.blockSize), s.batches);
  }

  /** With empty batches nobody is swapped out, and the head is admitted unless it is blocked. */
  lemma EmptyCall(c: Config, s: Sched)
    requires Shape(c, s) && SchedInv(c, s, [], Next(s.cur, c.pp)) && NobodyRuns(s)
    ensures var s0 := Rotate(c, s);
            && Current(c, s0) == [] && SwapOutLoop(c, s0) == Ok(s0) && !Overflow(c, s0)
            && SchedInv(c, s0, [], s0.cur)
            && (Queued(s) ==> (CheckAdd(c, s0, Head(s)) <==> !HeadBlocked(c, s)))
  {
    var s0 := Rotate(c, s);
    RotateInv(c, s);
    if Overflow(c, s0) {
      OverflowMeansNonEmpty(c, s0);
    }
    if Queued(s) {
      EmptyHead(c, s0);
    }
  }

  /** A blocked head stops the call before it begins. */
  lemma StuckCall(c: Config, s: Sched)
    requires Shape(c, s) && SchedInv(c, s, [], Next(s.cur, c.pp)) && Stuck(c, s)
    ensures GetNextBatch(c, s) == Ok(Rotate(c, s))
  {
    EmptyCall(c, s);
    assert AdmitLoop(c, Rotate(c, s)) == Ok(Rotate(c, s));
  }

  /** A head that is not blocked joins the batch. */
  lemma FreeCall(c: Config, s: Sched)
    requires Shape(c, s) && SchedInv(c, s, [], Next(s.cur, c.pp)) && NobodyRuns(s) && Queued(s) && !HeadBlocked(c, s)
    ensures GetNextBatch(c, s).Ok?
    ensures Current(c, GetNextBatch(c, s).value) != []
  {
    var s0 := Rotate(c, s);
    EmptyCall(c, s);
    AdmitLoopSafe(c, s0);
    var m, w := AdmitIsFcfs(c, s0);
    NobodyAdmitted(c, s0, m, w, AdmitLoop(c, s0).value);
  }

  lemma NobodyAdmitted(c: Config, s0: Sched, m: nat, w: nat, t: Sched)
    requires Running(c, s0) && Current(c, s0) == [] && Queued(s0) && CheckAdd(c, s0, Head(s0))
    requires Admits(c, s0, m, w, t) && Blocked(c, t)
    ensures Current(c, t) != []
  {
    AdmitsNone(c, s0, m, w, t);
  }

  lemma AdmitsNone(c: Config, s0: Sched, m: nat, w: nat, t: Sched)
    requires Running(c, s0) && Current(c, s0) == [] && Admits(c, s0, m, w, t)
    ensures Current(c, t) == [] ==> t.batches == s0.batches && t.swapped == s0.swapped && t.waiting == s0.waiting
  {
    assert Current(c, t) == s0.swapped[..m] + s0.waiting[..w];
    assert |Current(c, t)| == m + w;
    assert s0.swapped[0..] == s0.swapped && s0.waiting[0..] == s0.waiting;
    assert WithCurrent(c, s0, []) == s0.batches;
    assert m + w == 0 ==> Current(c, s0) + s0.swapped[..m] + s0.waiting[..w] == [];
  }

  // ---------------------------------------------------------------- once stuck, always stuck

  lemma StuckSubmit(c: Config, d: Dec)
    requires DecInv(c, d) && d.phase.Idle? && Stuck(c, d.sched)
    ensures Submit(c, d).Ok?
    ensures var s := Submit(c, d).value.sched;
            s.batches == d.sched.batches && s.swapped == d.sched.swapped && s.waiting == d.sched.waiting
  {
    StuckCall(c, d.sched);
  }

  lemma StuckReturn(c: Config, d: Dec, ts: seq<Token>)
    requires DecInv(c, d) && NobodyRuns(d.sched)
    ensures Return(c, d, ts).Ok? && Return(c, d, ts).value.sched == d.sched
  {
    if Full(c, d) && |d.futures| > 0 {
      assert InFlight(d, 0);
    }
  }

  lemma MoreWaiting(c: Config, s: Sched, r: Req)
    requires c.Valid() && Stuck(c, s)
    ensures Stuck(c, s.(waiting := s.waiting + [r])) && OnlyQueueGrows(s, s.(waiting := s.waiting + [r]))
  {
    SumSnoc(InNeedF(c.blockSize), s.waiting, r);
  }

  lemma StuckDecoding(c: SysConfig, s: Sys, e: Event)
    requires Inv(c, s) && Enabled(c, s, e) && Step(c, s, e).Ok? && Stuck(c.dec, s.dec.sched)
    requires e.DecStep? || e.DecBack?
    ensures var t := Step(c, s, e).value.dec.sched;
            t.batches == s.dec.sched.batches && t.swapped == s.dec.sched.swapped && t.waiting == s.dec.sched.waiting
  {
    if e.DecStep? {
      StuckSubmit(c.dec, s.dec);
    } else {
      StuckReturn(c.dec, s.dec, e.tokens);
    }
  }

  lemma StuckMigrated(c: SysConfig, s: Sys)
    requires Inv(c, s) && Enabled(c, s, MigEnd) && Step(c, s, MigEnd).Ok? && Stuck(c.dec, s.dec.sched)
    ensures Stuck(c.dec, Step(c, s, MigEnd).value.dec.sched)
    ensures OnlyQueueGrows(s.dec.sched, Step(c, s, MigEnd).value.dec.sched)
  {
    MoreWaiting(c.dec, s.dec.sched, s.dec.phase.mig.req);
  }

  lemma QueuesUntouched(c: SysConfig, s: Sys, e: Event)
    requires Typed(c, s) && Enabled(c, s, e) && Step(c, s, e).Ok?
    requires !e.DecStep? && !e.DecBack? && !e.MigEnd?
    ensures var t := Step(c, s, e).value.dec.sched;
            t.batches == s.dec.sched.batches && t.swapped == s.dec.sched.swapped && t.waiting == s.dec.sched.waiting
  {
  }

  lemma StuckStep(c: SysConfig, s: Sys, e: Event)
    requires Inv(c, s) && Enabled(c, s, e) && Step(c, s, e).Ok? && Stuck(c.dec, s.dec.sched)
    ensures Stuck(c.dec, Step(c, s, e).value.dec.sched)
    ensures OnlyQueueGrows(s.dec.sched, Step(c, s, e).value.dec.sched)
  {
    if e.DecStep? || e.DecBack? {
      StuckDecoding(c, s, e);
    } else if e.MigEnd? {
      StuckMigrated(c, s);
    } else {
      QueuesUntouched(c, s, e);
    }
  }

  /** Whatever arrives and however the coroutines interleave: nobody is ever decoded again, nobody
      comes back from the CPU, and nobody leaves the waiting queue. */
  lemma {:induction false} StuckForEver(c: SysConfig, s: Sys, es: seq<Event>)
    requires Inv(c, s) && Typed(c, s) && Possible(c, s, es) && Stuck(c.dec, s.dec.sched)
    ensures Run(c, s, es).Ok? ==>
              && Stuck(c.dec, Run(c, s, es).value.dec.sched)
              && OnlyQueueGrows(s.dec.sched, Run(c, s, es).value.dec.sched)
    decreases |es|
  {
    if es != [] && Step(c, s, es[0]).Ok? {
      StepInv(c, s, es[0]);
      StuckStep(c, s, es[0]);
      StuckForEver(c, Step(c, s, es[0]).value, es[1..]);
    }
  }

  // ---------------------------------------------------------------- when the next batch is empty

  /** No batch but the one whose turn it is holds anybody. */
  predicate OthersEmpty(c: Config, s: Sched) {
    forall j :: 0 <= j < |s.batches| && j != Next(s.cur, c.pp) ==> s.batches[j].requests == []
  }

  /** Whom a call of get_next_batch can take, in its order, once it had to evict its whole batch. */
  function Line(c: Config, s: Sched): seq<Req>
    requires Shape(c, s)
  {
    s.swapped + Reverse(Current(c, Rotate(c, s))) + s.waiting
  }

  /** Not even the first request of its batch can stay, and the first in line could not be alone. */
  predicate ComesOutEmpty(c: Config, s: Sched)
    requires Shape(c, s)
  {
    var rs := Current(c, Rotate(c, s));
    && (rs != [] ==> Sum(InNeedF(c.blockSize), s.waiting) + Need(rs[0], c.blockSize) > c.maxGpu)
    && Line(c, s) != [] && TooBig(c, s, Line(c, s)[0])
  }

  /** The victims hold more blocks than the CPU has available. */
  predicate CannotEvict(c: Config, s: Sched)
    requires Shape(c, s)
  {
    EvictedBlocks(c, Rotate(c, s)) > s.bm.cpu.Avail()
  }

  /** No batch but the current one holds anybody. */
  predicate Lonely(c: Config, s: Sched)
    requires Running(c, s)
  {
    forall j :: 0 <= j < |s.batches| && j != s.cur ==> s.batches[j].requests == []
  }

  lemma NeedAlone(c: Config, s: Sched)
    requires Running(c, s) && Lonely(c, s)
    ensures TotalNeed(c, s) == Sum(NeedF(c.blockSize), Current(c, s)) + Sum(InNeedF(c.blockSize), s.waiting)
  {
    SumBatchesUpdate(NeedF(c.blockSize), s.batches, s.cur, Batch([], false));
    SumBatchesEmpty(NeedF(c.blockSize), s.batches[s.cur := Batch([], false)]);
  }

  lemma StillLonely(c: Config, s: Sched, k: nat, mid: Sched)
    requires Running(c, s) && Lonely(c, s) && Evicts(c, s, k, mid)
    ensures Lonely(c, mid) && Current(c, mid) == Current(c, s)[..|Current(c, s)| - k]
  {
  }

  /** Whoever is kept in the batch fits, the first one included. */
  lemma FirstKept(c: Config, s: Sched, k: nat, mid: Sched)
    requires Running(c, s) && Lonely(c, s) && Evicts(c, s, k, mid) && k < |Current(c, s)| && !Overflow(c, mid)
    ensures Current(c, mid) != []
    ensures Sum(InNeedF(c.blockSize), s.waiting) + Need(Current(c, s)[0], c.blockSize) <= c.maxGpu
  {
    StillLonely(c, s, k, mid);
    NeedAlone(c, mid);
    assert Current(c, mid)[0] == Current(c, s)[0];
    SumMember(NeedF(c.blockSize), Current(c, mid), Current(c, s)[0]);
  }

  lemma NobodyKept(c: Config, s: Sched, mid: Sched)
    requires Running(c, s) && Lonely(c, s) && Evicts(c, s, |Current(c, s)|, mid) && Current(c, s) != []
    requires TotalNeed(c, mid) + Need(Current(c, s)[0], c.blockSize) > c.maxGpu
    ensures Current(c, mid) == []
    ensures Sum(InNeedF(c.blockSize), s.waiting) + Need(Current(c, s)[0], c.blockSize) > c.maxGpu
  {
    StillLonely(c, s, |Current(c, s)|, mid);
    NeedAlone(c, mid);
  }

  /** The swap-out loop empties its batch exactly when the first request alone is too much. */
  lemma AllEvictedIff(c: Config, s: Sched, mid: Sched)
    requires Running(c, s) && Lonely(c, s) && SwapOutLoop(c, s) == Ok(mid) && Current(c, s) != []
    ensures Current(c, mid) == []
       <==> Sum(InNeedF(c.blockSize), s.waiting) + Need(Current(c, s)[0], c.blockSize) > c.maxGpu
  {
    var k := SwapOutIsMinimal(c, s);
    if k < |Current(c, s)| {
      FirstKept(c, s, k, mid);
    } else {
      NobodyKept(c, s, mid);
    }
  }

  lemma NoEviction(c: Config, s: Sched, mid: Sched)
    requires Running(c, s) && SwapOutLoop(c, s) == Ok(mid) && Current(c, s) == []
    ensures mid == s
  {
  }

  /** Once the loop emptied its batch, what is left is the line. */
  lemma LineAfterEviction(c: Config, s: Sched, mid: Sched)
    requires Shape(c, s) && OthersEmpty(c, s)
    requires SwapOutLoop(c, Rotate(c, s)) == Ok(mid) && Current(c, mid) == []
    ensures NobodyRuns(mid) && mid.swapped + mid.waiting == Line(c, s) && mid.waiting == s.waiting
  {
    var s0 := Rotate(c, s);
    var k := SwapOutIsMinimal(c, s0);
    assert Current(c, s0)[|Current(c, s0)| - k..] == Current(c, s0);
  }

  lemma AdmitsMore(c: Config, mid: Sched, t: Sched)
    requires Running(c, mid) && AdmitLoop(c, mid) == Ok(t) && Current(c, mid) != []
    ensures Current(c, t) != []
  {
    var m, w := AdmitIsFcfs(c, mid);
  }

  lemma AdmitsFromEmpty(c: Config, mid: Sched, t: Sched)
    requires Running(c, mid) && NobodyRuns(mid) && Queued(mid) && AdmitLoop(c, mid) == Ok(t)
    ensures Current(c, t) == [] <==> HeadBlocked(c, mid)
    ensures Current(c, t) == [] ==> Stuck(c, t)
  {
    EmptyHead(c, mid);
    if HeadBlocked(c, mid) {
      assert t == mid;
    } else {
      var m, w := AdmitIsFcfs(c, mid);
      NobodyAdmitted(c, mid, m, w, t);
    }
  }

  /** With the other batches empty and the victims evicted, the next batch comes out empty exactly
      under that condition; then everything is stuck. */
  lemma NextBatchEmptyIff(c: Config, s: Sched, t: Sched)
    requires Shape(c, s) && OthersEmpty(c, s) && Line(c, s) != [] && GetNextBatch(c, s) == Ok(t)
    ensures Current(c, t) == [] <==> ComesOutEmpty(c, s)
    ensures Current(c, t) == [] ==> Stuck(c, t)
  {
    var s0 := Rotate(c, s);
    var mid := SwapOutLoop(c, s0).value;
    if Current(c, s0) != [] {
      AllEvictedIff(c, s0, mid);
    } else {
      NoEviction(c, s0, mid);
    }
    if Current(c, mid) == [] {
      LineAfterEviction(c, s, mid);
      AdmitsFromEmpty(c, mid, t);
    } else {
      AdmitsMore(c, mid, t);
    }
  }

  // ---------------------------------------------------------------- when no call is ever made again

  /** Nobody is being decoded. */
  predicate NothingInFlight(d: Dec) { forall i :: 0 <= i < |d.futures| ==> d.futures[i].None? }

  /** No possible continuation, the empty one included, ever has a call of the decoding engine. */
  ghost predicate NoCallEver(c: SysConfig, s: Sys)
    requires Typed(c, s)
  {
    forall es :: Possible(c, s, es) && Run(c, s, es).Ok? ==> NothingInFlight(Run(c, s, es).value.dec)
  }

  /** Between two steps, and the next one raises or comes out empty. */
  predicate Doomed(c: Config, d: Dec)
    requires Shape(c, d.sched)
  {
    && d.phase.Idle? && NothingInFlight(d) && OthersEmpty(c, d.sched) && Line(c, d.sched) != []
    && (CannotEvict(c, d.sched) || ComesOutEmpty(c, d.sched))
  }

  predicate Hopeless(c: Config, d: Dec)
    requires Shape(c, d.sched)
  {
    Stuck(c, d.sched) || Doomed(c, d)
  }

  lemma HopelessCalls(c: Config, d: Dec)
    requires DecInv(c, d) && Hopeless(c, d)
    ensures NothingInFlight(d)
  {
    if Stuck(c, d.sched) {
      forall i | 0 <= i < |d.futures| ensures d.futures[i].None? {
        assert InFlight(d, i);
      }
    }
  }

  lemma SubmitCall(c: Config, d: Dec)
    requires IndicesOk(c, d) && Submit(c, d).Ok?
    ensures GetNextBatch(c, d.sched).Ok?
    ensures var s, d1 := GetNextBatch(c, d.sched).value, Submit(c, d).value;
            && d1.futures[|d.futures|].None? == (Current(c, s) == [])
            && (Current(c, s) == [] ==> d1.sched == s)
  {
  }

  lemma DoomedSubmit(c: Config, d: Dec)
    requires DecInv(c, d) && Doomed(c, d) && Submit(c, d).Ok?
    ensures Stuck(c, Submit(c, d).value.sched)
  {
    SubmitFailsIff(c, d);
    SubmitCall(c, d);
    NextBatchEmptyIff(c, d.sched, GetNextBatch(c, d.sched).value);
  }

  /** What the coroutines outside the decoding engine leave alone. */
  lemma DecodingUntouched(c: SysConfig, s: Sys, e: Event)
    requires Typed(c, s) && Enabled(c, s, e) && Step(c, s, e).Ok?
    requires e.Arrive? || e.CtxStep? || e.CtxBack? || e.Bridge?
    ensures var d, d1 := s.dec, Step(c, s, e).value.dec; d1 == d.(sched := d.sched.(unaccepted := d1.sched.unaccepted))
  {
  }

  lemma DoomedStays(c: Config, d: Dec, q: seq<Mig>)
    requires Shape(c, d.sched) && Doomed(c, d)
    ensures Doomed(c, d.(sched := d.sched.(unaccepted := q)))
  {
    EvictedAgree(c, Rotate(c, d.sched), Rotate(c, d.sched.(unaccepted := q)));
  }

  lemma HopelessStep(c: SysConfig, s: Sys, e: Event)
    requires Inv(c, s) && Enabled(c, s, e) && Step(c, s, e).Ok? && Hopeless(c.dec, s.dec)
    ensures Hopeless(c.dec, Step(c, s, e).value.dec)
  {
    if Stuck(c.dec, s.dec.sched) {
      StuckStep(c, s, e);
    } else if e.DecStep? {
      DoomedSubmit(c.dec, s.dec);
    } else {
      DecodingUntouched(c, s, e);
      DoomedStays(c.dec, s.dec, Step(c, s, e).value.dec.sched.unaccepted);
    }
  }

  lemma {:induction false} HopelessForEver(c: SysConfig, s: Sys, es: seq<Event>)
    requires Inv(c, s) && Typed(c, s) && Possible(c, s, es) && Hopeless(c.dec, s.dec)
    ensures Run(c, s, es).Ok? ==> NothingInFlight(Run(c, s, es).value.dec)
    decreases |es|
  {
    HopelessCalls(c.dec, s.dec);
    if es != [] && Step(c, s, es[0]).Ok? {
      StepInv(c, s, es[0]);
      HopelessStep(c, s, es[0]);
      HopelessForEver(c, Step(c, s, es[0]).value, es[1..]);
    }
  }

  lemma HopelessNoCall(c: SysConfig, s: Sys)
    requires Inv(c, s) && Typed(c, s) && Hopeless(c.dec, s.dec)
    ensures NoCallEver(c, s)
  {
    forall es | Possible(c, s, es) && Run(c, s, es).Ok? ensures NothingInFlight(Run(c, s, es).value.dec) {
      HopelessForEver(c, s, es);
    }
  }

  lemma NextBatchFull(c: Config, d: Dec)
    requires IndicesOk(c, d) && Submit(c, d).Ok? && OthersEmpty(c, d.sched) && Line(c, d.sched) != []
    requires !ComesOutEmpty(c, d.sched)
    ensures GetNextBatch(c, d.sched).Ok? && Current(c, GetNextBatch(c, d.sched).value) != []
  {
    SubmitCall(c, d);
    NextBatchEmptyIff(c, d.sched, GetNextBatch(c, d.sched).value);
  }

  lemma LastCall(d: Dec, d1: Dec)
    requires |d1.futures| > |d.futures| && !d1.futures[|d.futures|].None?
    ensures !NothingInFlight(d1)
  {
  }

  lemma SubmitCalls(c: Config, d: Dec)
    requires IndicesOk(c, d) && Submit(c, d).Ok? && OthersEmpty(c, d.sched) && Line(c, d.sched) != []
    requires !ComesOutEmpty(c, d.sched)
    ensures !NothingInFlight(Submit(c, d).value)
  {
    NextBatchFull(c, d);
    SubmitCall(c, d);
    LastCall(d, Submit(c, d).value);
  }

  lemma CallNext(c: SysConfig, s: Sys)
    requires Inv(c, s) && Typed(c, s) && s.dec.phase.Idle? && OthersEmpty(c.dec, s.dec.sched)
    requires Line(c.dec, s.dec.sched) != []
    requires !CannotEvict(c.dec, s.dec.sched) && !ComesOutEmpty(c.dec, s.dec.sched)
    ensures Step(c, s, DecStep).Ok? && !NothingInFlight(Step(c, s, DecStep).value.dec)
  {
    SubmitFailsIff(c.dec, s.dec);
    SubmitCalls(c.dec, s.dec);
    DecStepComputes(c, s);
  }

  lemma OneEvent(c: SysConfig, s: Sys, e: Event)
    requires Typed(c, s) && Enabled(c, s, e) && Step(c, s, e).Ok?
    ensures Possible(c, s, [e]) && Run(c, s, [e]) == Step(c, s, e)
  {
    assert [e][1..] == [];
    assert Possible(c, Step(c, s, e).value, []);
  }

  /** Between two decoding steps, with nobody in flight and somebody in line: no continuation
      whatever makes a call again if and only if the next step raises or its batch comes out empty. */
  lemma NoCallEverIff(c: SysConfig, s: Sys)
    requires Inv(c, s) && Typed(c, s) && s.dec.phase.Idle? && NothingInFlight(s.dec)
    requires OthersEmpty(c.dec, s.dec.sched) && Line(c.dec, s.dec.sched) != []
    ensures NoCallEver(c, s) <==> CannotEvict(c.dec, s.dec.sched) || ComesOutEmpty(c.dec, s.dec.sched)
  {
    if CannotEvict(c.dec, s.dec.sched) || ComesOutEmpty(c.dec, s.dec.sched) {
      HopelessNoCall(c, s);
    } else {
      CallNext(c, s);
      OneEvent(c, s, DecStep);
    }
  }

  // ---------------------------------------------------------------- reachable states

  /** While the pipeline fills up for the first time, batches beyond the current one are unused. */
  predicate FillsUp(c: Config, d: Dec) {
    |d.pipeline| < c.pp - 1 ==>
      forall j :: 0 <= j < |d.sched.batches| && j > d.sched.cur ==> d.sched.batches[j].requests == []
  }

  lemma FillsUpSubmit(c: Config, d: Dec)
    requires DecInv(c, d) && d.phase.Idle? && FillsUp(c, d) && Submit(c, d).Ok?
    ensures FillsUp(c, Submit(c, d).value)
  {
    SubmitPipeline(c, d);
    SubmitOthers(c, d);
  }

  lemma FillsUpReturn(c: Config, d: Dec, ts: seq<Token>)
    requires IndicesOk(c, d) && |d.pipeline| <= c.pp && FillsUp(c, d) && Return(c, d, ts).Ok?
    ensures FillsUp(c, Return(c, d, ts).value)
  {
  }

  lemma FillsUpStep(c: SysConfig, s: Sys, e: Event)
    requires Inv(c, s) && Enabled(c, s, e) && Step(c, s, e).Ok? && FillsUp(c.dec, s.dec)
    ensures FillsUp(c.dec, Step(c, s, e).value.dec)
  {
    if e.DecStep? {
      DecStepComputes(c, s);
      FillsUpSubmit(c.dec, s.dec);
    } else if e.DecBack? {
      DecBackComputes(c, s, e.tokens);
      FillsUpReturn(c.dec, s.dec, e.tokens);
    } else {
      BatchesUntouched(c, s, e);
    }
  }

  lemma {:induction false} FillsUpRun(c: SysConfig, s: Sys, es: seq<Event>)
    requires Inv(c, s) && Typed(c, s) && Possible(c, s, es) && FillsUp(c.dec, s.dec)
    ensures Run(c, s, es).Ok? ==> Inv(c, Run(c, s, es).value) && FillsUp(c.dec, Run(c, s, es).value.dec)
    decreases |es|
  {
    if es != [] && Step(c, s, es[0]).Ok? {
      StepInv(c, s, es[0]);
      FillsUpStep(c, s, es[0]);
      FillsUpRun(c, Step(c, s, es[0]).value, es[1..]);
    }
  }

  /** Between two steps every batch but the next one is in the pipeline or was never used. */
  lemma NothingInFlightMeans(c: Config, d: Dec)
    requires DecInv(c, d) && d.phase.Idle? && FillsUp(c, d) && NothingInFlight(d)
    ensures OthersEmpty(c, d.sched)
  {
    forall j | 0 <= j < |d.sched.batches| && j != Next(d.sched.cur, c.pp) ensures d.sched.batches[j].requests == [] {
      if |d.pipeline| >= c.pp - 1 || j <= d.sched.cur {
        var i := |d.pipeline| - 1 - (if j <= d.sched.cur then d.sched.cur - j else d.sched.cur - j + c.pp);
        assert d.pipeline[i] == j;
        assert InFlight(d, i);
      }
    }
  }

  lemma CallInFlight(c: SysConfig, s: Sys)
    requires Typed(c, s) && NoCallEver(c, s)
    ensures NothingInFlight(s.dec)
  {
    assert Possible(c, s, []) && Run(c, s, []) == Ok(s);
  }

  lemma ReachedIff(c: SysConfig, s: Sys)
    requires Inv(c, s) && Typed(c, s) && FillsUp(c.dec, s.dec) && s.dec.phase.Idle?
    requires Line(c.dec, s.dec.sched) != []
    ensures NoCallEver(c, s) <==> && NothingInFlight(s.dec)
                                  && (CannotEvict(c.dec, s.dec.sched) || ComesOutEmpty(c.dec, s.dec.sched))
  {
    if NothingInFlight(s.dec) {
      NothingInFlightMeans(c.dec, s.dec);
      NoCallEverIff(c, s);
    } else if NoCallEver(c, s) {
      CallInFlight(c, s);
    }
  }

  /** In every state a run reaches between two decoding steps, with somebody in line: no call is
      ever made again if and only if nobody is in flight and the next step raises or comes out empty. */
  lemma RunsReach(c: SysConfig, s0: Sys, es: seq<Event>, s: Sys)
    requires Inv(c, s0) && Typed(c, s0) && FillsUp(c.dec, s0.dec) && Possible(c, s0, es) && Run(c, s0, es) == Ok(s)
    ensures Inv(c, s) && FillsUp(c.dec, s.dec)
  {
    FillsUpRun(c, s0, es);
  }

  lemma InitFillsUp(c: SysConfig)
    requires c.Valid()
    ensures FillsUp(c.dec, Init(c).dec)
  {
  }

  /** In every state a run reaches between two decoding steps, with somebody in line: no call is
      ever made again if and only if nobody is in flight and the next step raises or comes out empty. */
  lemma NeverAgainIff(c: SysConfig, es: seq<Event>, s: Sys)
    requires c.Valid() && Typed(c, Init(c)) && Possible(c, Init(c), es) && Run(c, Init(c), es) == Ok(s)
    requires Typed(c, s) && s.dec.phase.Idle? && Line(c.dec, s.dec.sched) != []
    ensures NoCallEver(c, s) <==> && NothingInFlight(s.dec)
                                  && (CannotEvict(c.dec, s.dec.sched) || ComesOutEmpty(c.dec, s.dec.sched))
  {
    InitInv(c);
    InitFillsUp(c);
    RunsReach(c, Init(c), es, s);
    ReachedIff(c, s);
  }
}
