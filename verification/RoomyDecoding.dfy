/** A condition on the configuration under which the decoding queues never get stuck: what the waiting
    queue may reserve, one more prompt and one whole request fit the GPU together. Then every run can
    be continued until everybody has left. */
module RoomyDecoding {
  import opened Common
  import opened Sums
  import opened Requests
  import opened DecodeScheduler
  import opened DecodeEngine
  import opened ContextEngine
  import opened Disaggregated
  import opened DecodeOrder
  import opened Conservation
  import opened DecodeStuck
  import opened Delivery
  import opened Work
  import opened Progress
  import opened Drain

  /** No prompt takes more than p blocks, no request ever more than n, and beside the share of the GPU
      the waiting queue may reserve there is room for both. */
  predicate Roomy(c: Config, p: nat, n: nat) {
    && c.maxBatchSize >= 1 && c.maxTokensPerBatch >= 1 && c.waitingThreshold >= 0.0
    && c.maxGpu as real * c.waitingThreshold + p as real + n as real <= c.maxGpu as real
  }

  predicate Small(c: Config, r: Req, p: nat, n: nat)
    requires c.Valid()
  {
    InNeed(r, c.blockSize) <= p && MaxNeed(r, c.blockSize) <= n
  }

  function LargeF(c: Config, p: nat, n: nat): Req -> nat
    requires c.Valid()
  {
    (r: Req) => if Small(c, r, p, n) then 0 else 1
  }

  lemma LargeStatic(c: Config, p: nat, n: nat)
    requires c.Valid()
    ensures Static(LargeF(c, p, n))
  {
  }

  lemma EverybodySmall(c: Config, s: Sys, p: nat, n: nat, r: Req)
    requires c.Valid() && Sum(LargeF(c, p, n), Everyone(s)) == 0 && r in Everyone(s)
    ensures Small(c, r, p, n)
  {
    SumMember(LargeF(c, p, n), Everyone(s), r);
  }

  // ---------------------------------------------------------------- what the waiting queue reserves

  /** Blocks reserved for prompts: the waiting queue and the request being migrated in. */
  function Reserved(c: Config, d: Dec): nat
    requires c.Valid()
  {
    Sum(InNeedF(c.blockSize), d.sched.waiting) + Sum(InNeedF(c.blockSize), MigReqs(d))
  }

  /** The queue never reserves more than its share and one prompt. */
  predicate Capped(c: Config, d: Dec, p: nat)
    requires c.Valid()
  {
    Reserved(c, d) == 0 || Reserved(c, d) as real < c.maxGpu as real * c.waitingThreshold + p as real
  }

  lemma SubmitReserves(c: Config, d: Dec)
    requires IndicesOk(c, d) && d.phase.Idle? && Submit(c, d).Ok?
    ensures Reserved(c, Submit(c, d).value) <= Reserved(c, d)
  {
    SubmitShape(c, d);
    SubmitPipeline(c, d);
    var k, m, w, mid := NextBatchIsFcfs(c, d.sched);
    assert d.sched.waiting == d.sched.waiting[..w] + d.sched.waiting[w..];
    SumAppend(InNeedF(c.blockSize), d.sched.waiting[..w], d.sched.waiting[w..]);
  }

  lemma ReturnReserves(c: Config, d: Dec, ts: seq<Token>)
    requires IndicesOk(c, d) && d.phase.Submitted? && Return(c, d, ts).Ok?
    ensures Reserved(c, Return(c, d, ts).value) == Reserved(c, d)
  {
  }

  /** The head of the pending requests was asked for by somebody in the system. */
  lemma PendingIsIn(c: SysConfig, s: Sys)
    requires Inv(c, s) && !s.dec.phase.Migrating? && s.dec.sched.unaccepted != []
    ensures s.dec.sched.unaccepted[0].req in Everyone(s)
  {
    assert Pending(s)[0] == s.dec.sched.unaccepted[0];
    assert Reqs(Pending(s))[0] == s.dec.sched.unaccepted[0].req;
  }

  lemma AcceptedCapped(c: Config, d: Dec, p: nat)
    requires c.Valid() && d.phase.Accepting? && d.sched.unaccepted != [] && MigrateBegin(c, d).Ok?
    requires ShouldAccept(c, d.sched, d.sched.unaccepted[0]) && InNeed(d.sched.unaccepted[0].req, c.blockSize) <= p
    ensures Capped(c, MigrateBegin(c, d).value, p)
  {
    SumOne(InNeedF(c.blockSize), d.sched.unaccepted[0].req);
  }

  lemma EnqueuedReserves(c: Config, d: Dec)
    requires c.Valid() && d.phase.Migrating?
    ensures Reserved(c, MigrateEnd(d)) == Reserved(c, d)
  {
    SumSnoc(InNeedF(c.blockSize), d.sched.waiting, d.phase.mig.req);
    SumOne(InNeedF(c.blockSize), d.phase.mig.req);
  }

  lemma CappedMigration(c: SysConfig, s: Sys, e: Event, p: nat, n: nat)
    requires Inv(c, s) && Typed(c, s) && Enabled(c, s, e) && Step(c, s, e).Ok? && Capped(c.dec, s.dec, p)
    requires Sum(LargeF(c.dec, p, n), Everyone(s)) == 0 && (e.MigBegin? || e.MigEnd?)
    ensures Capped(c.dec, Step(c, s, e).value.dec, p)
  {
    if e.MigBegin? {
      PendingIsIn(c, s);
      EverybodySmall(c.dec, s, p, n, s.dec.sched.unaccepted[0].req);
      AcceptedCapped(c.dec, s.dec, p);
      MigBeginComputes(c, s);
    } else {
      EnqueuedReserves(c.dec, s.dec);
      MigEndComputes(c, s);
    }
  }

  lemma CappedDecoding(c: SysConfig, s: Sys, e: Event, p: nat)
    requires Inv(c, s) && Typed(c, s) && Enabled(c, s, e) && Step(c, s, e).Ok? && Capped(c.dec, s.dec, p)
    requires e.DecStep? || e.DecBack?
    ensures Capped(c.dec, Step(c, s, e).value.dec, p)
  {
    if e.DecStep? {
      DecStepComputes(c, s);
      SubmitReserves(c.dec, s.dec);
    } else {
      DecBackComputes(c, s, e.tokens);
      ReturnReserves(c.dec, s.dec, e.tokens);
    }
  }

  lemma ReservedUntouched(c: SysConfig, s: Sys, e: Event)
    requires Typed(c, s) && Enabled(c, s, e) && Step(c, s, e).Ok?
    requires !e.DecStep? && !e.DecBack? && !e.MigBegin? && !e.MigEnd?
    ensures Reserved(c.dec, Step(c, s, e).value.dec) == Reserved(c.dec, s.dec)
  {
    QueuesUntouched(c, s, e);
  }

  lemma CappedStep(c: SysConfig, s: Sys, e: Event, p: nat, n: nat)
    requires Inv(c, s) && Typed(c, s) && Enabled(c, s, e) && Step(c, s, e).Ok? && Capped(c.dec, s.dec, p)
    requires Sum(LargeF(c.dec, p, n), Everyone(s)) == 0
    ensures Capped(c.dec, Step(c, s, e).value.dec, p)
  {
    if e.DecStep? || e.DecBack? {
      CappedDecoding(c, s, e, p);
    } else if e.MigBegin? || e.MigEnd? {
      CappedMigration(c, s, e, p, n);
    } else {
      ReservedUntouched(c, s, e);
    }
  }

  lemma SmallNext(c: SysConfig, s: Sys, e: Event, p: nat, n: nat) returns (t: Sys)
    requires Inv(c, s) && Typed(c, s) && Enabled(c, s, e) && Step(c, s, e).Ok? && Capped(c.dec, s.dec, p)
    requires Sum(LargeF(c.dec, p, n), Everyone(s)) == 0 && NewSum(LargeF(c.dec, p, n), e) == 0
    ensures Step(c, s, e) == Ok(t) && Inv(c, t) && Typed(c, t)
    ensures Capped(c.dec, t.dec, p) && Sum(LargeF(c.dec, p, n), Everyone(t)) == 0
  {
    t := Step(c, s, e).value;
    StepInv(c, s, e);
    CappedStep(c, s, e, p, n);
    StaysSmall(c, s, e, p, n);
  }

  lemma StaysSmall(c: SysConfig, s: Sys, e: Event, p: nat, n: nat)
    requires Inv(c, s) && Typed(c, s) && Enabled(c, s, e) && Step(c, s, e).Ok?
    requires Sum(LargeF(c.dec, p, n), Everyone(s)) == 0 && NewSum(LargeF(c.dec, p, n), e) == 0
    ensures Sum(LargeF(c.dec, p, n), Everyone(Step(c, s, e).value)) == 0
  {
    LargeStatic(c.dec, p, n);
    StaticStep(LargeF(c.dec, p, n), c, s, e);
  }

  /** What a run keeps while only small requests arrive. */
  lemma {:induction false} SmallRun(c: SysConfig, s: Sys, es: seq<Event>, p: nat, n: nat)
    requires Inv(c, s) && Typed(c, s) && Possible(c, s, es) && Capped(c.dec, s.dec, p)
    requires Sum(LargeF(c.dec, p, n), Everyone(s)) == 0 && Sum(LargeF(c.dec, p, n), Arrived(es)) == 0
    ensures Run(c, s, es).Ok? ==>
              var t := Run(c, s, es).value;
              Inv(c, t) && Capped(c.dec, t.dec, p) && Sum(LargeF(c.dec, p, n), Everyone(t)) == 0
    decreases |es|
  {
    if es != [] {
      FirstEvent(c, s, es);
      if Step(c, s, es[0]).Ok? {
        ArrivedSum(LargeF(c.dec, p, n), es);
        var t := SmallNext(c, s, es[0], p, n);
        SmallRun(c, t, es[1..], p, n);
      }
    }
  }

  // ---------------------------------------------------------------- never stuck

  lemma HeadIsLive(c: Config, s: Sched, mig: seq<Req>, open: int)
    requires SchedInv(c, s, mig, open) && Queued(s)
    ensures Live(Head(s)) && NumInputTokens(Head(s)) == 1
  {
    if s.swapped != [] {
      assert Evicted(c, s.bm, s.swapped[0]);
    } else {
      assert PromptSized(c, s.bm, s.waiting[0]);
    }
  }

  lemma HeadIsIn(s: Sys)
    requires Queued(s.dec.sched)
    ensures Head(s.dec.sched) in Everyone(s)
  {
  }

  lemma NeedBelowMax(c: Config, r: Req)
    requires c.Valid() && Live(r)
    ensures Need(r, c.blockSize) <= MaxNeed(r, c.blockSize)
  {
    BlocksForMonotone(|r.prompt| + |r.output|, |r.prompt| + r.sampling.maxTokens - 1, c.blockSize);
  }

  lemma CapLeavesRoom(reserved: nat, need: nat, share: real, p: nat, n: nat, max: nat)
    requires reserved == 0 || reserved as real < share + p as real
    requires share + p as real + n as real <= max as real && need <= n && share >= 0.0
    ensures reserved + need <= max
  {
  }

  lemma ShareNat(c: Config)
    requires c.waitingThreshold >= 0.0
    ensures c.maxGpu as real * c.waitingThreshold >= 0.0
  {
  }

  lemma FitsBeside(c: Config, s: Sched, r: Req, reserved: nat)
    requires c.Valid() && c.maxBatchSize >= 1 && c.maxTokensPerBatch >= 1 && NumInputTokens(r) == 1
    requires Sum(InNeedF(c.blockSize), s.waiting) <= reserved && reserved + Need(r, c.blockSize) <= c.maxGpu
    ensures !TooBig(c, s, r)
  {
  }

  lemma HeadFits(c: Config, d: Dec, p: nat, n: nat)
    requires DecInv(c, d) && Queued(d.sched) && Roomy(c, p, n) && Capped(c, d, p) && Small(c, Head(d.sched), p, n)
    ensures !HeadBlocked(c, d.sched)
  {
    var r := Head(d.sched);
    HeadIsLive(c, d.sched, MigReqs(d), OpenIndex(c, d));
    NeedBelowMax(c, r);
    ShareNat(c);
    CapLeavesRoom(Reserved(c, d), Need(r, c.blockSize), c.maxGpu as real * c.waitingThreshold, p, n, c.maxGpu);
    FitsBeside(c, d.sched, r, Reserved(c, d));
  }

  /** With room, the first in line is never blocked once the batches are empty. */
  lemma RoomyNeverStuck(c: SysConfig, s: Sys, p: nat, n: nat)
    requires Inv(c, s) && Roomy(c.dec, p, n) && Capped(c.dec, s.dec, p)
    requires Sum(LargeF(c.dec, p, n), Everyone(s)) == 0
    ensures !Stuck(c.dec, s.dec.sched)
  {
    if Queued(s.dec.sched) {
      HeadIsIn(s);
      EverybodySmall(c.dec, s, p, n, Head(s.dec.sched));
      HeadFits(c.dec, s.dec, p, n);
    }
  }

  // ---------------------------------------------------------------- every run can be emptied

  lemma RoomyDrains(c: SysConfig, s: Sys, p: nat, n: nat) returns (es: seq<Event>, t: Sys)
    requires Inv(c, s) && Typed(c, s) && EnoughCpu(c, s) && Sum(UnservableF(c), Everyone(s)) == 0
    requires Roomy(c.dec, p, n)
    requires Capped(c.dec, s.dec, p) && Sum(LargeF(c.dec, p, n), Everyone(s)) == 0
    ensures NoArrivals(es) && Possible(c, s, es) && Run(c, s, es) == Ok(t) && Everyone(t) == []
  {
    es, t := DrainsOrSticks(c, s);
    NothingArrives(es);
    SmallRun(c, s, es, p, n);
    RoomyNeverStuck(c, t, p, n);
  }

  lemma RunsStayRoomy(c: SysConfig, es: seq<Event>, s: Sys, p: nat, n: nat)
    requires c.Valid() && Typed(c, Init(c)) && Possible(c, Init(c), es) && Run(c, Init(c), es) == Ok(s)
    requires forall r :: r in Arrived(es) ==> Servable(c, r) && Small(c.dec, r, p, n)
    ensures Inv(c, s) && Capped(c.dec, s.dec, p)
    ensures Sum(LargeF(c.dec, p, n), Everyone(s)) == 0 && Sum(UnservableF(c), Everyone(s)) == 0
  {
    InitInv(c);
    EmptyFlatten(InitBatches(c.dec.pp));
    assert Everyone(Init(c)) == [];
    SumZero(LargeF(c.dec, p, n), Arrived(es));
    SumZero(UnservableF(c), Arrived(es));
    UnservableStatic(c);
    StaticRun(UnservableF(c), c, Init(c), es);
    SmallRun(c, Init(c), es, p, n);
  }

  /** Liveness of the engines. Take any run of requests the context engine can prefill and the
      decoding engine can accept, in a configuration with room, that has not yet filled the CPU: it
      can be continued, without a new arrival and without an exception, until everybody has left. */
  lemma EveryRunCanDrain(c: SysConfig, es: seq<Event>, s: Sys, p: nat, n: nat)
    returns (more: seq<Event>, t: Sys)
    requires c.Valid() && Typed(c, Init(c)) && Possible(c, Init(c), es) && Run(c, Init(c), es) == Ok(s)
    requires forall r :: r in Arrived(es) ==> Servable(c, r) && Small(c.dec, r, p, n)
    requires Roomy(c.dec, p, n) && EnoughCpu(c, s) && Typed(c, s)
    ensures NoArrivals(more) && Possible(c, s, more) && Run(c, s, more) == Ok(t) && Everyone(t) == []
  {
    RunsStayRoomy(c, es, s, p, n);
    more, t := RoomyDrains(c, s, p, n);
  }
}
