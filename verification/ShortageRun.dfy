/** Runs that raise: with two CPU blocks, one request that outgrows the GPU is enough. */
module ShortageRun {
  import opened Common
  import opened Sums
  import opened Requests
  import opened Blocks
  import opened DecodeScheduler
  import opened DecodeEngine
  import opened ContextEngine
  import opened Disaggregated

  /** One-token blocks, three of them on each GPU, two on the CPU, no pipeline parallelism. */
  const SMALL: Config := Config(1, 3, 2, 1, 10, 1, 1.0)
  /** The context engine is always built with one CPU block. */
  const PREFILL: Config := Config(1, 3, 1, 1, 10, 1, 1.0)
  const BOTH: SysConfig := SysConfig(PREFILL, SMALL)
  const TOKEN: Token := Token("a", 1)

  /** A one-token prompt that wants max tokens, after n of them. */
  function After(max: nat, n: nat): Req { Req(0, [7], Sampling(max, true, []), seq(n, _ => TOKEN), false) }

  function Managed(cpu: seq<nat>, free: seq<nat>, held: seq<nat>): BlockState {
    if held == [] then BlockState(Pool(free, []), Pool(cpu, []), map[], map[], [])
    else BlockState(Pool(free, []), Pool(cpu, []), map[0 := held], map[0 := GPU], [])
  }

  function Manager(free: seq<nat>, held: seq<nat>): BlockState { Managed([0, 1], free, held) }

  function CtxManager(free: seq<nat>, held: seq<nat>): BlockState { Managed([0], free, held) }

  function Call(r: Req, held: seq<nat>): Option<StepCall> {
    Some(StepCall([0], [InputTokenIds(r)], [FirstNewTokenIndex(r)], [held]))
  }

  // The context engine along the run.

  function CtxIdle(waiting: seq<Req>): Ctx { Ctx(CtxSched(waiting, [], 0, CtxManager([0, 1, 2], [])), [], [], false) }

  function CtxBusy(max: nat): Ctx {
    Ctx(CtxSched([], [], 1, CtxManager([1, 2], [0])), [Batch([After(max, 0)], true)], [Call(After(max, 0), [0])], true)
  }

  function CtxDone(max: nat): Ctx { Ctx(CtxSched([], [After(max, 1)], 0, CtxManager([1, 2], [0])), [], [], false) }

  function CtxCleared(): Ctx { Ctx(CtxSched([], [], 0, CtxManager([1, 2, 0], [])), [], [], false) }

  // The decoding engine along the run.

  function Decoding(rs: seq<Req>, cur: int, waiting: seq<Req>, unaccepted: seq<Mig>,
                    bm: BlockState, phase: Phase): Dec
  {
    Dec(Sched([Batch(rs, false)], cur, waiting, [], unaccepted, bm), [], [], phase)
  }

  function Running1(r: Req, bm: BlockState, held: seq<nat>, unaccepted: seq<Mig>): Dec {
    Dec(Sched([Batch([r], true)], 0, [], [], unaccepted, bm), [0], [Call(r, held)], Submitted)
  }

  function FirstMig(max: nat): Mig { Mig(After(max, 1), [0]) }

  lemma Needs(max: nat, n: nat)
    ensures Need(After(max, n), 1) == n + 1 && InNeed(After(max, n), 1) == 1
    ensures CheckFinish(After(max, n)) == (n >= max)
  {
    assert BlocksFor(1, 1) == 1;
    CountOne(n + 1);
  }

  lemma {:induction false} CountOne(n: nat)
    ensures BlocksFor(n, 1) == n
  {
    if n > 1 {
      CountOne(n - 1);
    }
  }

  /** Growing by one block. */
  lemma GrowsOne(max: nat, cpu: seq<nat>, free: seq<nat>, held: seq<nat>, x: nat, n: nat)
    requires n == |held|
    ensures Allocate(1, Managed(cpu, [x] + free, held), After(max, n)) == Ok(Managed(cpu, free, held + [x]))
  {
    var s := Managed(cpu, [x] + free, held);
    Needs(max, n);
    assert ([x] + free)[1..] == free && ([x] + free)[..1] == [x];
    assert GetFreeBlocks(s, 1, GPU) == Ok((s.(gpu := Pool(free, [])), [x]));
    if held == [] {
      assert [] + [x] == [x];
    }
    var t := Managed(cpu, free, held + [x]);
    assert Allocate(1, s, After(max, n)).Ok?;
    assert Allocate(1, s, After(max, n)).value.table == t.table;
    assert Allocate(1, s, After(max, n)).value.location == t.location;
  }

  lemma Grows(max: nat, cpu: seq<nat>, free: seq<nat>, held: seq<nat>, x: nat, n: nat)
    requires n == |held|
    ensures AllocateBatched(1, Managed(cpu, [x] + free, held), [After(max, n)]) == Ok(Managed(cpu, free, held + [x]))
  {
    GrowsOne(max, cpu, free, held, x, n);
    assert [After(max, n)][1..] == [];
  }

  lemma OneMore(max: nat, n: nat)
    requires n + 1 < max
    ensures AddTokens([After(max, n)], [TOKEN]) == Ok([After(max, n + 1)])
  {
    Needs(max, n + 1);
    assert After(max, n).output + [TOKEN] == After(max, n + 1).output;
    assert After(max, n).(output := After(max, n + 1).output) == After(max, n + 1);
    assert AddToken(After(max, n), TOKEN) == Ok(After(max, n + 1));
    assert [After(max, n)][1..] == [] && [TOKEN][1..] == [];
    assert [After(max, n + 1)] + [] == [After(max, n + 1)];
  }

  lemma One(f: Req -> nat, r: Req)
    ensures Sum(f, [r]) == f(r) && Sum(f, []) == 0
  {
    assert [r][1..] == [];
  }

  lemma NeedIs(s: Sched, rs: seq<Req>)
    requires |s.batches| == 1 && s.batches[0].requests == rs
    ensures TotalNeed(SMALL, s) == Sum(NeedF(1), rs) + Sum(InNeedF(1), s.waiting)
  {
    assert s.batches[1..] == [];
    assert SumBatches(NeedF(1), []) == 0;
  }

  lemma KeptAlone(max: nat, n: nat)
    requires n < max
    ensures Finished([After(max, n)]) == [] && Unfinished([After(max, n)]) == [After(max, n)]
  {
    assert [After(max, n)][1..] == [];
    assert Select([], true) == [] && Select([], false) == [];
    assert [After(max, n)] + [] == [After(max, n)];
    assert Select([After(max, n)], false) == [After(max, n)];
    assert Select([After(max, n)], true) == [];
  }

  lemma Arriving(max: nat)
    ensures CtxArrive(CtxIdle([]), After(max, 0)) == CtxIdle([After(max, 0)])
  {
  }

  lemma Prefilling(max: nat)
    ensures CtxSubmit(PREFILL, CtxIdle([After(max, 0)])) == Ok(CtxBusy(max))
  {
    var r := After(max, 0);
    Needs(max, 0);
    var s := CtxIdle([r]).sched;
    One(InNeedF(1), r);
    One(NumInputTokensF(), r);
    assert [] + [r] == [r];
    assert CheckPick(PREFILL, s, [], r);
    var s1 := s.(waiting := []);
    assert PickLoop(PREFILL, s1, [r]) == Ok((s1, [r]));
    assert PickLoop(PREFILL, s, []) == Ok((s1, [r]));
    assert [0, 1, 2] == [0] + [1, 2] && [] + [0] == [0];
    Grows(max, [0], [1, 2], [], 0, 0);
    assert CallOf(CtxManager([1, 2], [0]), [r]) == Call(r, [0]).value;
    assert NextBatchAndPop(PREFILL, s) == Ok((s1.(onFly := 1), [r]));
    assert CtxSubmit(PREFILL, CtxIdle([r])).Ok?;
    assert [] + [Batch([r], true)] == [Batch([r], true)];
    assert [] + [Call(r, [0])] == [Call(r, [0])];
  }

  lemma Dispatches(max: nat)
    requires max > 1
    ensures Dispatch(CtxManager([1, 2], [0]), [After(max, 1)]) == Ok((CtxManager([1, 2], [0]), [FirstMig(max)]))
  {
    Needs(max, 1);
    assert [After(max, 1)][1..] == [];
    assert Dispatch(CtxManager([1, 2], [0]), []) == Ok((CtxManager([1, 2], [0]), []));
    assert [FirstMig(max)] + [] == [FirstMig(max)];
  }

  lemma Finishes(max: nat)
    requires max > 1
    ensures FinishIteration(CtxBusy(max).pipeline[0], [TOKEN]) == Ok(Batch([After(max, 1)], false))
    ensures OnFinish(PREFILL, CtxBusy(max).sched, [After(max, 1)]) == CtxDone(max).sched
  {
    Needs(max, 1);
    OneMore(max, 0);
    One(InNeedF(1), After(max, 1));
    KeptAlone(max, 1);
    assert [] + [After(max, 1)] == [After(max, 1)];
  }

  lemma Prefilled(max: nat)
    requires max > 1
    ensures CtxReturn(PREFILL, CtxBusy(max), [TOKEN]) == Ok((CtxDone(max), [FirstMig(max)]))
  {
    Finishes(max);
    Dispatches(max);
    assert CtxBusy(max).pipeline[1..] == [] && CtxBusy(max).futures[1..] == [];
  }

  lemma Cleared(max: nat)
    ensures ClearMigrated(CtxDone(max), FirstMig(max)) == Ok(CtxCleared())
  {
    var s := CtxManager([1, 2], [0]);
    assert [1, 2] + [0] == [1, 2, 0];
    assert s.table - {0} == map[] && s.location - {0} == map[];
    assert [After(max, 1)][1..] == [];
  }

  // The decoding side.

  function Empty(): BlockState { Manager([0, 1, 2], []) }

  lemma NothingToDo(unaccepted: seq<Mig>)
    ensures Submit(SMALL, Decoding([], -1, [], unaccepted, Empty(), Idle))
         == Ok(Dec(Sched([Batch([], false)], 0, [], [], unaccepted, Empty()), [0], [None], Submitted))
  {
    var d := Decoding([], -1, [], unaccepted, Empty(), Idle);
    var s := Rotate(SMALL, d.sched);
    NeedIs(s, []);
    assert TotalNeed(SMALL, s) == 0;
    assert SwapOutLoop(SMALL, s) == Ok(s);
    assert AdmitLoop(SMALL, s) == Ok(s);
    assert GetNextBatch(SMALL, d.sched) == Ok(s);
    assert d.pipeline + [0] == [0] && d.futures + [None] == [None];
  }

  lemma NothingDone(unaccepted: seq<Mig>)
    ensures Return(SMALL, Dec(Sched([Batch([], false)], 0, [], [], unaccepted, Empty()), [0], [None], Submitted), [])
         == Ok(Decoding([], 0, [], unaccepted, Empty(), Accepting))
  {
    var d := Dec(Sched([Batch([], false)], 0, [], [], unaccepted, Empty()), [0], [None], Submitted);
    assert d.pipeline[1..] == [] && d.futures[1..] == [];
  }

  lemma Migrating1(max: nat)
    ensures ShouldAccept(SMALL, Decoding([], 0, [], [FirstMig(max)], Empty(), Accepting).sched, FirstMig(max))
    ensures MigrateBegin(SMALL, Decoding([], 0, [], [FirstMig(max)], Empty(), Accepting))
         == Ok(Decoding([], 0, [], [], Manager([1, 2], [0]), Migrating(FirstMig(max))))
  {
    Needs(max, 1);
    Needs(max, 0);
    assert After(max, 1).(output := []) == After(max, 0);
    assert [0, 1, 2] == [0] + [1, 2] && [] + [0] == [0];
    GrowsOne(max, [0, 1], [1, 2], [], 0, 0);
    var d := Decoding([], 0, [], [FirstMig(max)], Empty(), Accepting);
    assert Sum(InNeedF(1), d.sched.waiting) == 0;
    assert d.sched.unaccepted[1..] == [];
  }

  /** Submitting when the chosen batch is one request that takes one more block. */
  lemma Submits(max: nat, d: Dec, r: Req, free: seq<nat>, held: seq<nat>, x: nat, unaccepted: seq<Mig>)
    requires Shape(SMALL, d.sched) && d.pipeline == [] && d.futures == [] && r == After(max, |held|) && held != []
    requires GetNextBatch(SMALL, d.sched)
          == Ok(Sched([Batch([r], false)], 0, [], [], unaccepted, Manager([x] + free, held)))
    ensures Submit(SMALL, d) == Ok(Running1(r, Manager(free, held + [x]), held + [x], unaccepted))
  {
    var s := GetNextBatch(SMALL, d.sched).value;
    var bm := Manager(free, held + [x]);
    Grows(max, [0, 1], free, held, x, |held|);
    assert CallOf(bm, [r]) == Call(r, held + [x]).value;
    SubmitComputes(SMALL, d, s, bm);
    assert Launched(SMALL, s, bm).batches == [Batch([r], true)];
    assert [] + [0] == [0] && d.futures + [Call(r, held + [x])] == [Call(r, held + [x])];
  }

  lemma Admits1(max: nat, unaccepted: seq<Mig>)
    ensures var s := Decoding([], 0, [After(max, 1)], unaccepted, Manager([1, 2], [0]), Idle).sched;
            GetNextBatch(SMALL, s) == Ok(s.(batches := [Batch([After(max, 1)], false)], waiting := []))
  {
    var r := After(max, 1);
    Needs(max, 1);
    var s := Decoding([], 0, [r], unaccepted, Manager([1, 2], [0]), Idle).sched;
    assert Rotate(SMALL, s) == s;
    NeedIs(s, []);
    One(NeedF(1), r);
    One(InNeedF(1), r);
    One(NumInputTokensF(), r);
    assert SwapOutLoop(SMALL, s) == Ok(s);
    assert CheckAdd(SMALL, s, r);
    var s1 := s.(batches := [Batch([r], false)], waiting := []);
    assert [] + [r] == [r] && [r][1..] == [];
    assert WithCurrent(SMALL, s, [r]) == s1.batches;
    assert AdmitHead(SMALL, s) == Ok(s1);
    assert AdmitLoop(SMALL, s1) == Ok(s1);
  }

  lemma Admitting(max: nat, unaccepted: seq<Mig>)
    ensures Submit(SMALL, Decoding([], 0, [After(max, 1)], unaccepted, Manager([1, 2], [0]), Idle))
         == Ok(Running1(After(max, 1), Manager([2], [0, 1]), [0, 1], unaccepted))
  {
    Admits1(max, unaccepted);
    assert [1, 2] == [1] + [2] && [0] + [1] == [0, 1];
    Submits(max, Decoding([], 0, [After(max, 1)], unaccepted, Manager([1, 2], [0]), Idle), After(max, 1),
            [2], [0], 1, unaccepted);
  }

  lemma Decoded(max: nat, n: nat, free: seq<nat>, held: seq<nat>, unaccepted: seq<Mig>)
    requires n + 1 < max && held != []
    ensures Return(SMALL, Running1(After(max, n), Manager(free, held), held, unaccepted), [TOKEN])
         == Ok(Decoding([After(max, n + 1)], 0, [], unaccepted, Manager(free, held), Accepting))
  {
    OneMore(max, n);
    KeptAlone(max, n + 1);
    var d := Running1(After(max, n), Manager(free, held), held, unaccepted);
    assert d.sched.batches[0 := Batch([After(max, n + 1)], false)] == [Batch([After(max, n + 1)], false)];
    assert FreeBatched(Manager(free, held), []) == Ok(Manager(free, held));
    assert AddTokens(d.sched.batches[0].requests, [TOKEN]) == Ok([After(max, n + 1)]);
    assert FinishIteration(d.sched.batches[0], [TOKEN]) == Ok(Batch([After(max, n + 1)], false));
    assert Next(0, 1) == 0;
    var s1 := d.sched.(batches := [Batch([After(max, n + 1)], false)]);
    assert WithBatch(s1, 0, [After(max, n + 1)]).batches == [Batch([After(max, n + 1)], false)];
    assert d.pipeline[1..] == [] && d.futures[1..] == [];
  }

  lemma DecodingAgain(max: nat)
    ensures Submit(SMALL, Decoding([After(max, 2)], 0, [], [], Manager([2], [0, 1]), Idle))
         == Ok(Running1(After(max, 2), Manager([], [0, 1, 2]), [0, 1, 2], []))
  {
    var r := After(max, 2);
    Needs(max, 2);
    var d := Decoding([r], 0, [], [], Manager([2], [0, 1]), Idle);
    NeedIs(d.sched, [r]);
    One(NeedF(1), r);
    assert Rotate(SMALL, d.sched) == d.sched;
    assert SwapOutLoop(SMALL, d.sched) == Ok(d.sched);
    assert AdmitLoop(SMALL, d.sched) == Ok(d.sched);
    assert [2] == [2] + [] && [0, 1] + [2] == [0, 1, 2];
    Submits(max, d, r, [], [0, 1], 2, []);
  }

  lemma Overgrown(max: nat)
    requires max > 3
    ensures Submit(SMALL, Decoding([After(max, 3)], 0, [], [], Manager([], [0, 1, 2]), Idle)) == Err(OutOfCpuBlocks)
  {
    var r := After(max, 3);
    Needs(max, 3);
    var s := Rotate(SMALL, Decoding([r], 0, [], [], Manager([], [0, 1, 2]), Idle).sched);
    assert [r][1..] == [];
    NeedIs(s, [r]);
    One(NeedF(1), r);
    assert TotalNeed(SMALL, s) == 4;
    SwapSingle(s.bm, 0, false);
  }

  // ---------------------------------------------------------------- the run

  function EventAt(max: nat, k: nat): Event {
    match k
    case 0 => Arrive(After(max, 0))
    case 1 => CtxStep
    case 2 => CtxBack([TOKEN])
    case 3 => Bridge
    case 4 => DecStep
    case 5 => DecBack([])
    case 6 => MigBegin
    case 7 => MigEnd
    case 8 => DecDone
    case 9 => DecStep
    case 10 => DecBack([TOKEN])
    case 11 => DecDone
    case 12 => DecStep
    case 13 => DecBack([TOKEN])
    case 14 => DecDone
    case _ => DecStep
  }

  /** The states the run goes through. */
  function ContextAt(max: nat, k: nat): Ctx {
    if k == 0 then CtxIdle([])
    else if k == 1 then CtxIdle([After(max, 0)])
    else if k == 2 then CtxBusy(max)
    else if k <= 7 then CtxDone(max)
    else CtxCleared()
  }

  function DecodingAt(max: nat, k: nat): Dec {
    match k
    case 4 => Decoding([], -1, [], [FirstMig(max)], Empty(), Idle)
    case 5 => Dec(Sched([Batch([], false)], 0, [], [], [FirstMig(max)], Empty()), [0], [None], Submitted)
    case 6 => Decoding([], 0, [], [FirstMig(max)], Empty(), Accepting)
    case 7 => Decoding([], 0, [], [], Manager([1, 2], [0]), Migrating(FirstMig(max)))
    case 8 => Decoding([], 0, [After(max, 1)], [], Manager([1, 2], [0]), Accepting)
    case 9 => Decoding([], 0, [After(max, 1)], [], Manager([1, 2], [0]), Idle)
    case 10 => Running1(After(max, 1), Manager([2], [0, 1]), [0, 1], [])
    case 11 => Decoding([After(max, 2)], 0, [], [], Manager([2], [0, 1]), Accepting)
    case 12 => Decoding([After(max, 2)], 0, [], [], Manager([2], [0, 1]), Idle)
    case 13 => Running1(After(max, 2), Manager([], [0, 1, 2]), [0, 1, 2], [])
    case 14 => Decoding([After(max, 3)], 0, [], [], Manager([], [0, 1, 2]), Accepting)
    case 15 => Decoding([After(max, 3)], 0, [], [], Manager([], [0, 1, 2]), Idle)
    case _ => Decoding([], -1, [], [], Empty(), Idle)
  }

  function StateAt(max: nat, k: nat): Sys {
    Sys(ContextAt(max, k), if k == 3 then [FirstMig(max)] else [], DecodingAt(max, k))
  }

  ghost predicate Goes(s: Sys, e: Event, t: Sys) {
    Typed(BOTH, s) && Enabled(BOTH, s, e) && Step(BOTH, s, e) == Ok(t)
  }

  lemma StepSubmits(s: Sys, d: Dec)
    requires Typed(BOTH, s) && s.dec.phase.Idle? && Submit(SMALL, s.dec) == Ok(d)
    ensures Goes(s, DecStep, s.(dec := d))
  {
  }

  lemma StepReturns(s: Sys, ts: seq<Token>, d: Dec)
    requires Typed(BOTH, s) && s.dec.phase.Submitted? && TokensFor(SMALL, s.dec, ts)
    requires Return(SMALL, s.dec, ts) == Ok(d)
    ensures Goes(s, DecBack(ts), s.(dec := d))
  {
  }

  lemma StepStops(s: Sys)
    requires Typed(BOTH, s) && s.dec.phase.Accepting? && s.dec.sched.unaccepted == []
    ensures Goes(s, DecDone, s.(dec := s.dec.(phase := Idle)))
  {
  }

  lemma StepMigrates(s: Sys, d: Dec)
    requires Typed(BOTH, s) && s.dec.phase.Accepting? && CanAccept(BOTH, s)
    requires MigrateBegin(SMALL, s.dec) == Ok(d)
    ensures Goes(s, MigBegin, s.(dec := d))
  {
  }

  lemma StepClears(s: Sys, x: Ctx)
    requires Typed(BOTH, s) && s.dec.phase.Migrating? && ClearMigrated(s.ctx, s.dec.phase.mig) == Ok(x)
    ensures Goes(s, MigEnd, s.(ctx := x, dec := MigrateEnd(s.dec)))
  {
  }

  lemma StepPrefills(s: Sys, x: Ctx)
    requires Typed(BOTH, s) && !s.ctx.submitted && CtxSubmit(PREFILL, s.ctx) == Ok(x)
    ensures Goes(s, CtxStep, s.(ctx := x))
  {
  }

  lemma StepPrefilled(s: Sys, ts: seq<Token>, x: Ctx, migs: seq<Mig>)
    requires Typed(BOTH, s) && s.ctx.submitted && CtxTokensFor(PREFILL, s.ctx, ts)
    requires CtxReturn(PREFILL, s.ctx, ts) == Ok((x, migs))
    ensures Goes(s, CtxBack(ts), s.(ctx := x, bridge := s.bridge + migs))
  {
  }

  lemma ArrivalGoes(max: nat)
    requires max >= 1
    ensures Goes(StateAt(max, 0), EventAt(max, 0), StateAt(max, 1))
  {
    Arriving(max);
  }

  lemma BeforePrefill(max: nat)
    ensures Typed(BOTH, StateAt(max, 1)) && StateAt(max, 1).ctx == CtxIdle([After(max, 0)])
    ensures StateAt(max, 1).(ctx := CtxBusy(max)) == StateAt(max, 2) && EventAt(max, 1) == CtxStep
  {
  }

  lemma PrefillGoes(max: nat)
    ensures Goes(StateAt(max, 1), EventAt(max, 1), StateAt(max, 2))
  {
    BeforePrefill(max);
    Prefilling(max);
    StepPrefills(StateAt(max, 1), CtxBusy(max));
  }

  lemma BeforePrefilled(max: nat)
    requires max > 1
    ensures Typed(BOTH, StateAt(max, 2)) && StateAt(max, 2).ctx == CtxBusy(max)
    ensures CtxTokensFor(PREFILL, CtxBusy(max), [TOKEN])
    ensures StateAt(max, 2).(ctx := CtxDone(max), bridge := StateAt(max, 2).bridge + [FirstMig(max)]) == StateAt(max, 3)
    ensures EventAt(max, 2) == CtxBack([TOKEN])
  {
    assert [] + [FirstMig(max)] == [FirstMig(max)];
  }

  lemma PrefilledGoes(max: nat)
    requires max > 1
    ensures Goes(StateAt(max, 2), EventAt(max, 2), StateAt(max, 3))
  {
    BeforePrefilled(max);
    Prefilled(max);
    StepPrefilled(StateAt(max, 2), [TOKEN], CtxDone(max), [FirstMig(max)]);
  }

  lemma BridgeGoes(max: nat)
    ensures Goes(StateAt(max, 3), EventAt(max, 3), StateAt(max, 4))
  {
    assert [FirstMig(max)][1..] == [] && [] + [FirstMig(max)] == [FirstMig(max)];
  }

  lemma BeforeEmptySubmit(max: nat)
    ensures Typed(BOTH, StateAt(max, 4)) && StateAt(max, 4).dec == Decoding([], -1, [], [FirstMig(max)], Empty(), Idle)
    ensures StateAt(max, 4).(dec := DecodingAt(max, 5)) == StateAt(max, 5) && EventAt(max, 4) == DecStep
  {
  }

  lemma EmptySubmitGoes(max: nat)
    ensures Goes(StateAt(max, 4), EventAt(max, 4), StateAt(max, 5))
  {
    BeforeEmptySubmit(max);
    NothingToDo([FirstMig(max)]);
    assert Submit(SMALL, StateAt(max, 4).dec) == Ok(DecodingAt(max, 5));
    StepSubmits(StateAt(max, 4), DecodingAt(max, 5));
  }

  lemma EmptyReturnGoes(max: nat)
    ensures Goes(StateAt(max, 5), EventAt(max, 5), StateAt(max, 6))
  {
    NothingDone([FirstMig(max)]);
    StepReturns(StateAt(max, 5), [], DecodingAt(max, 6));
  }

  lemma MigrationStarts(max: nat)
    ensures Goes(StateAt(max, 6), EventAt(max, 6), StateAt(max, 7))
  {
    Migrating1(max);
    StepMigrates(StateAt(max, 6), DecodingAt(max, 7));
  }

  lemma MigrationEnds(max: nat)
    ensures Goes(StateAt(max, 7), EventAt(max, 7), StateAt(max, 8))
  {
    Cleared(max);
    StepClears(StateAt(max, 7), CtxCleared());
    assert [] + [After(max, 1)] == [After(max, 1)];
  }

  lemma AdmitGoes(max: nat)
    ensures Goes(StateAt(max, 9), EventAt(max, 9), StateAt(max, 10))
  {
    Admitting(max, []);
    StepSubmits(StateAt(max, 9), DecodingAt(max, 10));
  }

  lemma DecodeGoes(max: nat)
    ensures Goes(StateAt(max, 12), EventAt(max, 12), StateAt(max, 13))
  {
    DecodingAgain(max);
    StepSubmits(StateAt(max, 12), DecodingAt(max, 13));
  }

  lemma BeforeFirstReturn(max: nat)
    ensures Typed(BOTH, StateAt(max, 10))
    ensures StateAt(max, 10).dec == Running1(After(max, 1), Manager([2], [0, 1]), [0, 1], [])
    ensures StateAt(max, 10).(dec := DecodingAt(max, 11)) == StateAt(max, 11) && EventAt(max, 10) == DecBack([TOKEN])
  {
  }

  lemma FirstReturnGoes(max: nat)
    requires max > 2
    ensures Goes(StateAt(max, 10), EventAt(max, 10), StateAt(max, 11))
  {
    BeforeFirstReturn(max);
    Decoded(max, 1, [2], [0, 1], []);
    StepReturns(StateAt(max, 10), [TOKEN], DecodingAt(max, 11));
  }

  lemma BeforeSecondReturn(max: nat)
    ensures Typed(BOTH, StateAt(max, 13))
    ensures StateAt(max, 13).dec == Running1(After(max, 2), Manager([], [0, 1, 2]), [0, 1, 2], [])
    ensures StateAt(max, 13).(dec := DecodingAt(max, 14)) == StateAt(max, 14) && EventAt(max, 13) == DecBack([TOKEN])
  {
  }

  lemma SecondReturnGoes(max: nat)
    requires max > 3
    ensures Goes(StateAt(max, 13), EventAt(max, 13), StateAt(max, 14))
  {
    BeforeSecondReturn(max);
    Decoded(max, 2, [], [0, 1, 2], []);
    StepReturns(StateAt(max, 13), [TOKEN], DecodingAt(max, 14));
  }

  lemma StopsGo(max: nat, k: nat)
    requires k == 8 || k == 11 || k == 14
    ensures Goes(StateAt(max, k), EventAt(max, k), StateAt(max, k + 1))
  {
    StepStops(StateAt(max, k));
  }

  lemma AllGo(max: nat, k: nat)
    requires k < 15 && max > (if k < 13 then 2 else 3)
    ensures Goes(StateAt(max, k), EventAt(max, k), StateAt(max, k + 1))
  {
    match k
    case 0 => ArrivalGoes(max);
    case 1 => PrefillGoes(max);
    case 2 => PrefilledGoes(max);
    case 3 => BridgeGoes(max);
    case 4 => EmptySubmitGoes(max);
    case 5 => EmptyReturnGoes(max);
    case 6 => MigrationStarts(max);
    case 7 => MigrationEnds(max);
    case 8 => StopsGo(max, 8);
    case 9 => AdmitGoes(max);
    case 10 => FirstReturnGoes(max);
    case 11 => StopsGo(max, 11);
    case 12 => DecodeGoes(max);
    case 13 => SecondReturnGoes(max);
    case _ => StopsGo(max, 14);
  }

  lemma Ends(max: nat)
    requires max > 3
    ensures Typed(BOTH, StateAt(max, 15)) && Enabled(BOTH, StateAt(max, 15), EventAt(max, 15))
    ensures Step(BOTH, StateAt(max, 15), EventAt(max, 15)) == Err(OutOfCpuBlocks)
  {
    Overgrown(max);
  }

  function EventsFrom(max: nat, k: nat): seq<Event>
    requires k <= 16
    decreases 16 - k
  {
    if k == 16 then [] else [EventAt(max, k)] + EventsFrom(max, k + 1)
  }

  /** A run that takes a step and then fails, fails. */
  lemma StepThenRun(s: Sys, e: Event, t: Sys, rest: seq<Event>)
    requires Goes(s, e, t) && Possible(BOTH, t, rest) && Run(BOTH, t, rest) == Err(OutOfCpuBlocks)
    ensures Possible(BOTH, s, [e] + rest) && Run(BOTH, s, [e] + rest) == Err(OutOfCpuBlocks)
  {
    assert ([e] + rest)[1..] == rest;
  }

  lemma {:induction false} RunsOn(max: nat, k: nat)
    requires k < 16 && max > 3
    ensures Typed(BOTH, StateAt(max, k)) && Possible(BOTH, StateAt(max, k), EventsFrom(max, k))
    ensures Run(BOTH, StateAt(max, k), EventsFrom(max, k)) == Err(OutOfCpuBlocks)
    decreases 16 - k
  {
    if k == 15 {
      Ends(max);
      assert EventsFrom(max, 15) == [EventAt(max, 15)];
    } else {
      AllGo(max, k);
      RunsOn(max, k + 1);
      StepThenRun(StateAt(max, k), EventAt(max, k), StateAt(max, k + 1), EventsFrom(max, k + 1));
    }
  }

  /** Nothing but the number of CPU blocks is wrong here, and the run still ends in an exception. */
  lemma ShortageHappens(max: nat)
    requires max > 3
    ensures BOTH.Valid() && Typed(BOTH, Init(BOTH)) && Possible(BOTH, Init(BOTH), EventsFrom(max, 0))
    ensures Run(BOTH, Init(BOTH), EventsFrom(max, 0)) == Err(OutOfCpuBlocks)
  {
    assert InitState(3, 2) == Manager([0, 1, 2], []);
    assert InitState(3, 1) == CtxManager([0, 1, 2], []);
    assert InitBatches(1) == [Batch([], false)];
    assert Init(BOTH) == StateAt(max, 0);
    RunsOn(max, 0);
  }
}
