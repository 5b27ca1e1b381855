/** Runs that get stuck although each request would fit the GPU alone: the first grows after the
    second was accepted, is swapped out, and never fits beside the second, which is never looked at. */
module StuckRun {
  import opened Common
  import opened Sums
  import opened Requests
  import opened Blocks
  import opened DecodeScheduler
  import opened DecodeEngine
  import opened ContextEngine
  import opened Disaggregated
  import opened ShortageRun
  import opened DecodeStuck
  import opened Drain

  /** The second request, after n tokens. */
  function Other(max: nat, n: nat): Req { Req(1, [8], Sampling(max, true, []), seq(n, _ => TOKEN), false) }

  function OtherCall(max: nat): Option<StepCall> {
    Some(StepCall([1], [InputTokenIds(Other(max, 0))], [FirstNewTokenIndex(Other(max, 0))], [[1]]))
  }

  function OtherMig(max: nat): Mig { Mig(Other(max, 1), [1]) }

  /** The context manager while the second request has its block. */
  function OtherHeld(): BlockState {
    BlockState(Pool([2, 0], []), Pool([0], []), map[1 := [1]], map[1 := GPU], [])
  }

  /** The decoding manager with both requests on the GPU, and after the first was swapped out. */
  function BothHeld(): BlockState {
    BlockState(Pool([], []), Pool([0, 1], []), map[0 := [0, 1], 1 := [2]], map[0 := GPU, 1 := GPU], [])
  }

  function FirstOut(): BlockState {
    BlockState(Pool([], [0, 1]), Pool([], []), map[0 := [0, 1], 1 := [2]], map[0 := CPU, 1 := GPU],
               [SwapBlocks([0], [0, 1], [0, 1], false)])
  }

  // ---------------------------------------------------------------- the second request's prefill

  lemma OtherNeeds(max: nat, n: nat)
    ensures Need(Other(max, n), 1) == n + 1 && InNeed(Other(max, n), 1) == 1
    ensures CheckFinish(Other(max, n)) == (n >= max)
  {
    assert BlocksFor(1, 1) == 1;
    CountOne(n + 1);
  }

  function OtherWaits(max: nat): Ctx { Ctx(CtxSched([Other(max, 0)], [], 0, CtxManager([1, 2, 0], [])), [], [], false) }

  function OtherRuns(max: nat): Ctx {
    Ctx(CtxSched([], [], 1, OtherHeld()), [Batch([Other(max, 0)], true)], [OtherCall(max)], true)
  }

  function OtherDone(max: nat): Ctx { Ctx(CtxSched([], [Other(max, 1)], 0, OtherHeld()), [], [], false) }

  function OtherGone(): Ctx {
    Ctx(CtxSched([], [], 0, CtxManager([2, 0, 1], [])), [], [], false)
  }

  lemma OtherAllocates(max: nat)
    ensures AllocateBatched(1, CtxManager([1, 2, 0], []), [Other(max, 0)]) == Ok(OtherHeld())
  {
    var s := CtxManager([1, 2, 0], []);
    OtherNeeds(max, 0);
    assert s.gpu.free[..1] == [1] && s.gpu.free[1..] == [2, 0];
    assert Allocate(1, s, Other(max, 0)).Ok?;
    assert Allocate(1, s, Other(max, 0)).value.table == OtherHeld().table;
    assert Allocate(1, s, Other(max, 0)).value.location == OtherHeld().location;
    assert Allocate(1, s, Other(max, 0)) == Ok(OtherHeld());
    assert [Other(max, 0)][1..] == [];
  }

  lemma OtherPicked(max: nat)
    ensures PickLoop(PREFILL, OtherWaits(max).sched, []) == Ok((OtherWaits(max).sched.(waiting := []), [Other(max, 0)]))
  {
    var r, s := Other(max, 0), OtherWaits(max).sched;
    OtherNeeds(max, 0);
    One(InNeedF(1), r);
    One(NumInputTokensF(), r);
    assert [] + [r] == [r] && [r][1..] == [];
    assert CheckPick(PREFILL, s, [], r);
    assert PickLoop(PREFILL, s.(waiting := []), [r]) == Ok((s.(waiting := []), [r]));
  }

  lemma OtherPrefills(max: nat)
    ensures CtxSubmit(PREFILL, OtherWaits(max)) == Ok(OtherRuns(max))
  {
    var r, s := Other(max, 0), OtherWaits(max).sched;
    OtherNeeds(max, 0);
    OtherPicked(max);
    OtherAllocates(max);
    One(InNeedF(1), r);
    assert CallOf(OtherHeld(), [r]) == OtherCall(max).value;
    assert NextBatchAndPop(PREFILL, s) == Ok((s.(waiting := [], onFly := 1), [r]));
    assert [] + [Batch([r], true)] == [Batch([r], true)] && [] + [OtherCall(max)] == [OtherCall(max)];
  }

  lemma OtherOneMore(max: nat)
    requires max > 2
    ensures AddTokens([Other(max, 0)], [TOKEN]) == Ok([Other(max, 1)])
  {
    OtherNeeds(max, 1);
    assert Other(max, 0).output + [TOKEN] == Other(max, 1).output;
    assert AddToken(Other(max, 0), TOKEN) == Ok(Other(max, 1));
    assert [Other(max, 0)][1..] == [] && [TOKEN][1..] == [];
    assert [Other(max, 1)] + [] == [Other(max, 1)];
  }

  lemma OtherDispatches(max: nat)
    requires max > 2
    ensures Dispatch(OtherHeld(), [Other(max, 1)]) == Ok((OtherHeld(), [OtherMig(max)]))
    ensures Unfinished([Other(max, 1)]) == [Other(max, 1)]
  {
    OtherNeeds(max, 1);
    assert [Other(max, 1)][1..] == [];
    assert Dispatch(OtherHeld(), []) == Ok((OtherHeld(), []));
    assert [OtherMig(max)] + [] == [OtherMig(max)];
    assert Select([], false) == [] && [Other(max, 1)] + [] == [Other(max, 1)];
    assert Select([Other(max, 1)], false) == [Other(max, 1)];
  }

  lemma OtherPrefilled(max: nat)
    requires max > 2
    ensures CtxReturn(PREFILL, OtherRuns(max), [TOKEN]) == Ok((OtherDone(max), [OtherMig(max)]))
  {
    OtherOneMore(max);
    OtherDispatches(max);
    OtherNeeds(max, 1);
    One(InNeedF(1), Other(max, 1));
    assert [] + [Other(max, 1)] == [Other(max, 1)];
    assert FinishIteration(OtherRuns(max).pipeline[0], [TOKEN]) == Ok(Batch([Other(max, 1)], false));
    assert OnFinish(PREFILL, OtherRuns(max).sched, [Other(max, 1)]) == OtherDone(max).sched;
    assert OtherRuns(max).pipeline[1..] == [] && OtherRuns(max).futures[1..] == [];
  }

  lemma OtherCleared(max: nat)
    ensures ClearMigrated(OtherDone(max), OtherMig(max)) == Ok(OtherGone())
  {
    var s := OtherHeld();
    assert [2, 0] + [1] == [2, 0, 1];
    assert s.table - {1} == map[] && s.location - {1} == map[];
    assert [Other(max, 1)][1..] == [];
  }

  // ---------------------------------------------------------------- accepting it, and the eviction

  function Accepting2(max: nat): Dec {
    Decoding([After(max, 2)], 0, [], [OtherMig(max)], Manager([2], [0, 1]), Accepting)
  }

  lemma OtherAccepted(max: nat)
    ensures ShouldAccept(SMALL, Accepting2(max).sched, OtherMig(max))
    ensures MigrateBegin(SMALL, Accepting2(max))
         == Ok(Decoding([After(max, 2)], 0, [], [], BothHeld(), Migrating(OtherMig(max))))
  {
    OtherNeeds(max, 0);
    OtherNeeds(max, 1);
    var s := Accepting2(max).sched.bm;
    assert Other(max, 1).(output := []) == Other(max, 0);
    assert s.gpu.free[..1] == [2] && s.gpu.free[1..] == [];
    assert Allocate(1, s, Other(max, 0)).Ok?;
    assert Allocate(1, s, Other(max, 0)).value.table == BothHeld().table;
    assert Allocate(1, s, Other(max, 0)).value.location == BothHeld().location;
    assert Allocate(1, s, Other(max, 0)) == Ok(BothHeld());
    assert [OtherMig(max)][1..] == [];
    assert Sum(InNeedF(1), []) == 0;
  }

  /** Both in the decoding engine, the first one token too large. */
  function Crowded(max: nat, phase: Phase): Dec { Decoding([After(max, 2)], 0, [Other(max, 1)], [], BothHeld(), phase) }

  function Evicted2(max: nat): Sched { Sched([Batch([], false)], 0, [Other(max, 1)], [After(max, 2)], [], FirstOut()) }

  lemma FirstSwapsOut()
    ensures SwapRequests(BothHeld(), [0], false) == Ok(FirstOut())
  {
    var s := BothHeld();
    assert s.cpu.free[..2] == [0, 1] && s.cpu.free[2..] == [];
    assert [] + [0, 1] == [0, 1] && [0][1..] == [];
    var (s1, blocks) := SwapOne(s, 0, false).value;
    assert blocks == [0, 1];
    assert s1.table == FirstOut().table && s1.location == FirstOut().location;
    assert s1 == FirstOut().(calls := []);
    assert SwapLoop(s, [0], false, [], []) == Ok(SwapResult(s1, [] + [0, 1], [] + [0, 1]));
    var call := SwapBlocks([0], [0, 1], [0, 1], false);
    assert [] + [call] == [call];
  }

  lemma LastGoesOut(max: nat)
    ensures SwapOutLast(SMALL, Crowded(max, Idle).sched) == Ok(Evicted2(max))
  {
    FirstSwapsOut();
    var s := Crowded(max, Idle).sched;
    assert [After(max, 2)][..0] == [] && [] + [After(max, 2)] == [After(max, 2)];
    assert WithCurrent(SMALL, s, []) == [Batch([], false)];
  }

  /** A call that evicts one request and admits nobody, and the step around it. */
  lemma OneEviction(c: Config, d: Dec, s1: Sched)
    requires EvictsThenStops(c, d, s1)
    ensures Submit(c, d) == Ok(Dec(s1, d.pipeline + [s1.cur], d.futures + [None], Submitted))
  {
    assert SwapOutLoop(c, s1) == Ok(s1);
    assert SwapOutLoop(c, d.sched) == Ok(s1);
  }

  /** The scheduler finds the need over the GPU, and after one eviction nobody fits. */
  ghost predicate EvictsThenStops(c: Config, d: Dec, s1: Sched) {
    && Shape(c, d.sched) && Rotate(c, d.sched) == d.sched && Running(c, d.sched) && Overflow(c, d.sched)
    && SwapOutLast(c, d.sched) == Ok(s1) && !Overflow(c, s1) && AdmitLoop(c, s1) == Ok(s1)
    && Current(c, s1) == []
  }

  lemma CrowdedOverflows(max: nat, s: Sched)
    requires s.batches == [Batch([After(max, 2)], false)] && s.cur == 0 && s.waiting == [Other(max, 1)]
    ensures Shape(SMALL, s) && Rotate(SMALL, s) == s && Running(SMALL, s) && Overflow(SMALL, s)
  {
    Needs(max, 2);
    OtherNeeds(max, 1);
    NeedIs(s, [After(max, 2)]);
    One(NeedF(1), After(max, 2));
    One(InNeedF(1), Other(max, 1));
  }

  lemma EvictedFits(max: nat, s: Sched)
    requires s.batches == [Batch([], false)] && s.cur == 0
    requires s.waiting == [Other(max, 1)] && s.swapped == [After(max, 2)]
    ensures Running(SMALL, s) && !Overflow(SMALL, s) && Current(SMALL, s) == [] && AdmitLoop(SMALL, s) == Ok(s)
  {
    Needs(max, 2);
    OtherNeeds(max, 1);
    NeedIs(s, []);
    One(NeedF(1), After(max, 2));
    One(InNeedF(1), Other(max, 1));
    assert !CheckAdd(SMALL, s, After(max, 2));
  }

  lemma CrowdedCall(c: Config, d: Dec, s1: Sched)
    requires Shape(c, d.sched) && Rotate(c, d.sched) == d.sched && Running(c, d.sched) && Overflow(c, d.sched)
    requires Running(c, s1) && !Overflow(c, s1) && Current(c, s1) == []
    requires SwapOutLast(c, d.sched) == Ok(s1) && AdmitLoop(c, s1) == Ok(s1)
    ensures EvictsThenStops(c, d, s1)
  {
  }

  lemma CrowdedSubmits(max: nat)
    ensures Submit(SMALL, Crowded(max, Idle)) == Ok(Dec(Evicted2(max), [0], [None], Submitted))
  {
    CrowdedOverflows(max, Crowded(max, Idle).sched);
    EvictedFits(max, Evicted2(max));
    LastGoesOut(max);
    CrowdedCall(SMALL, Crowded(max, Idle), Evicted2(max));
    OneEviction(SMALL, Crowded(max, Idle), Evicted2(max));
    JustOne(Crowded(max, Idle));
  }

  lemma JustOne(d: Dec)
    requires d.pipeline == [] && d.futures == []
    ensures d.pipeline + [0] == [0] && d.futures + [None] == [None]
  {
  }

  // ---------------------------------------------------------------- the run

  /** It begins like the run that ends in the CPU assertion. */
  function StuckEventAt(max: nat, k: nat): Event {
    match k
    case 9 => Arrive(Other(max, 0))
    case 10 => CtxStep
    case 11 => CtxBack([TOKEN])
    case 12 => Bridge
    case 13 => DecStep
    case 14 => DecBack([TOKEN])
    case 15 => MigBegin
    case 16 => MigEnd
    case 17 => DecDone
    case 18 => DecStep
    case _ => EventAt(max, k)
  }

  function StuckStateAt(max: nat, k: nat): Sys {
    match k
    case 10 => Sys(OtherWaits(max), [], DecodingAt(max, 9))
    case 11 => Sys(OtherRuns(max), [], DecodingAt(max, 9))
    case 12 => Sys(OtherDone(max), [OtherMig(max)], DecodingAt(max, 9))
    case 13 => Sys(OtherDone(max), [], Decoding([], 0, [After(max, 1)], [OtherMig(max)], Manager([1, 2], [0]), Idle))
    case 14 => Sys(OtherDone(max), [], Running1(After(max, 1), Manager([2], [0, 1]), [0, 1], [OtherMig(max)]))
    case 15 => Sys(OtherDone(max), [], Accepting2(max))
    case 16 => Sys(OtherDone(max), [], Decoding([After(max, 2)], 0, [], [], BothHeld(), Migrating(OtherMig(max))))
    case 17 => Sys(OtherGone(), [], Crowded(max, Accepting))
    case 18 => Sys(OtherGone(), [], Crowded(max, Idle))
    case 19 => Sys(OtherGone(), [], Dec(Evicted2(max), [0], [None], Submitted))
    case _ => StateAt(max, k)
  }

  lemma OtherArrives(max: nat)
    requires max > 2
    ensures Goes(StuckStateAt(max, 9), StuckEventAt(max, 9), StuckStateAt(max, 10))
  {
    assert [] + [Other(max, 0)] == [Other(max, 0)];
  }

  lemma OtherStarts(max: nat)
    ensures Goes(StuckStateAt(max, 10), StuckEventAt(max, 10), StuckStateAt(max, 11))
  {
    OtherPrefills(max);
    StepPrefills(StuckStateAt(max, 10), OtherRuns(max));
  }

  lemma OtherEnds(max: nat)
    requires max > 2
    ensures Goes(StuckStateAt(max, 11), StuckEventAt(max, 11), StuckStateAt(max, 12))
  {
    OtherPrefilled(max);
    assert [] + [OtherMig(max)] == [OtherMig(max)];
    StepPrefilled(StuckStateAt(max, 11), [TOKEN], OtherDone(max), [OtherMig(max)]);
  }

  lemma OtherCrosses(max: nat)
    ensures Goes(StuckStateAt(max, 12), StuckEventAt(max, 12), StuckStateAt(max, 13))
  {
    assert [OtherMig(max)][1..] == [] && [] + [OtherMig(max)] == [OtherMig(max)];
  }

  lemma BeforeAdmission(max: nat)
    ensures Typed(BOTH, StuckStateAt(max, 13)) && StuckEventAt(max, 13) == DecStep
    ensures StuckStateAt(max, 13).dec == Decoding([], 0, [After(max, 1)], [OtherMig(max)], Manager([1, 2], [0]), Idle)
    ensures StuckStateAt(max, 13).(dec := Running1(After(max, 1), Manager([2], [0, 1]), [0, 1], [OtherMig(max)]))
         == StuckStateAt(max, 14)
  {
  }

  lemma FirstAdmitted(max: nat)
    ensures Goes(StuckStateAt(max, 13), StuckEventAt(max, 13), StuckStateAt(max, 14))
  {
    BeforeAdmission(max);
    Admitting(max, [OtherMig(max)]);
    StepSubmits(StuckStateAt(max, 13), Running1(After(max, 1), Manager([2], [0, 1]), [0, 1], [OtherMig(max)]));
  }

  lemma BeforeToken(max: nat)
    ensures Typed(BOTH, StuckStateAt(max, 14)) && StuckEventAt(max, 14) == DecBack([TOKEN])
    ensures StuckStateAt(max, 14).dec == Running1(After(max, 1), Manager([2], [0, 1]), [0, 1], [OtherMig(max)])
    ensures StuckStateAt(max, 14).(dec := Accepting2(max)) == StuckStateAt(max, 15)
  {
  }

  lemma FirstDecoded(max: nat)
    requires max > 2
    ensures Goes(StuckStateAt(max, 14), StuckEventAt(max, 14), StuckStateAt(max, 15))
  {
    BeforeToken(max);
    Decoded(max, 1, [2], [0, 1], [OtherMig(max)]);
    StepReturns(StuckStateAt(max, 14), [TOKEN], Accepting2(max));
  }

  lemma OtherMigrates(max: nat)
    ensures Goes(StuckStateAt(max, 15), StuckEventAt(max, 15), StuckStateAt(max, 16))
  {
    OtherAccepted(max);
    StepMigrates(StuckStateAt(max, 15), StuckStateAt(max, 16).dec);
  }

  lemma OtherMigrated(max: nat)
    ensures Goes(StuckStateAt(max, 16), StuckEventAt(max, 16), StuckStateAt(max, 17))
  {
    OtherCleared(max);
    StepClears(StuckStateAt(max, 16), OtherGone());
    assert [] + [Other(max, 1)] == [Other(max, 1)];
  }

  lemma StepOver(max: nat)
    ensures Goes(StuckStateAt(max, 17), StuckEventAt(max, 17), StuckStateAt(max, 18))
  {
    StepStops(StuckStateAt(max, 17));
  }

  lemma BeforeEviction(max: nat)
    ensures Typed(BOTH, StuckStateAt(max, 18)) && StuckStateAt(max, 18).dec == Crowded(max, Idle)
    ensures StuckEventAt(max, 18) == DecStep
    ensures StuckStateAt(max, 18).(dec := Dec(Evicted2(max), [0], [None], Submitted)) == StuckStateAt(max, 19)
  {
  }

  lemma FirstEvicted(max: nat)
    ensures Goes(StuckStateAt(max, 18), StuckEventAt(max, 18), StuckStateAt(max, 19))
  {
    BeforeEviction(max);
    CrowdedSubmits(max);
    StepSubmits(StuckStateAt(max, 18), Dec(Evicted2(max), [0], [None], Submitted));
  }

  lemma AllHappen(max: nat, k: nat)
    requires max > 2
    requires k < 19
    ensures Goes(StuckStateAt(max, k), StuckEventAt(max, k), StuckStateAt(max, k + 1))
  {
    match k
    case 9 => OtherArrives(max);
    case 10 => OtherStarts(max);
    case 11 => OtherEnds(max);
    case 12 => OtherCrosses(max);
    case 13 => FirstAdmitted(max);
    case 14 => FirstDecoded(max);
    case 15 => OtherMigrates(max);
    case 16 => OtherMigrated(max);
    case 17 => StepOver(max);
    case 18 => FirstEvicted(max);
    case _ => AllGo(max, k);
  }

  function StuckEventsFrom(max: nat, k: nat): seq<Event>
    requires k <= 19
    decreases 19 - k
  {
    if k == 19 then [] else [StuckEventAt(max, k)] + StuckEventsFrom(max, k + 1)
  }

  lemma StepThenOn(s: Sys, e: Event, t: Sys, rest: seq<Event>, end: Sys)
    requires Goes(s, e, t) && Typed(BOTH, t) && Possible(BOTH, t, rest) && Run(BOTH, t, rest) == Ok(end)
    ensures Possible(BOTH, s, [e] + rest) && Run(BOTH, s, [e] + rest) == Ok(end)
  {
    assert ([e] + rest)[1..] == rest;
  }

  lemma AtEnd(max: nat)
    ensures Typed(BOTH, StuckStateAt(max, 19))
    ensures Possible(BOTH, StuckStateAt(max, 19), [])
    ensures Run(BOTH, StuckStateAt(max, 19), []) == Ok(StuckStateAt(max, 19))
  {
  }

  lemma {:induction false} StuckRunsOn(max: nat, k: nat)
    requires max > 2
    requires k <= 19
    ensures Typed(BOTH, StuckStateAt(max, k)) && Possible(BOTH, StuckStateAt(max, k), StuckEventsFrom(max, k))
    ensures Run(BOTH, StuckStateAt(max, k), StuckEventsFrom(max, k)) == Ok(StuckStateAt(max, 19))
    decreases 19 - k
  {
    if k == 19 {
      AtEnd(max);
    } else {
      AllHappen(max, k);
      StuckRunsOn(max, k + 1);
      StepThenOn(StuckStateAt(max, k), StuckEventAt(max, k), StuckStateAt(max, k + 1), StuckEventsFrom(max, k + 1),
                 StuckStateAt(max, 19));
    }
  }

  lemma EndIsStuck(max: nat)
    ensures Stuck(SMALL, Evicted2(max))
  {
    Needs(max, 2);
    OtherNeeds(max, 1);
    One(InNeedF(1), Other(max, 1));
  }

  lemma StartsAtInit(max: nat)
    ensures Init(BOTH) == StuckStateAt(max, 0)
  {
    assert InitState(3, 2) == Manager([0, 1, 2], []);
    assert InitState(3, 1) == CtxManager([0, 1, 2], []);
    assert InitBatches(1) == [Batch([], false)];
  }

  lemma {:induction false} InvAt(max: nat, k: nat)
    requires k <= 19 && max > 2
    ensures Inv(BOTH, StuckStateAt(max, k)) && Typed(BOTH, StuckStateAt(max, k))
    decreases k
  {
    if k == 0 {
      StartsAtInit(max);
      InitInv(BOTH);
      InitTyped(BOTH);
    } else {
      InvAt(max, k - 1);
      AllHappen(max, k - 1);
      GoneInv(StuckStateAt(max, k - 1), StuckEventAt(max, k - 1), StuckStateAt(max, k));
    }
  }

  lemma GoneInv(s: Sys, e: Event, t: Sys)
    requires Goes(s, e, t) && Inv(BOTH, s)
    ensures Inv(BOTH, t) && Typed(BOTH, t)
  {
    StepInv(BOTH, s, e);
  }

  /** What the first request needs beside the second's prompt is already too much before the eviction. */
  lemma CrowdedIsDoomed(max: nat)
    ensures Shape(SMALL, Crowded(max, Idle).sched) && Doomed(SMALL, Crowded(max, Idle))
    ensures !Stuck(SMALL, Crowded(max, Idle).sched)
  {
    var s := Crowded(max, Idle).sched;
    Needs(max, 2);
    OtherNeeds(max, 1);
    One(InNeedF(1), Other(max, 1));
    assert Rotate(SMALL, s) == s;
    assert Line(SMALL, s)[0] == After(max, 2);
    assert s.batches[0].requests != [];
  }

  lemma AfterEviction(max: nat)
    ensures StuckStateAt(max, 19).dec.sched == Evicted2(max)
  {
  }

  lemma RunsToTheEnd(max: nat)
    requires max > 2
    ensures BOTH.Valid() && Typed(BOTH, Init(BOTH)) && Possible(BOTH, Init(BOTH), StuckEventsFrom(max, 0))
    ensures Run(BOTH, Init(BOTH), StuckEventsFrom(max, 0)) == Ok(StuckStateAt(max, 19))
  {
    StartsAtInit(max);
    StuckRunsOn(max, 0);
  }

  lemma EvictedQueues(max: nat)
    ensures Evicted2(max).swapped == [After(max, 2)] && Evicted2(max).waiting == [Other(max, 1)]
  {
  }

  lemma NoCallFrom(s: Sys, d: Dec)
    requires Inv(BOTH, s) && Typed(BOTH, s) && s.dec == d && Shape(SMALL, d.sched) && Hopeless(SMALL, d)
    ensures NoCallEver(BOTH, s)
  {
    HopelessNoCall(BOTH, s);
  }

  lemma NoCallAfter(max: nat)
    requires max > 2
    ensures Typed(BOTH, StuckStateAt(max, 18)) && NoCallEver(BOTH, StuckStateAt(max, 18))
  {
    InvAt(max, 18);
    CrowdedIsDoomed(max);
    BeforeEviction(max);
    NoCallFrom(StuckStateAt(max, 18), Crowded(max, Idle));
  }

  /** Requests of three tokens fit this GPU up to their last token, and both engines take them. */
  lemma BothFit()
    ensures MaxNeed(After(3, 0), 1) <= SMALL.maxGpu && MaxNeed(Other(3, 0), 1) <= SMALL.maxGpu
    ensures Servable(BOTH, After(3, 0)) && Servable(BOTH, Other(3, 0))
  {
    CountOne(3);
    Needs(3, 0);
    OtherNeeds(3, 0);
  }

  /** Two requests of any length from three tokens on arrive, and after eighteen events nobody is ever
      decoded again, though for some lengths each would fit the GPU alone up to its last token. */
  lemma StuckHappens(max: nat)
    requires max > 2
    ensures BOTH.Valid() && Typed(BOTH, Init(BOTH)) && Possible(BOTH, Init(BOTH), StuckEventsFrom(max, 0))
    ensures Run(BOTH, Init(BOTH), StuckEventsFrom(max, 0)) == Ok(StuckStateAt(max, 19))
    ensures StuckStateAt(max, 19).dec.sched == Evicted2(max) && Stuck(SMALL, Evicted2(max))
    ensures Evicted2(max).swapped == [After(max, 2)] && Evicted2(max).waiting == [Other(max, 1)]
    ensures Typed(BOTH, StuckStateAt(max, 18)) && NoCallEver(BOTH, StuckStateAt(max, 18))
    ensures !Stuck(SMALL, StuckStateAt(max, 18).dec.sched)
    ensures max == 3 ==> MaxNeed(After(max, 0), 1) <= SMALL.maxGpu && MaxNeed(Other(max, 0), 1) <= SMALL.maxGpu
  {
    RunsToTheEnd(max);
    BeforeEviction(max);
    AfterEviction(max);
    EvictedQueues(max);
    EndIsStuck(max);
    CrowdedIsDoomed(max);
    NoCallAfter(max);
    BothFit();
  }
}
