/** First come, first served, over whole runs: nobody overtakes anybody on the way from the arrival
    through the context engine and the migration into the batches of the decoding engine. */
module QueueOrder {
  import opened Common
  import opened Requests
  import opened DecodeScheduler
  import opened DecodeEngine
  import opened ContextEngine
  import opened Disaggregated
  import opened DecodeOrder
  import opened Conservation
  import opened Delivery
  import opened Work

  // ---------------------------------------------------------------- the gates of a request's way

  /** The gates every request passes: it arrives, its prompt comes back from the workers, it is put
      on the bridge with its first token, its migration ends, and it is batched for decoding. */
  datatype Gate = Arrives | Returns | HandsOver | Lands | Joins

  /** Who goes from the waiting queue into the batch of the next decoding call: as many requests as the
      queue loses, and they are the last of the batch. */
  function Joining(c: Config, d: Dec): seq<Req>
    requires IndicesOk(c, d)
  {
    match Submit(c, d)
    case Err(_) => []
    case Ok(d1) => LastOf(Current(c, d1.sched), |d.sched.waiting| - |d1.sched.waiting|)
  }

  function LastOf(rs: seq<Req>, n: int): seq<Req> { if 0 <= n <= |rs| then rs[|rs| - n..] else [] }

  /** Who passes the gate in this event, in order. */
  function PassNow(c: SysConfig, s: Sys, e: Event, g: Gate): seq<Req>
    requires Typed(c, s) && Enabled(c, s, e)
  {
    match g
    case Arrives => if e.Arrive? then [e.req] else []
    case Returns => if e.CtxBack? && |s.ctx.pipeline| == c.ctx.pp then s.ctx.pipeline[0].requests else []
    case HandsOver => if e.CtxBack? then Unfinished(Batch1(c, s, e)) else []
    case Lands => if e.MigEnd? then [s.dec.phase.mig.req] else []
    case Joins => if e.DecStep? then Joining(c.dec, s.dec) else []
  }

  /** Who passes it in the run, in order. */
  function Pass(c: SysConfig, s: Sys, es: seq<Event>, g: Gate): seq<Req>
    requires Typed(c, s) && Possible(c, s, es) && Run(c, s, es).Ok?
    decreases |es|
  {
    if es == [] then [] else PassNow(c, s, es[0], g) + Pass(c, Step(c, s, es[0]).value, es[1..], g)
  }

  /** Who has arrived and is not back yet, who was handed over and has not landed, who has landed and
      was never batched: the first to leave comes first. */
  function AtPrompt(s: Sys): seq<Req> { Flatten(s.ctx.pipeline) + s.ctx.sched.waiting }
  function AtBridge(s: Sys): seq<Req> { s.ctx.sched.unaccepted }
  function AtDecoding(s: Sys): seq<Req> { s.dec.sched.waiting }

  // ---------------------------------------------------------------- event by event

  lemma {:induction false} FlattenSnoc(bs: seq<Batch>, b: Batch)
    ensures Flatten(bs + [b]) == Flatten(bs) + b.requests
  {
    if bs == [] {
      assert [b][1..] == [];
    } else {
      FlattenSnoc(bs[1..], b);
      assert (bs + [b])[1..] == bs[1..] + [b];
    }
  }

  lemma PromptsMoved(p: seq<Batch>, b: Batch, waiting: seq<Req>, left: seq<Req>)
    requires b.requests + left == waiting
    ensures Flatten(p + [b]) + left == Flatten(p) + waiting
  {
    FlattenSnoc(p, b);
  }

  lemma PromptsPicked(c: Config, x: Ctx)
    requires CtxInv(c, x) && !x.submitted
    ensures CtxSubmit(c, x).Ok?
    ensures var y := CtxSubmit(c, x).value;
            && Flatten(y.pipeline) + y.sched.waiting == Flatten(x.pipeline) + x.sched.waiting
            && y.sched.unaccepted == x.sched.unaccepted
  {
    var b := CtxStepMoves(c, x);
    PromptsMoved(x.pipeline, b, x.sched.waiting, CtxSubmit(c, x).value.sched.waiting);
  }

  lemma CallBack(c: SysConfig, s: Sys, ts: seq<Token>)
    requires Inv(c, s) && Typed(c, s) && Enabled(c, s, CtxBack(ts)) && CtxReturn(c.ctx, s.ctx, ts).Ok?
    requires CtxFull(c.ctx, s.ctx) && s.ctx.futures[0].Some?
    ensures var x := CtxReturn(c.ctx, s.ctx, ts).value.0;
            && x.pipeline == s.ctx.pipeline[1..] && x.sched.waiting == s.ctx.sched.waiting
            && x.sched.unaccepted == s.ctx.sched.unaccepted + Unfinished(Batch1(c, s, CtxBack(ts)))
  {
    TokensAccepted(c, s, CtxBack(ts));
    CtxReturnShape(c.ctx, s.ctx, ts, Batch1(c, s, CtxBack(ts)));
    CtxReturnSafe(c.ctx, s.ctx, ts);
  }

  lemma IdleBack(c: SysConfig, s: Sys, ts: seq<Token>)
    requires Inv(c, s) && Typed(c, s) && Enabled(c, s, CtxBack(ts)) && CtxReturn(c.ctx, s.ctx, ts).Ok?
    requires !(CtxFull(c.ctx, s.ctx) && s.ctx.futures[0].Some?)
    ensures Unfinished(Batch1(c, s, CtxBack(ts))) == []
    ensures var x := CtxReturn(c.ctx, s.ctx, ts).value.0;
            && x.sched == s.ctx.sched
            && (if CtxFull(c.ctx, s.ctx) then s.ctx.pipeline[0].requests == [] && x.pipeline == s.ctx.pipeline[1..]
                else x.pipeline == s.ctx.pipeline)
  {
    CtxIdleShape(c.ctx, s.ctx, ts);
    assert Batch0(c, s, CtxBack(ts)) == [];
    assert Batch1(c, s, CtxBack(ts)) == [];
  }

  lemma PromptsBack(c: SysConfig, s: Sys, ts: seq<Token>)
    requires Inv(c, s) && Typed(c, s) && Enabled(c, s, CtxBack(ts)) && CtxReturn(c.ctx, s.ctx, ts).Ok?
    ensures var x := CtxReturn(c.ctx, s.ctx, ts).value.0;
            && x.sched.waiting == s.ctx.sched.waiting
            && PassNow(c, s, CtxBack(ts), Returns) + Flatten(x.pipeline) == Flatten(s.ctx.pipeline)
            && x.sched.unaccepted == s.ctx.sched.unaccepted + PassNow(c, s, CtxBack(ts), HandsOver)
  {
    if CtxFull(c.ctx, s.ctx) && s.ctx.futures[0].Some? {
      CallBack(c, s, ts);
    } else {
      IdleBack(c, s, ts);
    }
  }

  lemma AdmittedLast(c: Config, s: Sched, m: nat, w: nat, s1: Sched)
    requires Running(c, s) && Admits(c, s, m, w, s1)
    ensures Current(c, s1) == Current(c, s) + s.swapped[..m] + s.waiting[..w] && s1.waiting == s.waiting[w..]
  {
  }

  /** The new batch ends with the head of the waiting queue. */
  lemma NextBatchJoins(c: Config, s: Sched) returns (front: seq<Req>, w: nat)
    requires Shape(c, s) && GetNextBatch(c, s).Ok?
    ensures w <= |s.waiting| && Current(c, GetNextBatch(c, s).value) == front + s.waiting[..w]
    ensures GetNextBatch(c, s).value.waiting == s.waiting[w..]
  {
    var k, m, mid;
    k, m, w, mid := NextBatchIsFcfs(c, s);
    AdmittedLast(c, mid, m, w, GetNextBatch(c, s).value);
    front := Current(c, mid) + mid.swapped[..m];
  }

  lemma TailTaken(front: seq<Req>, waiting: seq<Req>, w: nat)
    requires w <= |waiting|
    ensures (front + waiting[..w])[|front|..] + waiting[w..] == waiting
  {
  }

  lemma BatchJoined(c: Config, d: Dec)
    requires DecInv(c, d) && d.phase.Idle? && Submit(c, d).Ok?
    ensures Joining(c, d) + Submit(c, d).value.sched.waiting == d.sched.waiting
  {
    SubmitLaunch(c, d);
    SubmitShape(c, d);
    SubmitPipeline(c, d);
    SubmitOthers(c, d);
    var front, w := NextBatchJoins(c, d.sched);
    TailTaken(front, d.sched.waiting, w);
  }

  ghost predicate InOrder(c: SysConfig, s: Sys, e: Event, t: Sys)
    requires Typed(c, s) && Enabled(c, s, e)
  {
    && PassNow(c, s, e, Returns) + AtPrompt(t) == AtPrompt(s) + PassNow(c, s, e, Arrives)
    && PassNow(c, s, e, Lands) + AtBridge(t) == AtBridge(s) + PassNow(c, s, e, HandsOver)
    && PassNow(c, s, e, Joins) + AtDecoding(t) == AtDecoding(s) + PassNow(c, s, e, Lands)
  }

  lemma ArrivalInOrder(c: SysConfig, s: Sys, r: Req, t: Sys)
    requires Typed(c, s) && Enabled(c, s, Arrive(r)) && t == s.(ctx := CtxArrive(s.ctx, r))
    ensures InOrder(c, s, Arrive(r), t)
  {
  }

  lemma PickInOrder(c: SysConfig, s: Sys, t: Sys)
    requires Typed(c, s) && Enabled(c, s, CtxStep) && t.dec == s.dec
    requires AtPrompt(t) == AtPrompt(s) && AtBridge(t) == AtBridge(s)
    ensures InOrder(c, s, CtxStep, t)
  {
  }

  lemma BackInOrder(c: SysConfig, s: Sys, ts: seq<Token>, t: Sys)
    requires Typed(c, s) && Enabled(c, s, CtxBack(ts)) && t.dec == s.dec
    requires PassNow(c, s, CtxBack(ts), Returns) + Flatten(t.ctx.pipeline) == Flatten(s.ctx.pipeline)
    requires t.ctx.sched.waiting == s.ctx.sched.waiting
    requires AtBridge(t) == AtBridge(s) + PassNow(c, s, CtxBack(ts), HandsOver)
    ensures InOrder(c, s, CtxBack(ts), t)
  {
  }

  lemma JoinInOrder(c: SysConfig, s: Sys, t: Sys)
    requires Typed(c, s) && Enabled(c, s, DecStep) && t.ctx == s.ctx
    requires Joining(c.dec, s.dec) + t.dec.sched.waiting == s.dec.sched.waiting
    ensures InOrder(c, s, DecStep, t)
  {
  }

  lemma LandInOrder(c: SysConfig, s: Sys, t: Sys)
    requires Typed(c, s) && Enabled(c, s, MigEnd) && AtPrompt(t) == AtPrompt(s)
    requires s.ctx.sched.unaccepted == [s.dec.phase.mig.req] + t.ctx.sched.unaccepted
    requires t.dec == MigrateEnd(s.dec)
    ensures InOrder(c, s, MigEnd, t)
  {
  }

  lemma ContextOrder(c: SysConfig, s: Sys, e: Event)
    requires Inv(c, s) && Typed(c, s) && Enabled(c, s, e) && Step(c, s, e).Ok?
    requires e.Arrive? || e.CtxStep? || e.CtxBack?
    ensures InOrder(c, s, e, Step(c, s, e).value)
  {
    var t := Step(c, s, e).value;
    match e
    case Arrive(r) => ArrivalInOrder(c, s, r, t);
    case CtxStep =>
      PromptsPicked(c.ctx, s.ctx);
      CtxStepComputes(c, s);
      PickInOrder(c, s, t);
    case CtxBack(ts) =>
      CtxBackComputes(c, s, ts);
      PromptsBack(c, s, ts);
      BackInOrder(c, s, ts, t);
  }

  lemma NobodyPasses(c: SysConfig, s: Sys, e: Event, t: Sys)
    requires Typed(c, s) && Enabled(c, s, e) && (e.Bridge? || e.DecBack? || e.MigBegin? || e.DecDone?)
    requires t.ctx == s.ctx && t.dec.sched.waiting == s.dec.sched.waiting
    ensures InOrder(c, s, e, t)
  {
  }

  lemma ReturnKeepsWaiting(c: Config, d: Dec, ts: seq<Token>)
    requires IndicesOk(c, d) && Return(c, d, ts).Ok?
    ensures Return(c, d, ts).value.sched.waiting == d.sched.waiting
  {
  }

  lemma BackOrder(c: SysConfig, s: Sys, ts: seq<Token>)
    requires Inv(c, s) && Typed(c, s) && Enabled(c, s, DecBack(ts)) && Step(c, s, DecBack(ts)).Ok?
    ensures InOrder(c, s, DecBack(ts), Step(c, s, DecBack(ts)).value)
  {
    DecBackComputes(c, s, ts);
    ReturnKeepsWaiting(c.dec, s.dec, ts);
    NobodyPasses(c, s, DecBack(ts), Step(c, s, DecBack(ts)).value);
  }

  lemma WaitingUntouched(c: SysConfig, s: Sys, e: Event)
    requires Typed(c, s) && Enabled(c, s, e) && Step(c, s, e).Ok? && (e.Bridge? || e.MigBegin? || e.DecDone?)
    ensures Step(c, s, e).value.ctx == s.ctx && Step(c, s, e).value.dec.sched.waiting == s.dec.sched.waiting
  {
  }

  lemma JoinOrder(c: SysConfig, s: Sys)
    requires Inv(c, s) && Typed(c, s) && Enabled(c, s, DecStep) && Step(c, s, DecStep).Ok?
    ensures InOrder(c, s, DecStep, Step(c, s, DecStep).value)
  {
    DecStepComputes(c, s);
    BatchJoined(c.dec, s.dec);
    JoinInOrder(c, s, Step(c, s, DecStep).value);
  }

  lemma HeadLands(s: Sys)
    requires Cross(s) && s.dec.phase.Migrating?
    ensures s.ctx.sched.unaccepted != [] && s.ctx.sched.unaccepted[0] == s.dec.phase.mig.req
  {
    assert Pending(s)[0] == s.dec.phase.mig;
  }

  lemma ClearedPipeline(x: Ctx, m: Mig)
    requires ClearMigrated(x, m).Ok?
    ensures ClearMigrated(x, m).value.pipeline == x.pipeline
  {
  }

  lemma HeadCleared(c: Config, x: Ctx, m: Mig)
    requires CtxInv(c, x) && x.sched.unaccepted != [] && x.sched.unaccepted[0] == m.req
    ensures ClearMigrated(x, m).Ok?
    ensures var y := ClearMigrated(x, m).value;
            y.sched.waiting == x.sched.waiting && x.sched.unaccepted == [m.req] + y.sched.unaccepted
  {
    ClearMigratedSafe(c, x, m);
    var u := x.sched.unaccepted;
    assert u == [u[0]] + u[1..];
  }

  lemma LandOrder(c: SysConfig, s: Sys)
    requires Inv(c, s) && Typed(c, s) && Enabled(c, s, MigEnd) && Step(c, s, MigEnd).Ok?
    ensures InOrder(c, s, MigEnd, Step(c, s, MigEnd).value)
  {
    MigEndComputes(c, s);
    HeadLands(s);
    HeadCleared(c.ctx, s.ctx, s.dec.phase.mig);
    ClearedPipeline(s.ctx, s.dec.phase.mig);
    LandInOrder(c, s, Step(c, s, MigEnd).value);
  }

  lemma EventOrder(c: SysConfig, s: Sys, e: Event)
    requires Inv(c, s) && Typed(c, s) && Enabled(c, s, e) && Step(c, s, e).Ok?
    ensures InOrder(c, s, e, Step(c, s, e).value)
  {
    if e.Arrive? || e.CtxStep? || e.CtxBack? {
      ContextOrder(c, s, e);
    } else if e.DecStep? {
      JoinOrder(c, s);
    } else if e.MigEnd? {
      LandOrder(c, s);
    } else if e.DecBack? {
      BackOrder(c, s, e.tokens);
    } else {
      WaitingUntouched(c, s, e);
      NobodyPasses(c, s, e, Step(c, s, e).value);
    }
  }

  // ---------------------------------------------------------------- over a run

  /** Who went in at a gate had been there or came out at the next one, in the same order. */
  ghost predicate Fifo(c: SysConfig, s: Sys, es: seq<Event>, t: Sys)
    requires Typed(c, s) && Possible(c, s, es) && Run(c, s, es).Ok?
  {
    && Pass(c, s, es, Returns) + AtPrompt(t) == AtPrompt(s) + Pass(c, s, es, Arrives)
    && Pass(c, s, es, Lands) + AtBridge(t) == AtBridge(s) + Pass(c, s, es, HandsOver)
    && Pass(c, s, es, Joins) + AtDecoding(t) == AtDecoding(s) + Pass(c, s, es, Lands)
  }

  /** Two stretches of a queue's history, one after the other. */
  lemma Chain(out1: seq<Req>, out2: seq<Req>, a: seq<Req>, b: seq<Req>, z: seq<Req>, in1: seq<Req>, in2: seq<Req>)
    requires out1 + b == a + in1 && out2 + z == b + in2
    ensures (out1 + out2) + z == a + (in1 + in2)
  {
    assert (out1 + out2) + z == out1 + (out2 + z);
    assert out1 + (b + in2) == (out1 + b) + in2;
  }

  lemma {:induction false} RunOrder(c: SysConfig, s: Sys, es: seq<Event>, t: Sys)
    requires Inv(c, s) && Typed(c, s) && Possible(c, s, es) && Run(c, s, es) == Ok(t)
    ensures Fifo(c, s, es, t)
    decreases |es|
  {
    if es == [] {
      NobodyPassed(c, s);
    } else {
      FirstEvent(c, s, es);
      StepInv(c, s, es[0]);
      RunOrder(c, Step(c, s, es[0]).value, es[1..], t);
      FirstInOrder(c, s, es, Step(c, s, es[0]).value, t);
    }
  }

  lemma NobodyPassed(c: SysConfig, s: Sys)
    requires Typed(c, s)
    ensures Fifo(c, s, [], s)
  {
  }

  lemma FirstInOrder(c: SysConfig, s: Sys, es: seq<Event>, m: Sys, t: Sys)
    requires Inv(c, s) && Typed(c, s) && Possible(c, s, es) && Run(c, s, es).Ok? && es != []
    requires Enabled(c, s, es[0]) && Step(c, s, es[0]) == Ok(m) && Fifo(c, m, es[1..], t)
    ensures Fifo(c, s, es, t)
  {
    EventOrder(c, s, es[0]);
    ChainFifo(c, s, es, m, t);
  }

  lemma ChainFifo(c: SysConfig, s: Sys, es: seq<Event>, m: Sys, t: Sys)
    requires Typed(c, s) && Possible(c, s, es) && Run(c, s, es).Ok? && es != [] && Step(c, s, es[0]) == Ok(m)
    requires InOrder(c, s, es[0], m) && Fifo(c, m, es[1..], t)
    ensures Fifo(c, s, es, t)
  {
    Chain(PassNow(c, s, es[0], Returns), Pass(c, m, es[1..], Returns), AtPrompt(s), AtPrompt(m), AtPrompt(t),
          PassNow(c, s, es[0], Arrives), Pass(c, m, es[1..], Arrives));
    Chain(PassNow(c, s, es[0], Lands), Pass(c, m, es[1..], Lands), AtBridge(s), AtBridge(m), AtBridge(t),
          PassNow(c, s, es[0], HandsOver), Pass(c, m, es[1..], HandsOver));
    Chain(PassNow(c, s, es[0], Joins), Pass(c, m, es[1..], Joins), AtDecoding(s), AtDecoding(m), AtDecoding(t),
          PassNow(c, s, es[0], Lands), Pass(c, m, es[1..], Lands));
  }

  lemma {:induction false} PassArrives(c: SysConfig, s: Sys, es: seq<Event>)
    requires Typed(c, s) && Possible(c, s, es) && Run(c, s, es).Ok?
    ensures Pass(c, s, es, Arrives) == Arrived(es)
    decreases |es|
  {
    if es != [] {
      FirstEvent(c, s, es);
      PassArrives(c, Step(c, s, es[0]).value, es[1..]);
    }
  }

  /** In every run prompts come back from the workers in the order of arrival; those put on the bridge
      end their migration in the order they were put there; and they are batched for decoding in that
      order. Whoever has passed one gate and not the next is still in the queue between them. */
  lemma FirstComeFirstServed(c: SysConfig, es: seq<Event>, s: Sys)
    requires c.Valid() && Typed(c, Init(c)) && Possible(c, Init(c), es) && Run(c, Init(c), es) == Ok(s)
    ensures Pass(c, Init(c), es, Returns) + Flatten(s.ctx.pipeline) + s.ctx.sched.waiting == Arrived(es)
    ensures Pass(c, Init(c), es, Lands) + Reqs(Pending(s)) == Pass(c, Init(c), es, HandsOver)
    ensures Pass(c, Init(c), es, Joins) + s.dec.sched.waiting == Pass(c, Init(c), es, Lands)
  {
    InitInv(c);
    RunsAreSafe(c, es);
    RunOrder(c, Init(c), es, s);
    PassArrives(c, Init(c), es);
    FromNobody(c, Init(c), es, s);
  }

  lemma FromNobody(c: SysConfig, s0: Sys, es: seq<Event>, s: Sys)
    requires Typed(c, s0) && Possible(c, s0, es) && Run(c, s0, es).Ok? && Fifo(c, s0, es, s) && Cross(s)
    requires AtPrompt(s0) == [] && AtBridge(s0) == [] && AtDecoding(s0) == []
    ensures Pass(c, s0, es, Returns) + Flatten(s.ctx.pipeline) + s.ctx.sched.waiting == Pass(c, s0, es, Arrives)
    ensures Pass(c, s0, es, Lands) + Reqs(Pending(s)) == Pass(c, s0, es, HandsOver)
    ensures Pass(c, s0, es, Joins) + s.dec.sched.waiting == Pass(c, s0, es, Lands)
  {
    FromEmpty(Pass(c, s0, es, Returns), Flatten(s.ctx.pipeline), s.ctx.sched.waiting, Pass(c, s0, es, Arrives));
    NoneBefore(Pass(c, s0, es, HandsOver));
    NoneBefore(Pass(c, s0, es, Lands));
  }

  lemma NoneBefore(came: seq<Req>)
    ensures [] + came == came
  {
  }

  lemma FromEmpty(gone: seq<Req>, a: seq<Req>, b: seq<Req>, came: seq<Req>)
    requires gone + (a + b) == [] + came
    ensures gone + a + b == came
  {
    assert gone + (a + b) == gone + a + b;
    assert [] + came == came;
  }

  // ---------------------------------------------------------------- how full the context pipeline is

  function ReturnSeen(e: Event): nat { if e.CtxBack? then 1 else 0 }

  function ReturnsSeen(es: seq<Event>): nat {
    if es == [] then 0 else ReturnSeen(es[0]) + ReturnsSeen(es[1..])
  }

  function Min(a: nat, b: nat): nat { if a <= b then a else b }

  /** After n context steps the pipeline holds the last pp - 1 of them, as far as there were that many,
      and the one under way. */
  predicate Depth(c: Config, x: Ctx, n: nat)
    requires c.Valid()
  {
    |x.pipeline| == Min(n, c.pp - 1) + if x.submitted then 1 else 0
  }

  lemma SubmitDepth(c: Config, x: Ctx, n: nat)
    requires c.Valid() && Depth(c, x, n) && !x.submitted && CtxSubmit(c, x).Ok?
    ensures Depth(c, CtxSubmit(c, x).value, n)
  {
  }

  lemma ReturnDepth(c: Config, x: Ctx, ts: seq<Token>, n: nat)
    requires c.Valid() && |x.futures| == |x.pipeline| && Depth(c, x, n) && x.submitted && CtxReturn(c, x, ts).Ok?
    ensures Depth(c, CtxReturn(c, x, ts).value.0, n + 1)
  {
  }

  lemma StepDepth(c: SysConfig, s: Sys, e: Event, n: nat)
    requires Typed(c, s) && Enabled(c, s, e) && Step(c, s, e).Ok? && Depth(c.ctx, s.ctx, n)
    ensures Depth(c.ctx, Step(c, s, e).value.ctx, n + ReturnSeen(e))
  {
    if e.CtxStep? {
      CtxStepComputes(c, s);
      SubmitDepth(c.ctx, s.ctx, n);
    } else if e.CtxBack? {
      CtxBackComputes(c, s, e.tokens);
      ReturnDepth(c.ctx, s.ctx, e.tokens, n);
    } else {
      PipelineUntouched(c, s, e);
      SubmittedUntouched(c, s, e);
    }
  }

  lemma SubmittedUntouched(c: SysConfig, s: Sys, e: Event)
    requires Typed(c, s) && Enabled(c, s, e) && Step(c, s, e).Ok? && !e.CtxStep? && !e.CtxBack?
    ensures Step(c, s, e).value.ctx.submitted == s.ctx.submitted
  {
  }

  lemma {:induction false} RunDepth(c: SysConfig, s: Sys, es: seq<Event>, t: Sys, n: nat)
    requires Typed(c, s) && Possible(c, s, es) && Run(c, s, es) == Ok(t) && Depth(c.ctx, s.ctx, n)
    ensures Depth(c.ctx, t.ctx, n + ReturnsSeen(es))
    decreases |es|
  {
    if es != [] {
      FirstEvent(c, s, es);
      StepDepth(c, s, es[0], n);
      RunDepth(c, Step(c, s, es[0]).value, es[1..], t, n + ReturnSeen(es[0]));
    }
  }

  /** In every run the context pipeline is as deep as the steps made allow: a prompt comes back exactly
      pp - 1 steps after its own. */
  lemma PipelineFillsUp(c: SysConfig, es: seq<Event>, s: Sys)
    requires c.Valid() && Typed(c, Init(c)) && Possible(c, Init(c), es) && Run(c, Init(c), es) == Ok(s)
    ensures |s.ctx.pipeline| == Min(ReturnsSeen(es), c.ctx.pp - 1) + if s.ctx.submitted then 1 else 0
  {
    RunDepth(c, Init(c), es, s, 0);
  }
}
