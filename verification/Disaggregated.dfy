/** The two engines and the bridge between them (distserve/engine.py,
    distserve/single_stage_engine.py): every interleaving of their coroutines. */
module Disaggregated {
  import opened Common
  import opened Requests
  import opened DecodeScheduler
  import opened DecodeEngine
  import opened ContextEngine

  /** Both engines are built from one cache_config, so they share the block size. */
  datatype SysConfig = SysConfig(ctx: Config, dec: Config) {
    predicate Valid() { ctx.Valid() && dec.Valid() && ctx.blockSize == dec.blockSize }
  }

  datatype Sys = Sys(ctx: Ctx, bridge: seq<Mig>, dec: Dec)

  function Init(c: SysConfig): Sys { Sys(InitCtx(c.ctx), [], InitDec(c.dec)) }

  /** What can happen between two awaits. Tokens are chosen by the workers. */
  datatype Event =
    | Arrive(req: Req)              // a new request reaches the context engine
    | CtxStep                       // context step up to its await
    | CtxBack(tokens: seq<Token>)   // the rest of the context step
    | Bridge                        // event loop 1 of the decoding engine
    | DecStep                       // decoding step up to its await
    | DecBack(tokens: seq<Token>)   // the batch that returned
    | MigBegin                      // post_process accepts a request
    | MigEnd                        // its blocks have been copied
    | DecDone                       // post_process finds nothing more to accept

  /** List lengths and index ranges every step relies on. */
  predicate Typed(c: SysConfig, s: Sys) {
    c.Valid() && IndicesOk(c.dec, s.dec) && |s.ctx.futures| == |s.ctx.pipeline|
  }

  /** A request id that nobody in the system uses. */
  predicate NewId(s: Sys, id: int) {
    id !in IdSet(s.ctx.sched.waiting) && id !in s.ctx.sched.bm.table && id !in s.dec.sched.bm.table
  }

  predicate CanAccept(c: SysConfig, s: Sys)
    requires c.Valid()
  {
    s.dec.sched.unaccepted != [] && ShouldAccept(c.dec, s.dec.sched, s.dec.sched.unaccepted[0])
  }

  /** Which events the coroutines and the environment allow: requests arrive fresh and with
      their own id, a worker returns one token per request of the call it got. */
  predicate Enabled(c: SysConfig, s: Sys, e: Event)
    requires c.Valid()
  {
    match e
    case Arrive(r) => Fresh(r) && NewId(s, r.id)
    case CtxStep => !s.ctx.submitted
    case CtxBack(ts) => s.ctx.submitted && CtxTokensFor(c.ctx, s.ctx, ts)
    case Bridge => s.bridge != []
    case DecStep => s.dec.phase.Idle?
    case DecBack(ts) => s.dec.phase.Submitted? && TokensFor(c.dec, s.dec, ts)
    case MigBegin => s.dec.phase.Accepting? && CanAccept(c, s)
    case MigEnd => s.dec.phase.Migrating?
    case DecDone => s.dec.phase.Accepting? && !CanAccept(c, s)
  }

  lemma SubmitTyped(c: Config, d: Dec)
    requires IndicesOk(c, d)
    ensures Submit(c, d).Ok? ==> IndicesOk(c, Submit(c, d).value)
  {
  }

  lemma ReturnTyped(c: Config, d: Dec, ts: seq<Token>)
    requires IndicesOk(c, d)
    ensures Return(c, d, ts).Ok? ==> IndicesOk(c, Return(c, d, ts).value)
  {
  }

  lemma ContextTyped(c: Config, x: Ctx, ts: seq<Token>)
    requires c.Valid() && |x.futures| == |x.pipeline|
    ensures CtxSubmit(c, x).Ok? ==> |CtxSubmit(c, x).value.futures| == |CtxSubmit(c, x).value.pipeline|
    ensures CtxReturn(c, x, ts).Ok? ==>
              |CtxReturn(c, x, ts).value.0.futures| == |CtxReturn(c, x, ts).value.0.pipeline|
  {
  }

  function Step(c: SysConfig, s: Sys, e: Event): (res: Result<Sys>)
    requires Typed(c, s) && Enabled(c, s, e)
    ensures res.Ok? ==> Typed(c, res.value)
  {
    match e
    case Arrive(r) => Ok(s.(ctx := CtxArrive(s.ctx, r)))
    case CtxStep =>
      ContextTyped(c.ctx, s.ctx, []);
      var x :- CtxSubmit(c.ctx, s.ctx);
      Ok(s.(ctx := x))
    case CtxBack(ts) =>
      ContextTyped(c.ctx, s.ctx, ts);
      var (x, migs) :- CtxReturn(c.ctx, s.ctx, ts);
      Ok(s.(ctx := x, bridge := s.bridge + migs))
    case Bridge => Ok(s.(bridge := s.bridge[1..], dec := AddMigrating(s.dec, s.bridge[0])))
    case DecStep =>
      SubmitTyped(c.dec, s.dec);
      var d :- Submit(c.dec, s.dec);
      Ok(s.(dec := d))
    case DecBack(ts) =>
      ReturnTyped(c.dec, s.dec, ts);
      var d :- Return(c.dec, s.dec, ts);
      Ok(s.(dec := d))
    case MigBegin =>
      var d :- MigrateBegin(c.dec, s.dec);
      Ok(s.(dec := d))
    case MigEnd =>
      var x :- ClearMigrated(s.ctx, s.dec.phase.mig);
      Ok(s.(ctx := x, dec := MigrateEnd(s.dec)))
    case DecDone => Ok(s.(dec := s.dec.(phase := Idle)))
  }

  /** A trace the environment can produce from s. */
  predicate Possible(c: SysConfig, s: Sys, es: seq<Event>)
    requires Typed(c, s)
    decreases |es|
  {
    es == []
    || (Enabled(c, s, es[0])
        && (Step(c, s, es[0]).Ok? ==> Possible(c, Step(c, s, es[0]).value, es[1..])))
  }

  /** The state after a trace, or the first exception raised. */
  function Run(c: SysConfig, s: Sys, es: seq<Event>): Result<Sys>
    requires Typed(c, s) && Possible(c, s, es)
    decreases |es|
  {
    if es == [] then Ok(s)
    else
      var s1 :- Step(c, s, es[0]);
      Run(c, s1, es[1..])
  }

  lemma FirstEvent(c: SysConfig, s: Sys, es: seq<Event>)
    requires Typed(c, s) && Possible(c, s, es) && es != []
    ensures Enabled(c, s, es[0])
    ensures Step(c, s, es[0]).Ok? ==>
              Possible(c, Step(c, s, es[0]).value, es[1..])
              && Run(c, s, es) == Run(c, Step(c, s, es[0]).value, es[1..])
    ensures Step(c, s, es[0]).Err? ==> Run(c, s, es).Err?
  {
  }

  // ---------------------------------------------------------------- what the events compute

  lemma CtxStepComputes(c: SysConfig, s: Sys)
    requires Typed(c, s) && Enabled(c, s, CtxStep) && Step(c, s, CtxStep).Ok?
    ensures CtxSubmit(c.ctx, s.ctx).Ok? && Step(c, s, CtxStep).value == s.(ctx := CtxSubmit(c.ctx, s.ctx).value)
  {
  }

  lemma CtxBackComputes(c: SysConfig, s: Sys, ts: seq<Token>)
    requires Typed(c, s) && Enabled(c, s, CtxBack(ts)) && Step(c, s, CtxBack(ts)).Ok?
    ensures CtxReturn(c.ctx, s.ctx, ts).Ok?
    ensures var (x, migs) := CtxReturn(c.ctx, s.ctx, ts).value;
            Step(c, s, CtxBack(ts)).value == s.(ctx := x, bridge := s.bridge + migs)
  {
  }

  lemma DecStepComputes(c: SysConfig, s: Sys)
    requires Typed(c, s) && Enabled(c, s, DecStep)
    ensures Step(c, s, DecStep).Ok? <==> Submit(c.dec, s.dec).Ok?
    ensures Step(c, s, DecStep).Ok? ==> Step(c, s, DecStep).value == s.(dec := Submit(c.dec, s.dec).value)
  {
  }

  lemma DecBackComputes(c: SysConfig, s: Sys, ts: seq<Token>)
    requires Typed(c, s) && Enabled(c, s, DecBack(ts)) && Step(c, s, DecBack(ts)).Ok?
    ensures Return(c.dec, s.dec, ts).Ok?
    ensures Step(c, s, DecBack(ts)).value == s.(dec := Return(c.dec, s.dec, ts).value)
  {
  }

  lemma MigBeginComputes(c: SysConfig, s: Sys)
    requires Typed(c, s) && Enabled(c, s, MigBegin) && Step(c, s, MigBegin).Ok?
    ensures MigrateBegin(c.dec, s.dec).Ok? && Step(c, s, MigBegin).value == s.(dec := MigrateBegin(c.dec, s.dec).value)
  {
  }

  lemma MigEndComputes(c: SysConfig, s: Sys)
    requires Typed(c, s) && s.dec.phase.Migrating? && Step(c, s, MigEnd).Ok?
    ensures ClearMigrated(s.ctx, s.dec.phase.mig).Ok?
    ensures Step(c, s, MigEnd).value
         == s.(ctx := ClearMigrated(s.ctx, s.dec.phase.mig).value, dec := MigrateEnd(s.dec))
  {
  }

  lemma BatchesUntouched(c: SysConfig, s: Sys, e: Event)
    requires Typed(c, s) && Enabled(c, s, e) && Step(c, s, e).Ok? && !e.DecStep? && !e.DecBack?
    ensures var d, d1 := s.dec, Step(c, s, e).value.dec;
            d1.pipeline == d.pipeline && d1.sched.cur == d.sched.cur && d1.sched.batches == d.sched.batches
  {
  }

  lemma PipelineUntouched(c: SysConfig, s: Sys, e: Event)
    requires Typed(c, s) && Enabled(c, s, e) && Step(c, s, e).Ok? && !e.CtxStep? && !e.CtxBack?
    ensures Step(c, s, e).value.ctx.pipeline == s.ctx.pipeline
  {
  }

  // ---------------------------------------------------------------- invariant

  function MigOf(d: Dec): seq<Mig> {
    if d.phase.Migrating? then [d.phase.mig] else []
  }

  /** Everything past the context stage that still has its blocks there: being migrated, taken
      from the bridge, or on the bridge, oldest first. */
  function Pending(s: Sys): seq<Mig> {
    MigOf(s.dec) + s.dec.sched.unaccepted + s.bridge
  }

  /** No request is on both sides, except the one being migrated. */
  ghost predicate Apart(s: Sys) {
    forall id :: id in s.dec.sched.bm.table ==>
      && id !in IdSet(s.ctx.sched.waiting)
      && (id in s.ctx.sched.bm.table ==> s.dec.phase.Migrating? && s.dec.phase.mig.req.id == id)
  }

  /** How the two sides fit together: the context side's unaccepted queue is, in order, the
      request being migrated, the decoding side's unaccepted queue and the bridge; each entry
      still names the request's context blocks; and nobody else is on both sides. */
  ghost predicate Cross(s: Sys) {
    && Reqs(Pending(s)) == s.ctx.sched.unaccepted
    && Indexed(s.ctx.sched.bm, Pending(s))
    && Apart(s)
  }

  ghost predicate Inv(c: SysConfig, s: Sys) {
    c.Valid() && CtxInv(c.ctx, s.ctx) && DecInv(c.dec, s.dec) && Cross(s)
  }

  lemma InitTyped(c: SysConfig)
    requires c.Valid()
    ensures Typed(c, Init(c))
  {
  }

  lemma InitInv(c: SysConfig)
    requires c.Valid()
    ensures Inv(c, Init(c))
  {
    InitCtxInv(c.ctx);
    InitDecInv(c.dec);
  }

  // ---------------------------------------------------------------- each event keeps it

  lemma ArriveCross(s: Sys, r: Req)
    requires Cross(s) && NewId(s, r.id)
    ensures Cross(s.(ctx := CtxArrive(s.ctx, r)))
  {
    IdSetAppend(s.ctx.sched.waiting, [r]);
  }

  lemma CtxStepCross(c: Config, s: Sys, x: Ctx)
    requires Cross(s) && CtxSubmitted(c, s.ctx, x)
    ensures Cross(s.(ctx := x))
  {
  }

  /** Requests that stay unaccepted keep their context blocks. */
  lemma StillIndexed(c: Config, x: Ctx, x1: Ctx, ms: seq<Mig>)
    requires CtxInv(c, x1) && Within(x.sched.bm, x1.sched.bm) && Indexed(x.sched.bm, ms)
    requires forall r :: r in Reqs(ms) ==> r in x1.sched.unaccepted
    ensures Indexed(x1.sched.bm, ms)
  {
    forall m | m in ms ensures m.req.id in x1.sched.bm.table && x1.sched.bm.table[m.req.id] == m.blockIndexes {
      var i :| 0 <= i < |ms| && ms[i] == m;
      assert Reqs(ms)[i] == m.req;
      InHeld(c, x1.sched.bm, x1.pipeline, x1.sched.unaccepted, [], m.req);
    }
  }

  lemma PendingAtBack(s: Sys, x: Ctx, migs: seq<Mig>)
    ensures Pending(s.(ctx := x, bridge := s.bridge + migs)) == Pending(s) + migs
    ensures Reqs(Pending(s) + migs) == Reqs(Pending(s)) + Reqs(migs)
  {
  }

  lemma CtxBackCross(c: Config, s: Sys, x: Ctx, migs: seq<Mig>)
    requires Cross(s) && CtxReturned(c, s.ctx, x, migs)
    ensures Cross(s.(ctx := x, bridge := s.bridge + migs))
  {
    PendingAtBack(s, x, migs);
    StillIndexed(c, s.ctx, x, Pending(s));
  }

  lemma BridgeCross(s: Sys)
    requires Cross(s) && s.bridge != []
    ensures Cross(s.(bridge := s.bridge[1..], dec := AddMigrating(s.dec, s.bridge[0])))
  {
    assert Pending(s.(bridge := s.bridge[1..], dec := AddMigrating(s.dec, s.bridge[0]))) == Pending(s);
  }

  /** A decoding step that takes in nobody and touches neither queue of pending requests. */
  lemma DecStepCross(s: Sys, d: Dec)
    requires Cross(s) && d.sched.bm.table.Keys <= s.dec.sched.bm.table.Keys
    requires !s.dec.phase.Migrating? && !d.phase.Migrating? && d.sched.unaccepted == s.dec.sched.unaccepted
    ensures Cross(s.(dec := d))
  {
    assert Pending(s.(dec := d)) == Pending(s);
    assert forall id :: id in d.sched.bm.table ==> id in s.dec.sched.bm.table;
  }

  lemma PendingAtBegin(s: Sys, d: Dec)
    requires s.dec.sched.unaccepted != [] && s.dec.phase.Accepting?
    requires d.phase == Migrating(s.dec.sched.unaccepted[0])
    requires d.sched.unaccepted == s.dec.sched.unaccepted[1..]
    ensures Pending(s.(dec := d)) == Pending(s) && s.dec.sched.unaccepted[0] in Pending(s)
  {
  }

  lemma MigBeginCross(c: Config, s: Sys, d: Dec)
    requires Cross(s) && s.dec.sched.unaccepted != [] && s.dec.phase.Accepting? && CtxInv(c, s.ctx)
    requires d.phase == Migrating(s.dec.sched.unaccepted[0])
    requires d.sched.unaccepted == s.dec.sched.unaccepted[1..]
    requires d.sched.bm.table.Keys == s.dec.sched.bm.table.Keys + {s.dec.sched.unaccepted[0].req.id}
    ensures Cross(s.(dec := d))
  {
    var m := s.dec.sched.unaccepted[0];
    PendingAtBegin(s, d);
    NotWaiting(c, s.ctx, m.req.id);
    forall id | id in d.sched.bm.table
      ensures id !in IdSet(s.ctx.sched.waiting)
      ensures id in s.ctx.sched.bm.table ==> id == m.req.id
    {
      assert id in s.dec.sched.bm.table || id == m.req.id;
    }
  }

  lemma NotWaiting(c: Config, x: Ctx, id: int)
    requires CtxInv(c, x) && id in x.sched.bm.table
    ensures id !in IdSet(x.sched.waiting)
  {
    IdSetCounts(x.sched.waiting, id);
  }

  lemma PendingAtEnd(s: Sys, x: Ctx)
    requires s.dec.phase.Migrating?
    ensures Pending(s.(ctx := x, dec := MigrateEnd(s.dec))) == Pending(s)[1..]
    ensures Reqs(Pending(s)[1..]) == Reqs(Pending(s))[1..]
  {
  }

  lemma MigEndCross(c: Config, s: Sys, x: Ctx)
    requires Cross(s) && s.dec.phase.Migrating? && CtxInv(c, x)
    requires x.sched.unaccepted == s.ctx.sched.unaccepted[1..] && x.sched.waiting == s.ctx.sched.waiting
    requires Within(s.ctx.sched.bm, x.sched.bm)
    requires x.sched.bm.table.Keys == s.ctx.sched.bm.table.Keys - {s.dec.phase.mig.req.id}
    ensures Cross(s.(ctx := x, dec := MigrateEnd(s.dec)))
  {
    PendingAtEnd(s, x);
    StillIndexed(c, s.ctx, x, Pending(s)[1..]);
  }

  lemma MigBeginInv(c: SysConfig, s: Sys)
    requires Inv(c, s) && s.dec.phase.Accepting? && CanAccept(c, s)
    ensures MigrateBegin(c.dec, s.dec).Ok?
    ensures Inv(c, s.(dec := MigrateBegin(c.dec, s.dec).value))
  {
    var m := s.dec.sched.unaccepted[0];
    PendingAcceptable(c, s, m);
    MigrateBeginSafe(c.dec, s.dec);
    MigBeginCross(c.ctx, s, MigrateBegin(c.dec, s.dec).value);
  }

  /** Every pending request can be migrated: it is live, unknown to the decoding side, and its
      context block list has the length the decoding side will allocate. */
  lemma PendingAcceptable(c: SysConfig, s: Sys, m: Mig)
    requires Inv(c, s) && !s.dec.phase.Migrating? && m in Pending(s)
    ensures Acceptable(c.dec, s.dec, m)
  {
    var i :| 0 <= i < |Pending(s)| && Pending(s)[i] == m;
    assert Reqs(Pending(s))[i] == m.req;
    assert m.req in s.ctx.sched.unaccepted;
    assert Sized(c.ctx, s.ctx.sched.bm, s.ctx.sched.unaccepted);
  }

  lemma MigEndInv(c: SysConfig, s: Sys)
    requires Inv(c, s) && s.dec.phase.Migrating?
    ensures ClearMigrated(s.ctx, s.dec.phase.mig).Ok?
    ensures Inv(c, s.(ctx := ClearMigrated(s.ctx, s.dec.phase.mig).value, dec := MigrateEnd(s.dec)))
  {
    assert Pending(s)[0] == s.dec.phase.mig;
    assert Reqs(Pending(s))[0] == s.dec.phase.mig.req;
    ClearMigratedSafe(c.ctx, s.ctx, s.dec.phase.mig);
    MigrateEndSafe(c.dec, s.dec);
    MigEndCross(c.ctx, s, ClearMigrated(s.ctx, s.dec.phase.mig).value);
  }

  lemma CtxStepInv(c: SysConfig, s: Sys)
    requires Inv(c, s) && !s.ctx.submitted
    ensures CtxSubmit(c.ctx, s.ctx).Ok?
    ensures Inv(c, s.(ctx := CtxSubmit(c.ctx, s.ctx).value))
  {
    CtxSubmitSafe(c.ctx, s.ctx);
    CtxStepCross(c.ctx, s, CtxSubmit(c.ctx, s.ctx).value);
  }

  lemma CtxBackInv(c: SysConfig, s: Sys, ts: seq<Token>)
    requires Inv(c, s) && s.ctx.submitted && CtxTokensFor(c.ctx, s.ctx, ts)
    ensures CtxReturn(c.ctx, s.ctx, ts).Ok?
    ensures var (x, migs) := CtxReturn(c.ctx, s.ctx, ts).value;
            Inv(c, s.(ctx := x, bridge := s.bridge + migs))
  {
    CtxReturnSafe(c.ctx, s.ctx, ts);
    var (x, migs) := CtxReturn(c.ctx, s.ctx, ts).value;
    CtxBackCross(c.ctx, s, x, migs);
  }

  lemma DecStepInv(c: SysConfig, s: Sys)
    requires Inv(c, s) && s.dec.phase.Idle?
    ensures Submit(c.dec, s.dec).Ok? ==> Inv(c, s.(dec := Submit(c.dec, s.dec).value))
    ensures Submit(c.dec, s.dec).Err? ==> Submit(c.dec, s.dec).error == OutOfCpuBlocks
  {
    SubmitSafe(c.dec, s.dec);
    if Submit(c.dec, s.dec).Ok? {
      DecStepCross(s, Submit(c.dec, s.dec).value);
    }
  }

  lemma DecBackInv(c: SysConfig, s: Sys, ts: seq<Token>)
    requires Inv(c, s) && s.dec.phase.Submitted? && TokensFor(c.dec, s.dec, ts)
    ensures Return(c.dec, s.dec, ts).Ok?
    ensures Inv(c, s.(dec := Return(c.dec, s.dec, ts).value))
  {
    ReturnSafe(c.dec, s.dec, ts);
    DecStepCross(s, Return(c.dec, s.dec, ts).value);
  }

  lemma QueueStepInv(c: SysConfig, s: Sys, e: Event)
    requires Inv(c, s) && Enabled(c, s, e) && (e.Arrive? || e.Bridge?)
    ensures Step(c, s, e).Ok? && Inv(c, Step(c, s, e).value)
  {
    if e.Arrive? {
      CtxArriveSafe(c.ctx, s.ctx, e.req);
      ArriveCross(s, e.req);
    } else {
      AddMigratingSafe(c.dec, s.dec, s.bridge[0]);
      BridgeCross(s);
    }
  }

  lemma CtxBackStepInv(c: SysConfig, s: Sys, ts: seq<Token>)
    requires Inv(c, s) && Typed(c, s) && Enabled(c, s, CtxBack(ts))
    ensures Step(c, s, CtxBack(ts)).Ok? && Inv(c, Step(c, s, CtxBack(ts)).value)
  {
    CtxBackInv(c, s, ts);
    CtxBackComputes(c, s, ts);
  }

  lemma ContextStepInv(c: SysConfig, s: Sys, e: Event)
    requires Inv(c, s) && Typed(c, s) && Enabled(c, s, e) && (e.CtxStep? || e.CtxBack?)
    ensures Step(c, s, e).Ok? && Inv(c, Step(c, s, e).value)
  {
    if e.CtxStep? {
      CtxStepInv(c, s);
    } else {
      CtxBackStepInv(c, s, e.tokens);
    }
  }

  lemma DecDoneInv(c: SysConfig, s: Sys)
    requires Inv(c, s) && s.dec.phase.Accepting?
    ensures Inv(c, s.(dec := s.dec.(phase := Idle)))
  {
    PhaseSafe(c.dec, s.dec);
    DecStepCross(s, s.dec.(phase := Idle));
  }

  lemma DecodingStepInv(c: SysConfig, s: Sys, e: Event)
    requires Inv(c, s) && Typed(c, s) && Enabled(c, s, e) && (e.DecStep? || e.DecBack? || e.DecDone?)
    ensures Step(c, s, e).Ok? ==> Inv(c, Step(c, s, e).value)
    ensures Step(c, s, e).Err? ==> e.DecStep? && Step(c, s, e).error == OutOfCpuBlocks
  {
    match e
    case DecStep => DecStepInv(c, s);
    case DecBack(ts) => DecBackInv(c, s, ts);
    case DecDone => DecDoneInv(c, s);
    case _ =>
  }

  lemma MigrationStepInv(c: SysConfig, s: Sys, e: Event)
    requires Inv(c, s) && Typed(c, s) && Enabled(c, s, e) && (e.MigBegin? || e.MigEnd?)
    ensures Step(c, s, e).Ok? && Inv(c, Step(c, s, e).value)
  {
    if e.MigBegin? {
      MigBeginInv(c, s);
      MigBeginComputes(c, s);
    } else {
      MigEndInv(c, s);
      MigEndComputes(c, s);
    }
  }

  /** Every event that can happen keeps the invariant, and no assertion of the source fires
      except the one on CPU blocks when a decoding step has to swap out. */
  lemma StepInv(c: SysConfig, s: Sys, e: Event)
    requires Inv(c, s) && Enabled(c, s, e)
    ensures Step(c, s, e).Ok? ==> Inv(c, Step(c, s, e).value)
    ensures Step(c, s, e).Err? ==> e.DecStep? && Step(c, s, e).error == OutOfCpuBlocks
  {
    InvTyped(c, s);
    if e.Arrive? || e.Bridge? {
      QueueStepInv(c, s, e);
    } else if e.CtxStep? || e.CtxBack? {
      ContextStepInv(c, s, e);
    } else if e.MigBegin? || e.MigEnd? {
      MigrationStepInv(c, s, e);
    } else {
      DecodingStepInv(c, s, e);
    }
  }

  lemma InvTyped(c: SysConfig, s: Sys)
    requires Inv(c, s)
    ensures Typed(c, s)
  {
  }

  lemma {:induction false} RunInv(c: SysConfig, s: Sys, es: seq<Event>)
    requires Inv(c, s) && Typed(c, s) && Possible(c, s, es)
    ensures Run(c, s, es).Ok? ==> Inv(c, Run(c, s, es).value)
    ensures Run(c, s, es).Err? ==> Run(c, s, es).error == OutOfCpuBlocks
    decreases |es|
  {
    if es != [] {
      StepInv(c, s, es[0]);
      if Step(c, s, es[0]).Ok? {
        RunInv(c, Step(c, s, es[0]).value, es[1..]);
      }
    }
  }

  /** Whole-run safety: for every configuration, every arrival pattern, every token outcome and
      every interleaving, the only exception that can ever be raised is the want of CPU blocks
      in a swap-out, and every state reached satisfies the invariant. */
  lemma RunsAreSafe(c: SysConfig, es: seq<Event>)
    requires c.Valid() && Typed(c, Init(c)) && Possible(c, Init(c), es)
    ensures Run(c, Init(c), es).Ok? ==> Inv(c, Run(c, Init(c), es).value)
    ensures Run(c, Init(c), es).Err? ==> Run(c, Init(c), es).error == OutOfCpuBlocks
  {
    InitInv(c);
    RunInv(c, Init(c), es);
  }
}
