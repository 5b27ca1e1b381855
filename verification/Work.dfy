/** How much the two engines still have to do: a measure no event but an arrival raises, and every
    event that moves a request lowers. It bounds the decoding calls of every run. */
module Work {
  import opened Common
  import opened Sums
  import opened Requests
  import opened DecodeScheduler
  import opened DecodeEngine
  import opened ContextEngine
  import opened Disaggregated
  import opened DecodeOrder
  import opened Conservation
  import opened Delivery

  // ---------------------------------------------------------------- decoding calls a request can be in

  /** Its first token comes from the context stage. */
  function CallsLeft(r: Req): nat {
    if |r.output| >= r.sampling.maxTokens then 0
    else r.sampling.maxTokens - |r.output| - (if r.output == [] then 1 else 0)
  }

  function CallsLeftF(): Req -> nat { (r: Req) => CallsLeft(r) }

  lemma {:induction false} LiveTokens(b: seq<Req>, a: seq<Req>, ts: seq<Token>)
    requires |b| == |a| == |ts| && AllLive(b)
    requires forall i :: 0 <= i < |b| ==> Extended(b[i], a[i], ts[i])
    ensures Sum(CallsLeftF(), a) + |b| == Sum(CallsLeftF(), b)
  {
    if b != [] {
      assert Extended(b[0], a[0], ts[0]) && Live(b[0]);
      LiveTokens(b[1..], a[1..], ts[1..]);
    }
  }

  lemma FirstTokens(b: seq<Req>, a: seq<Req>, ts: seq<Token>)
    requires |b| == |a| == |ts| && AllFresh(b)
    requires forall i :: 0 <= i < |b| ==> Extended(b[i], a[i], ts[i])
    ensures Sum(CallsLeftF(), a) == Sum(CallsLeftF(), b)
  {
    forall i | 0 <= i < |b| ensures CallsLeftF()(b[i]) == CallsLeftF()(a[i]) {
      assert Extended(b[i], a[i], ts[i]) && b[i] in b;
    }
    SumPointwise(CallsLeftF(), b, a);
  }

  /** The requests of a batch that returns: fresh ones from the context stage, live ones from decoding. */
  lemma ReturnedAre(c: SysConfig, s: Sys, e: Event)
    requires Inv(c, s) && Enabled(c, s, e)
    ensures e.DecBack? ==> AllLive(Batch0(c, s, e))
    ensures e.CtxBack? ==> AllFresh(Batch0(c, s, e))
  {
    if e.CtxBack? && CtxFull(c.ctx, s.ctx) && s.ctx.futures[0].Some? {
      assert CtxFlight(s.ctx, 0) && AllFresh(s.ctx.pipeline[0].requests);
    } else if e.DecBack? && Full(c.dec, s.dec) && s.dec.futures[0].Some? {
      var j := s.dec.pipeline[0];
      assert BatchPlaced(c.dec, s.dec.sched.bm, s.dec.sched.batches[j].requests, j != OpenIndex(c.dec, s.dec));
    }
  }

  /** What the tokens of an event take off: one call per request, in decoding. */
  function Taken(c: SysConfig, s: Sys, e: Event): nat
    requires Typed(c, s) && Enabled(c, s, e)
  {
    if e.DecBack? then |Batch0(c, s, e)| else 0
  }

  lemma ReturnTakes(c: SysConfig, s: Sys, e: Event)
    requires Inv(c, s) && Enabled(c, s, e) && Batch0(c, s, e) != []
    ensures Sum(CallsLeftF(), Unfinished(Batch1(c, s, e))) + Taken(c, s, e) <= Sum(CallsLeftF(), Batch0(c, s, e))
  {
    TokensPairWithCall(c, s, e);
    ReturnedAre(c, s, e);
    SplitSums(CallsLeftF(), Batch1(c, s, e));
    if e.DecBack? {
      LiveTokens(Batch0(c, s, e), Batch1(c, s, e), TokensOfEvent(e));
    } else {
      FirstTokens(Batch0(c, s, e), Batch1(c, s, e), TokensOfEvent(e));
    }
  }

  function NewSum(f: Req -> nat, e: Event): nat { if e.Arrive? then f(e.req) else 0 }

  lemma CallsLeftStep(c: SysConfig, s: Sys, e: Event)
    requires Inv(c, s) && Enabled(c, s, e) && Step(c, s, e).Ok?
    ensures Sum(CallsLeftF(), Everyone(Step(c, s, e).value)) + Taken(c, s, e)
         <= Sum(CallsLeftF(), Everyone(s)) + NewSum(CallsLeftF(), e)
  {
    if Batch0(c, s, e) == [] {
      OtherSums(CallsLeftF(), c, s, e);
    } else {
      TokensAccepted(c, s, e);
      BackSums(CallsLeftF(), c, s, e);
      ReturnTakes(c, s, e);
    }
  }

  // ---------------------------------------------------------------- places

  function CountF(): Req -> nat { (r: Req) => 1 }

  lemma {:induction false} CountIsLength(rs: seq<Req>)
    ensures Sum(CountF(), rs) == |rs|
  {
    if rs != [] {
      CountIsLength(rs[1..]);
    }
  }

  /** Requests of the batches that are in flight, or of those that are not. */
  function Headcount(bs: seq<Batch>, started: bool): nat {
    if bs == [] then 0
    else (if bs[0].started == started then |bs[0].requests| else 0) + Headcount(bs[1..], started)
  }

  lemma {:induction false} HeadcountUpdate(bs: seq<Batch>, n: nat, b: Batch, started: bool)
    requires n < |bs|
    ensures Headcount(bs[n := b], started) + (if bs[n].started == started then |bs[n].requests| else 0)
         == Headcount(bs, started) + (if b.started == started then |b.requests| else 0)
  {
    if n == 0 {
      assert bs[0 := b][1..] == bs[1..];
    } else {
      HeadcountUpdate(bs[1..], n - 1, b, started);
      assert bs[n := b][1..] == bs[1..][n - 1 := b];
    }
  }

  lemma {:induction false} HeadcountAll(bs: seq<Batch>)
    ensures Headcount(bs, true) + Headcount(bs, false) == SumBatches(CountF(), bs)
  {
    if bs != [] {
      CountIsLength(bs[0].requests);
      HeadcountAll(bs[1..]);
    }
  }

  /** The further a request has come, the less its place weighs; evicted requests weigh less than
      those whose batch waits for its turn, and those in flight nothing. */
  function QueuePlaces(s: Sched): nat { 3 * |s.waiting| + |s.swapped| + 2 * Headcount(s.batches, false) }

  function DecPlaces(d: Dec): nat { 5 * |d.sched.unaccepted| + 4 * |MigReqs(d)| + QueuePlaces(d.sched) }

  function CtxPlaces(x: Ctx): nat { 8 * |x.sched.waiting| + 7 * SumBatches(CountF(), x.pipeline) }

  function Places(s: Sys): nat { CtxPlaces(s.ctx) + 6 * |s.bridge| + DecPlaces(s.dec) }

  function WorkLeft(s: Sys): nat { 3 * Sum(CallsLeftF(), Everyone(s)) + Places(s) }

  // ---------------------------------------------------------------- events that move somebody

  /** The batch whose turn it is holds somebody, before the call or after it. */
  predicate Stirs(c: Config, d: Dec)
    requires IndicesOk(c, d) && Submit(c, d).Ok?
  {
    Current(c, Rotate(c, d.sched)) != [] || Current(c, GetNextBatch(c, d.sched).value) != []
  }

  /** The event takes a request from one place to another. */
  predicate Productive(c: SysConfig, s: Sys, e: Event)
    requires Typed(c, s) && Enabled(c, s, e) && Step(c, s, e).Ok?
  {
    match e
    case Arrive(r) => true
    case CtxStep => CtxSubmit(c.ctx, s.ctx).value.sched.waiting != s.ctx.sched.waiting
    case CtxBack(ts) => Batch0(c, s, e) != []
    case DecStep => Stirs(c.dec, s.dec)
    case DecBack(ts) => Batch0(c, s, e) != []
    case DecDone => false
    case _ => true
  }

  // ---------------------------------------------------------------- the context engine

  lemma PicksPlaces(x: Ctx, x1: Ctx, b: Batch)
    requires x1.pipeline == x.pipeline + [b] && b.requests + x1.sched.waiting == x.sched.waiting
    ensures CtxPlaces(x1) + |b.requests| == CtxPlaces(x)
    ensures b.requests == [] <==> x1.sched.waiting == x.sched.waiting
  {
    SumBatchesSnoc(CountF(), x.pipeline, b);
    CountIsLength(b.requests);
    assert |b.requests| + |x1.sched.waiting| == |x.sched.waiting|;
  }

  lemma CtxStepPlaces(c: Config, x: Ctx)
    requires CtxInv(c, x) && !x.submitted
    ensures CtxSubmit(c, x).Ok?
    ensures var x1 := CtxSubmit(c, x).value;
            CtxPlaces(x1) + (if x1.sched.waiting != x.sched.waiting then 1 else 0) <= CtxPlaces(x)
  {
    var b := CtxStepMoves(c, x);
    PicksPlaces(x, CtxSubmit(c, x).value, b);
  }

  lemma SelectShorter(rs: seq<Req>)
    ensures |Unfinished(rs)| <= |rs|
  {
    SplitSums(CountF(), rs);
    CountIsLength(rs);
    CountIsLength(Unfinished(rs));
  }

  lemma RetiredPlaces(c: Config, x: Ctx, x1: Ctx, migs: seq<Mig>, rs: seq<Req>)
    requires x.pipeline != [] && x1.pipeline == x.pipeline[1..] && x1.sched.waiting == x.sched.waiting
    requires x1.sched.unaccepted == x.sched.unaccepted + Unfinished(rs) == x.sched.unaccepted + Reqs(migs)
    requires |rs| == |x.pipeline[0].requests|
    ensures CtxPlaces(x1) + 6 * |migs| + |rs| <= CtxPlaces(x)
  {
    SelectShorter(rs);
    assert |x1.sched.unaccepted| == |x.sched.unaccepted| + |Unfinished(rs)|;
    CountIsLength(x.pipeline[0].requests);
  }

  lemma CtxReturnShape(c: Config, x: Ctx, ts: seq<Token>, rs: seq<Req>)
    requires c.Valid() && |x.futures| == |x.pipeline| && CtxFull(c, x) && x.futures[0].Some?
    requires AddTokens(x.pipeline[0].requests, ts) == Ok(rs) && CtxReturn(c, x, ts).Ok?
    ensures var x1 := CtxReturn(c, x, ts).value.0;
            && x1.pipeline == x.pipeline[1..] && x1.sched.unaccepted == x.sched.unaccepted + Unfinished(rs)
  {
  }

  lemma CtxBackPlaces(c: Config, x: Ctx, ts: seq<Token>, rs: seq<Req>)
    requires CtxInv(c, x) && x.submitted && CtxTokensFor(c, x, ts)
    requires CtxFull(c, x) && x.futures[0].Some?
    requires AddTokens(x.pipeline[0].requests, ts) == Ok(rs) && |rs| == |x.pipeline[0].requests|
    ensures CtxReturn(c, x, ts).Ok?
    ensures CtxPlaces(CtxReturn(c, x, ts).value.0) + 6 * |CtxReturn(c, x, ts).value.1| + |rs| <= CtxPlaces(x)
  {
    CtxReturnSafe(c, x, ts);
    CtxReturnShape(c, x, ts, rs);
    RetiredPlaces(c, x, CtxReturn(c, x, ts).value.0, CtxReturn(c, x, ts).value.1, rs);
  }

  /** A return without a call drops an empty batch at most. */
  lemma CtxIdleShape(c: Config, x: Ctx, ts: seq<Token>)
    requires CtxInv(c, x) && x.submitted && !(CtxFull(c, x) && x.futures[0].Some?)
    ensures CtxReturn(c, x, ts).Ok? && CtxReturn(c, x, ts).value.1 == []
    ensures var x1 := CtxReturn(c, x, ts).value.0;
            && x1.sched == x.sched && !x1.submitted
            && (if CtxFull(c, x) then x.pipeline[0].requests == [] && x1.pipeline == x.pipeline[1..]
                else x1.pipeline == x.pipeline)
  {
    if CtxFull(c, x) {
      assert CtxFlight(x, 0);
    }
  }

  lemma CtxIdlePlaces(c: Config, x: Ctx, ts: seq<Token>)
    requires CtxInv(c, x) && x.submitted && !(CtxFull(c, x) && x.futures[0].Some?)
    ensures CtxReturn(c, x, ts).Ok? && CtxReturn(c, x, ts).value.1 == []
    ensures CtxPlaces(CtxReturn(c, x, ts).value.0) == CtxPlaces(x)
  {
    CtxIdleShape(c, x, ts);
  }

  lemma CtxCallHasRequests(x: Ctx)
    requires |x.pipeline| == |x.futures| > 0 && CtxFlight(x, 0) && x.futures[0].Some?
    ensures x.pipeline[0].requests != []
  {
  }

  lemma CtxBackStep(c: SysConfig, s: Sys, ts: seq<Token>)
    requires Inv(c, s) && Enabled(c, s, CtxBack(ts)) && Step(c, s, CtxBack(ts)).Ok?
    ensures Places(Step(c, s, CtxBack(ts)).value) + |Batch0(c, s, CtxBack(ts))| <= Places(s)
  {
    CtxBackComputes(c, s, ts);
    if CtxFull(c.ctx, s.ctx) && s.ctx.futures[0].Some? {
      CtxCallHasRequests(s.ctx);
      TokensAccepted(c, s, CtxBack(ts));
      TokensPairWithCall(c, s, CtxBack(ts));
      CtxBackPlaces(c.ctx, s.ctx, ts, Batch1(c, s, CtxBack(ts)));
    } else {
      CtxIdlePlaces(c.ctx, s.ctx, ts);
    }
  }

  // ---------------------------------------------------------------- the decoding engine

  lemma WaitingShrinks(c: Config, s: Sched)
    requires Shape(c, s) && GetNextBatch(c, s).Ok?
    ensures |GetNextBatch(c, s).value.waiting| <= |s.waiting|
  {
    var k, m, w, mid := NextBatchIsFcfs(c, s);
  }

  /** Only the batch n is another one. */
  predicate OneBatch(s: Sched, t: Sched, n: nat) {
    n < |s.batches| == |t.batches| && t.batches == s.batches[n := t.batches[n]]
  }

  /** A batch that was not in flight is in flight now, if it holds anybody. */
  lemma LaunchPlaces(s: Sched, t: Sched, n: nat)
    requires OneBatch(s, t, n) && !s.batches[n].started
    requires t.batches[n].started == (t.batches[n].requests != [])
    requires AllSum(CountF(), t, []) == AllSum(CountF(), s, []) && |t.waiting| <= |s.waiting|
    ensures QueuePlaces(t) + |s.batches[n].requests| + |t.batches[n].requests| <= QueuePlaces(s)
    ensures Headcount(t.batches, true) == Headcount(s.batches, true) + |t.batches[n].requests|
  {
    HeadcountUpdate(s.batches, n, t.batches[n], false);
    HeadcountUpdate(s.batches, n, t.batches[n], true);
    HeadcountAll(s.batches);
    HeadcountAll(t.batches);
    CountIsLength(s.waiting);
    CountIsLength(t.waiting);
    CountIsLength(s.swapped);
    CountIsLength(t.swapped);
  }

  lemma SubmitLaunch(c: Config, d: Dec)
    requires DecInv(c, d) && d.phase.Idle? && Submit(c, d).Ok?
    ensures GetNextBatch(c, d.sched).Ok?
    ensures var s, t, n := d.sched, Submit(c, d).value.sched, Next(d.sched.cur, c.pp);
            && OneBatch(s, t, n) && !s.batches[n].started
            && t.batches[n].requests == Current(c, GetNextBatch(c, d.sched).value)
            && t.batches[n].started == (t.batches[n].requests != [])
  {
    SubmitOthers(c, d);
    SubmitShape(c, d);
    SubmitPipeline(c, d);
    NextNotInPipeline(c, d);
    SubmitFlag(c, d);
    var s, t, n := d.sched, Submit(c, d).value.sched, Next(d.sched.cur, c.pp);
    assert t.batches == s.batches[n := t.batches[n]];
  }

  lemma SubmitFlag(c: Config, d: Dec)
    requires DecInv(c, d) && d.phase.Idle? && Submit(c, d).Ok?
    ensures var t := Submit(c, d).value.sched;
            0 <= t.cur < |t.batches| && t.batches[t.cur].started == (t.batches[t.cur].requests != [])
  {
    SubmitSafe(c, d);
    SubmitPipeline(c, d);
    var d1 := Submit(c, d).value;
    assert InFlight(d1, |d.pipeline|);
  }

  lemma DecStepPlaces(c: Config, d: Dec)
    requires DecInv(c, d) && d.phase.Idle? && Submit(c, d).Ok?
    ensures GetNextBatch(c, d.sched).Ok?
    ensures var t, n := Submit(c, d).value, |Current(c, GetNextBatch(c, d.sched).value)|;
            && QueuePlaces(t.sched) + |Current(c, Rotate(c, d.sched))| + n <= QueuePlaces(d.sched)
            && Headcount(t.sched.batches, true) == Headcount(d.sched.batches, true) + n
            && t.sched.unaccepted == d.sched.unaccepted && MigReqs(t) == MigReqs(d) == []
  {
    var t := Submit(c, d).value.sched;
    SubmitSafe(c, d);
    SubmitLaunch(c, d);
    DecStepKeeps(CountF(), c, d);
    DecodingParts(CountF(), d.sched);
    DecodingParts(CountF(), t);
    SubmitShape(c, d);
    WaitingShrinks(c, d.sched);
    LaunchPlaces(d.sched, t, Next(d.sched.cur, c.pp));
  }

  lemma DecBackPlaces(c: Config, d: Dec, ts: seq<Token>, rs: seq<Req>)
    requires DecInv(c, d) && d.phase.Submitted? && TokensFor(c, d, ts) && Full(c, d) && d.futures[0].Some?
    requires AddTokens(d.sched.batches[d.pipeline[0]].requests, ts) == Ok(rs)
    requires |rs| == |d.sched.batches[d.pipeline[0]].requests|
    ensures Return(c, d, ts).Ok?
    ensures var t := Return(c, d, ts).value;
            && DecPlaces(t) <= DecPlaces(d) + 2 * |rs|
            && Headcount(t.sched.batches, true) + |rs| == Headcount(d.sched.batches, true)
  {
    ReturnBatchSafe(c, d, ts);
    assert InFlight(d, 0);
    DecReturnShape(c, d, ts, rs);
    SelectShorter(rs);
    HeadcountUpdate(d.sched.batches, d.pipeline[0], Batch(Unfinished(rs), false), false);
    HeadcountUpdate(d.sched.batches, d.pipeline[0], Batch(Unfinished(rs), false), true);
  }

  lemma DecIdleShape(c: Config, d: Dec, ts: seq<Token>)
    requires IndicesOk(c, d) && !(Full(c, d) && d.futures[0].Some?)
    ensures Return(c, d, ts).Ok?
    ensures Return(c, d, ts).value.sched == d.sched && Return(c, d, ts).value.phase == Accepting
  {
  }

  lemma DecCallStep(c: SysConfig, s: Sys, ts: seq<Token>)
    requires Inv(c, s) && Enabled(c, s, DecBack(ts)) && Full(c.dec, s.dec) && s.dec.futures[0].Some?
    ensures Return(c.dec, s.dec, ts).Ok?
    ensures var t, n := Return(c.dec, s.dec, ts).value, |Batch0(c, s, DecBack(ts))|;
            && DecPlaces(t) <= DecPlaces(s.dec) + 2 * n
            && Headcount(t.sched.batches, true) + n == Headcount(s.dec.sched.batches, true)
  {
    CallHasRequests(s.dec);
    TokensAccepted(c, s, DecBack(ts));
    TokensPairWithCall(c, s, DecBack(ts));
    DecBackPlaces(c.dec, s.dec, ts, Batch1(c, s, DecBack(ts)));
  }

  lemma DecBackStep(c: SysConfig, s: Sys, ts: seq<Token>)
    requires Inv(c, s) && Enabled(c, s, DecBack(ts)) && Step(c, s, DecBack(ts)).Ok?
    ensures var t, n := Step(c, s, DecBack(ts)).value, |Batch0(c, s, DecBack(ts))|;
            && Places(t) <= Places(s) + 2 * n
            && Headcount(t.dec.sched.batches, true) + n == Headcount(s.dec.sched.batches, true)
  {
    DecBackComputes(c, s, ts);
    if Full(c.dec, s.dec) && s.dec.futures[0].Some? {
      DecCallStep(c, s, ts);
    } else {
      DecIdleShape(c.dec, s.dec, ts);
    }
  }

  // ---------------------------------------------------------------- every event

  lemma ClearedPlaces(x: Ctx, m: Mig)
    requires ClearMigrated(x, m).Ok?
    ensures CtxPlaces(ClearMigrated(x, m).value) == CtxPlaces(x)
  {
  }

  lemma EnqueuedPlaces(d: Dec)
    requires d.phase.Migrating?
    ensures DecPlaces(MigrateEnd(d)) + 1 == DecPlaces(d)
  {
  }

  lemma MigEndPlaces(c: SysConfig, s: Sys)
    requires Typed(c, s) && s.dec.phase.Migrating? && Step(c, s, MigEnd).Ok?
    ensures Places(Step(c, s, MigEnd).value) + 1 == Places(s)
  {
    MigEndComputes(c, s);
    ClearedPlaces(s.ctx, s.dec.phase.mig);
    EnqueuedPlaces(s.dec);
  }

  lemma AcceptedPlaces(c: Config, d: Dec)
    requires c.Valid() && d.sched.unaccepted != [] && d.phase.Accepting? && MigrateBegin(c, d).Ok?
    ensures DecPlaces(MigrateBegin(c, d).value) + 1 == DecPlaces(d)
  {
  }

  lemma MigBeginPlaces(c: SysConfig, s: Sys)
    requires Typed(c, s) && Enabled(c, s, MigBegin) && Step(c, s, MigBegin).Ok?
    ensures Places(Step(c, s, MigBegin).value) + 1 == Places(s)
  {
    MigBeginComputes(c, s);
    AcceptedPlaces(c.dec, s.dec);
  }

  lemma BridgePlaces(c: SysConfig, s: Sys)
    requires Typed(c, s) && Enabled(c, s, Bridge) && Step(c, s, Bridge).Ok?
    ensures Places(Step(c, s, Bridge).value) + 1 == Places(s)
  {
  }

  lemma CtxStepStep(c: SysConfig, s: Sys)
    requires Inv(c, s) && Enabled(c, s, CtxStep) && Step(c, s, CtxStep).Ok?
    ensures Places(Step(c, s, CtxStep).value) + (if Productive(c, s, CtxStep) then 1 else 0) <= Places(s)
  {
    CtxStepComputes(c, s);
    CtxStepPlaces(c.ctx, s.ctx);
  }

  lemma DecStepStep(c: SysConfig, s: Sys)
    requires Inv(c, s) && Enabled(c, s, DecStep) && Step(c, s, DecStep).Ok?
    ensures Places(Step(c, s, DecStep).value) + (if Productive(c, s, DecStep) then 1 else 0) <= Places(s)
  {
    DecStepComputes(c, s);
    DecStepPlaces(c.dec, s.dec);
  }

  /** Requests that change their place get lighter; the tokens of a decoding batch pay for its return. */
  lemma PlacesStep(c: SysConfig, s: Sys, e: Event)
    requires Inv(c, s) && Enabled(c, s, e) && Step(c, s, e).Ok? && !e.Arrive?
    ensures Places(Step(c, s, e).value) + (if Productive(c, s, e) then 1 else 0) <= Places(s) + 3 * Taken(c, s, e)
  {
    match e
    case CtxStep => CtxStepStep(c, s);
    case CtxBack(ts) => CtxBackStep(c, s, ts);
    case Bridge => BridgePlaces(c, s);
    case DecStep => DecStepStep(c, s);
    case DecBack(ts) => DecBackStep(c, s, ts);
    case MigBegin => MigBeginPlaces(c, s);
    case MigEnd => MigEndPlaces(c, s);
    case _ =>
  }

  /** What an arrival brings with it. */
  function AsksF(): Req -> nat { (r: Req) => 3 * CallsLeft(r) + 8 }

  /** No event but an arrival adds work, and every event that moves somebody takes some off. */
  lemma WorkStep(c: SysConfig, s: Sys, e: Event)
    requires Inv(c, s) && Enabled(c, s, e) && Step(c, s, e).Ok?
    ensures WorkLeft(Step(c, s, e).value) + (if Productive(c, s, e) && !e.Arrive? then 1 else 0)
         <= WorkLeft(s) + NewSum(AsksF(), e)
  {
    CallsLeftStep(c, s, e);
    if !e.Arrive? {
      PlacesStep(c, s, e);
    }
  }

  /** The events of a run that move somebody, arrivals aside. */
  function MovesIn(c: SysConfig, s: Sys, es: seq<Event>): nat
    requires Typed(c, s) && Possible(c, s, es)
    decreases |es|
  {
    if es == [] || Step(c, s, es[0]).Err? then 0
    else (if Productive(c, s, es[0]) && !es[0].Arrive? then 1 else 0) + MovesIn(c, Step(c, s, es[0]).value, es[1..])
  }

  lemma {:induction false} MovesBelowWork(c: SysConfig, s: Sys, es: seq<Event>)
    requires Inv(c, s) && Typed(c, s) && Possible(c, s, es)
    ensures MovesIn(c, s, es) <= WorkLeft(s) + Sum(AsksF(), Arrived(es))
    decreases |es|
  {
    if es != [] {
      FirstEvent(c, s, es);
      if Step(c, s, es[0]).Ok? {
        StepInv(c, s, es[0]);
        WorkStep(c, s, es[0]);
        MovesBelowWork(c, Step(c, s, es[0]).value, es[1..]);
        ArrivedSum(AsksF(), es);
      }
    }
  }

  lemma ArrivedSum(f: Req -> nat, es: seq<Event>)
    requires es != []
    ensures Sum(f, Arrived(es)) == NewSum(f, es[0]) + Sum(f, Arrived(es[1..]))
  {
    assert Arrived(es) == Now(es[0]) + Arrived(es[1..]);
    SumAppend(f, Now(es[0]), Arrived(es[1..]));
    SumNow(f, es[0]);
  }

  lemma SumNow(f: Req -> nat, e: Event)
    ensures Sum(f, Now(e)) == NewSum(f, e)
  {
    if e.Arrive? {
      SumOne(f, e.req);
    }
  }

  // ---------------------------------------------------------------- decoding calls

  /** How many requests the event sends to the decoding workers. */
  function Launches(c: SysConfig, s: Sys, e: Event): nat
    requires Typed(c, s) && Enabled(c, s, e)
  {
    if e.DecStep? && Submit(c.dec, s.dec).Ok? then
      var call := Submit(c.dec, s.dec).value.futures[|s.dec.futures|];
      if call.Some? then |call.value.ids| else 0
    else 0
  }

  /** Calls left to everybody, less those under way. */
  function CallsAhead(s: Sys): int { Sum(CallsLeftF(), Everyone(s)) - Headcount(s.dec.sched.batches, true) }

  lemma SubmitLaunches(c: Config, d: Dec)
    requires IndicesOk(c, d) && Submit(c, d).Ok?
    ensures GetNextBatch(c, d.sched).Ok?
    ensures var call := Submit(c, d).value.futures[|d.futures|];
            (if call.Some? then |call.value.ids| else 0) == |Current(c, GetNextBatch(c, d.sched).value)|
  {
  }

  lemma AheadStep(c: SysConfig, s: Sys, e: Event)
    requires Inv(c, s) && Enabled(c, s, e) && Step(c, s, e).Ok?
    ensures CallsAhead(Step(c, s, e).value) + Launches(c, s, e) <= CallsAhead(s) + NewSum(CallsLeftF(), e)
  {
    CallsLeftStep(c, s, e);
    if e.DecStep? {
      DecStepComputes(c, s);
      DecStepPlaces(c.dec, s.dec);
      SubmitLaunches(c.dec, s.dec);
    } else if e.DecBack? {
      DecBackStep(c, s, e.tokens);
    } else {
      BatchesUntouched(c, s, e);
    }
  }

  /** Everybody in flight has a call left. */
  lemma AheadIsNat(c: SysConfig, s: Sys)
    requires Inv(c, s)
    ensures CallsAhead(s) >= 0
  {
    var bs := s.dec.sched.batches;
    forall j, r | 0 <= j < |bs| && r in bs[j].requests ensures CountF()(r) <= CallsLeftF()(r) {
      assert BatchPlaced(c.dec, s.dec.sched.bm, bs[j].requests, j != OpenIndex(c.dec, s.dec));
    }
    SumBatchesBelow(CountF(), CallsLeftF(), bs);
    HeadcountAll(bs);
    SystemParts(CallsLeftF(), s);
    DecodingParts(CallsLeftF(), s.dec.sched);
  }

  /** The requests of all decoding calls of a run together. */
  function CallSlots(c: SysConfig, s: Sys, es: seq<Event>): nat
    requires Typed(c, s) && Possible(c, s, es)
    decreases |es|
  {
    if es == [] then 0
    else if Step(c, s, es[0]).Err? then 0
    else Launches(c, s, es[0]) + CallSlots(c, Step(c, s, es[0]).value, es[1..])
  }

  lemma {:induction false} SlotsBelowAhead(c: SysConfig, s: Sys, es: seq<Event>)
    requires Inv(c, s) && Typed(c, s) && Possible(c, s, es)
    ensures CallSlots(c, s, es) <= CallsAhead(s) + Sum(CallsLeftF(), Arrived(es))
    decreases |es|
  {
    if es == [] || Step(c, s, es[0]).Err? {
      AheadIsNat(c, s);
    } else {
      StepInv(c, s, es[0]);
      AheadStep(c, s, es[0]);
      SlotsBelowAhead(c, Step(c, s, es[0]).value, es[1..]);
      ArrivedSum(CallsLeftF(), es);
    }
  }

  lemma NothingAtFirst(c: SysConfig)
    requires c.Valid()
    ensures WorkLeft(Init(c)) == 0 && CallsAhead(Init(c)) == 0
  {
    EmptyFlatten(InitBatches(c.dec.pp));
    assert Everyone(Init(c)) == [];
    EmptyBatchesSum(CountF(), c.dec.pp);
    HeadcountAll(InitBatches(c.dec.pp));
  }

  /** In every run, however it is interleaved and even if it ends in an exception: the decoding
      calls hold together at most one request less than the tokens asked for, per arrival, and all
      but a number of events fixed by the arrivals leave everybody where they are. */
  lemma CallsAreBounded(c: SysConfig, es: seq<Event>)
    requires c.Valid() && Typed(c, Init(c)) && Possible(c, Init(c), es)
    ensures CallSlots(c, Init(c), es) <= Sum(CallsLeftF(), Arrived(es))
    ensures MovesIn(c, Init(c), es) <= Sum(AsksF(), Arrived(es))
  {
    InitInv(c);
    NothingAtFirst(c);
    SlotsBelowAhead(c, Init(c), es);
    MovesBelowWork(c, Init(c), es);
  }
}
