/** No event loses, doubles or invents a request: everyone in the two engines is accounted for,
    event by event. */
module Conservation {
  import opened Common
  import opened Sums
  import opened Requests
  import opened DecodeScheduler
  import opened DecodeEngine
  import opened ContextEngine
  import opened Disaggregated

  function Flatten(bs: seq<Batch>): seq<Req> {
    if bs == [] then [] else bs[0].requests + Flatten(bs[1..])
  }

  /** Everyone in the context engine. A request on the bridge, accepted from it or being migrated
      is still in the context scheduler's unaccepted queue. */
  function InContext(x: Ctx): seq<Req> {
    x.sched.waiting + Flatten(x.pipeline) + x.sched.unaccepted
  }

  function InDecoding(s: Sched): seq<Req> { Flatten(s.batches) + s.waiting + s.swapped }

  function Everyone(s: Sys): seq<Req> { InContext(s.ctx) + InDecoding(s.dec.sched) }

  lemma {:induction false} FlattenSum(f: Req -> nat, bs: seq<Batch>)
    ensures Sum(f, Flatten(bs)) == SumBatches(f, bs)
  {
    if bs != [] {
      FlattenSum(f, bs[1..]);
      SumAppend(f, bs[0].requests, Flatten(bs[1..]));
    }
  }

  lemma {:induction false} InFlatten(bs: seq<Batch>, j: nat, r: Req)
    requires j < |bs| && r in bs[j].requests
    ensures r in Flatten(bs)
  {
    if j > 0 {
      assert bs[1..][j - 1] == bs[j];
      InFlatten(bs[1..], j - 1, r);
    }
  }

  lemma InBatch(s: Sched, j: nat, r: Req)
    requires j < |s.batches| && r in s.batches[j].requests
    ensures r in InDecoding(s)
  {
    InFlatten(s.batches, j, r);
  }

  lemma ContextParts(f: Req -> nat, x: Ctx)
    ensures Sum(f, InContext(x)) == Sum(f, x.sched.waiting) + SumBatches(f, x.pipeline) + Sum(f, x.sched.unaccepted)
  {
    FlattenSum(f, x.pipeline);
    SumAppend(f, x.sched.waiting + Flatten(x.pipeline), x.sched.unaccepted);
    SumAppend(f, x.sched.waiting, Flatten(x.pipeline));
  }

  lemma DecodingParts(f: Req -> nat, s: Sched)
    ensures Sum(f, InDecoding(s)) == AllSum(f, s, [])
  {
    FlattenSum(f, s.batches);
    SumAppend(f, Flatten(s.batches) + s.waiting, s.swapped);
    SumAppend(f, Flatten(s.batches), s.waiting);
  }

  /** Going from `a` to `b` means that `gone` leave, `come` arrive, and the rest stay: every sum
      over the requests says so. */
  ghost predicate Exchange(a: seq<Req>, b: seq<Req>, gone: seq<Req>, come: seq<Req>, rest: seq<Req>) {
    && (forall f: Req -> nat {:trigger Sum(f, a)} :: Sum(f, a) == Sum(f, gone) + Sum(f, rest))
    && (forall f: Req -> nat {:trigger Sum(f, b)} :: Sum(f, b) == Sum(f, come) + Sum(f, rest))
  }

  // ---------------------------------------------------------------- the batch that returns

  /** The requests of the batch an event brings back from the workers, before their tokens. */
  function Batch0(c: SysConfig, s: Sys, e: Event): seq<Req>
    requires Typed(c, s) && Enabled(c, s, e)
  {
    if e.CtxBack? && CtxFull(c.ctx, s.ctx) && s.ctx.futures[0].Some? then s.ctx.pipeline[0].requests
    else if e.DecBack? && Full(c.dec, s.dec) && s.dec.futures[0].Some? then
      s.dec.sched.batches[s.dec.pipeline[0]].requests
    else []
  }

  function TokensOfEvent(e: Event): seq<Token> {
    if e.CtxBack? || e.DecBack? then e.tokens else []
  }

  /** The same requests with their tokens. */
  function Batch1(c: SysConfig, s: Sys, e: Event): seq<Req>
    requires Typed(c, s) && Enabled(c, s, e)
  {
    var r := AddTokens(Batch0(c, s, e), TokensOfEvent(e));
    if r.Ok? then r.value else []
  }

  /** The ids of the call those workers were given. */
  function ReturnedIds(c: SysConfig, s: Sys, e: Event): seq<int>
    requires Typed(c, s) && Enabled(c, s, e)
  {
    if e.CtxBack? && CtxFull(c.ctx, s.ctx) && s.ctx.futures[0].Some? then s.ctx.futures[0].value.ids
    else if e.DecBack? && Full(c.dec, s.dec) && s.dec.futures[0].Some? then s.dec.futures[0].value.ids
    else []
  }

  /** The tokens that return are appended, each to the request the call was made for. */
  lemma TokensPairWithCall(c: SysConfig, s: Sys, e: Event)
    requires Inv(c, s) && Enabled(c, s, e)
    ensures Ids(Batch0(c, s, e)) == ReturnedIds(c, s, e)
    ensures var (b, a, ts) := (Batch0(c, s, e), Batch1(c, s, e), TokensOfEvent(e));
            |a| == |b| && (b != [] ==> |ts| == |b|)
            && forall i :: 0 <= i < |b| ==> Extended(b[i], a[i], ts[i])
  {
    if Batch0(c, s, e) == [] {
      assert AddTokens([], TokensOfEvent(e)) == Ok([]);
    }
    if e.CtxBack? && CtxFull(c.ctx, s.ctx) && s.ctx.futures[0].Some? {
      assert CtxFlight(s.ctx, 0) && AllFresh(s.ctx.pipeline[0].requests);
      AddTokensSpec(Batch0(c, s, e), e.tokens);
    } else if e.DecBack? && Full(c.dec, s.dec) && s.dec.futures[0].Some? {
      assert InFlight(s.dec, 0);
      var j := s.dec.pipeline[0];
      assert BatchPlaced(c.dec, s.dec.sched.bm, s.dec.sched.batches[j].requests, j != OpenIndex(c.dec, s.dec));
      AddTokensSpec(Batch0(c, s, e), e.tokens);
    }
  }

  // ---------------------------------------------------------------- the context engine

  lemma CtxSubmitShape(c: Config, x: Ctx, s1: CtxSched, picked: seq<Req>)
    requires c.Valid() && CtxSubmit(c, x).Ok? && PickLoop(c, x.sched, []) == Ok((s1, picked))
    ensures var x1 := CtxSubmit(c, x).value;
            && x1.pipeline == x.pipeline + [Batch(picked, picked != [])]
            && x1.sched.waiting == s1.waiting && x1.sched.unaccepted == s1.unaccepted
  {
  }

  /** A context step moves a prefix of the waiting queue into a new batch. */
  lemma CtxStepMoves(c: Config, x: Ctx) returns (b: Batch)
    requires CtxInv(c, x) && !x.submitted
    ensures CtxSubmit(c, x).Ok?
    ensures var x1 := CtxSubmit(c, x).value;
            && x1.pipeline == x.pipeline + [b]
            && b.requests + x1.sched.waiting == x.sched.waiting
            && x1.sched.unaccepted == x.sched.unaccepted
  {
    CtxSubmitSafe(c, x);
    var s1, picked := PickFromStart(c, x);
    CtxSubmitShape(c, x, s1, picked);
    b := Batch(picked, picked != []);
  }

  lemma CtxStepKeeps(f: Req -> nat, c: Config, x: Ctx)
    requires CtxInv(c, x) && !x.submitted
    ensures CtxSubmit(c, x).Ok?
    ensures Sum(f, InContext(CtxSubmit(c, x).value)) == Sum(f, InContext(x))
  {
    var b := CtxStepMoves(c, x);
    var x1 := CtxSubmit(c, x).value;
    SumsAfterPick(f, x, x1, b);
  }

  lemma SumsAfterPick(f: Req -> nat, x: Ctx, x1: Ctx, b: Batch)
    requires x1.pipeline == x.pipeline + [b] && b.requests + x1.sched.waiting == x.sched.waiting
    requires x1.sched.unaccepted == x.sched.unaccepted
    ensures Sum(f, InContext(x1)) == Sum(f, InContext(x))
  {
    SumBatchesSnoc(f, x.pipeline, b);
    SumAppend(f, b.requests, x1.sched.waiting);
    ContextParts(f, x);
    ContextParts(f, x1);
  }

  lemma CtxBackExchange(f: Req -> nat, c: Config, x: Ctx, tokens: seq<Token>, after: seq<Req>)
    requires CtxInv(c, x) && x.submitted && CtxTokensFor(c, x, tokens)
    requires CtxFull(c, x) && x.futures[0].Some? && AddTokens(x.pipeline[0].requests, tokens) == Ok(after)
    ensures CtxReturn(c, x, tokens).Ok?
    ensures var y := CtxReturn(c, x, tokens).value.0;
            var x0 := x.(pipeline := x.pipeline[1..]);
            && Sum(f, InContext(x)) == Sum(f, x.pipeline[0].requests) + Sum(f, InContext(x0))
            && Sum(f, InContext(y)) == Sum(f, Unfinished(after)) + Sum(f, InContext(x0))
  {
    CtxReturnSafe(c, x, tokens);
    assert CtxFlight(x, 0);
    var y := CtxReturn(c, x, tokens).value.0;
    ContextParts(f, x);
    ContextParts(f, y);
    ContextParts(f, x.(pipeline := x.pipeline[1..]));
    SumAppend(f, x.sched.unaccepted, Unfinished(after));
  }

  lemma CtxBackIdle(f: Req -> nat, c: Config, x: Ctx, tokens: seq<Token>)
    requires CtxInv(c, x) && x.submitted && CtxTokensFor(c, x, tokens)
    requires !(CtxFull(c, x) && x.futures[0].Some?)
    ensures CtxReturn(c, x, tokens).Ok?
    ensures Sum(f, InContext(CtxReturn(c, x, tokens).value.0)) == Sum(f, InContext(x))
  {
    ContextParts(f, x);
    ContextParts(f, CtxReturn(c, x, tokens).value.0);
    if CtxFull(c, x) {
      assert CtxFlight(x, 0);
    }
  }

  // ---------------------------------------------------------------- the decoding engine

  lemma {:induction false} SwapOutKeeps(f: Req -> nat, c: Config, s: Sched)
    requires Running(c, s) && SwapOutLoop(c, s).Ok?
    ensures AllSum(f, SwapOutLoop(c, s).value, []) == AllSum(f, s, [])
    decreases |Current(c, s)|
  {
    if Overflow(c, s) {
      var s1 := SwapOutLast(c, s).value;
      PoppedSums(c, s, f, []);
      SumSnoc(f, s.swapped, Current(c, s)[|Current(c, s)| - 1]);
      SwapOutKeeps(f, c, s1);
    }
  }

  lemma {:induction false} AdmitKeeps(f: Req -> nat, c: Config, s: Sched)
    requires Running(c, s) && AdmitLoop(c, s).Ok?
    ensures AllSum(f, AdmitLoop(c, s).value, []) == AllSum(f, s, [])
    decreases |s.swapped| + |s.waiting|
  {
    if s.swapped != [] {
      if CheckAdd(c, s, s.swapped[0]) {
        PushedSums(c, s, s.swapped[0], f, []);
        AdmitKeeps(f, c, SwapInHead(c, s).value);
      }
    } else if s.waiting != [] {
      if CheckAdd(c, s, s.waiting[0]) {
        PushedSums(c, s, s.waiting[0], f, []);
        AdmitKeeps(f, c, AdmitHead(c, s).value);
      }
    }
  }

  lemma NextBatchKeeps(f: Req -> nat, c: Config, s: Sched)
    requires Shape(c, s) && GetNextBatch(c, s).Ok?
    ensures AllSum(f, GetNextBatch(c, s).value, []) == AllSum(f, s, [])
  {
    SwapOutKeeps(f, c, Rotate(c, s));
    AdmitKeeps(f, c, SwapOutLoop(c, Rotate(c, s)).value);
  }

  lemma SubmitShape(c: Config, d: Dec)
    requires IndicesOk(c, d) && Submit(c, d).Ok?
    ensures GetNextBatch(c, d.sched).Ok?
    ensures var s, t := GetNextBatch(c, d.sched).value, Submit(c, d).value.sched;
            && t.waiting == s.waiting && t.swapped == s.swapped
            && (t.batches == s.batches
                || t.batches == s.batches[s.cur := s.batches[s.cur].(started := true)])
  {
  }

  lemma SubmitPipeline(c: Config, d: Dec)
    requires IndicesOk(c, d) && Submit(c, d).Ok?
    ensures GetNextBatch(c, d.sched).Ok?
    ensures var s, d1 := GetNextBatch(c, d.sched).value, Submit(c, d).value;
            d1.pipeline == d.pipeline + [s.cur] && d1.sched.cur == s.cur && d1.phase.Submitted?
  {
  }

  /** A submit changes no batch but the one whose turn it is. */
  lemma SubmitOthers(c: Config, d: Dec)
    requires DecInv(c, d) && d.phase.Idle? && Submit(c, d).Ok?
    ensures var t := Submit(c, d).value.sched;
            && t.cur == Next(d.sched.cur, c.pp) && |t.batches| == |d.sched.batches|
            && forall j :: 0 <= j < |t.batches| && j != t.cur ==> t.batches[j] == d.sched.batches[j]
  {
    GetNextBatchSafe(c, d.sched);
    SubmitShape(c, d);
    SubmitPipeline(c, d);
  }

  lemma DecStepKeeps(f: Req -> nat, c: Config, d: Dec)
    requires IndicesOk(c, d) && Submit(c, d).Ok?
    ensures Sum(f, InDecoding(Submit(c, d).value.sched)) == Sum(f, InDecoding(d.sched))
  {
    SubmitShape(c, d);
    NextBatchKeeps(f, c, d.sched);
    var s := GetNextBatch(c, d.sched).value;
    SumBatchesUpdate(f, s.batches, s.cur, s.batches[s.cur].(started := true));
    DecodingParts(f, d.sched);
    DecodingParts(f, Submit(c, d).value.sched);
  }

  lemma DecReturnShape(c: Config, d: Dec, ts: seq<Token>, rs: seq<Req>)
    requires DecInv(c, d) && Full(c, d) && d.futures[0].Some? && d.sched.batches[d.pipeline[0]].started
    requires AddTokens(d.sched.batches[d.pipeline[0]].requests, ts) == Ok(rs) && Return(c, d, ts).Ok?
    ensures var s, t := d.sched, Return(c, d, ts).value.sched;
            && t.batches == s.batches[d.pipeline[0] := Batch(Unfinished(rs), false)]
            && t.waiting == s.waiting && t.swapped == s.swapped && t.unaccepted == s.unaccepted
  {
    HeadIsLastStage(c, d);
  }

  lemma BatchExchange(f: Req -> nat, s: Sched, t: Sched, j: nat, after: seq<Req>)
    requires j < |s.batches| && t.batches == s.batches[j := Batch(Unfinished(after), false)]
    requires t.waiting == s.waiting && t.swapped == s.swapped
    ensures var s0 := WithBatch(s, j, []);
            && Sum(f, InDecoding(s)) == Sum(f, s.batches[j].requests) + Sum(f, InDecoding(s0))
            && Sum(f, InDecoding(t)) == Sum(f, Unfinished(after)) + Sum(f, InDecoding(s0))
  {
    SumBatchesUpdate(f, s.batches, j, Batch(Unfinished(after), false));
    SumBatchesUpdate(f, s.batches, j, s.batches[j].(requests := []));
    DecodingParts(f, s);
    DecodingParts(f, WithBatch(s, j, []));
    DecodingParts(f, t);
  }

  lemma DecBackExchange(f: Req -> nat, c: Config, d: Dec, tokens: seq<Token>, after: seq<Req>)
    requires DecInv(c, d) && d.phase.Submitted? && TokensFor(c, d, tokens)
    requires Full(c, d) && d.futures[0].Some?
    requires AddTokens(d.sched.batches[d.pipeline[0]].requests, tokens) == Ok(after)
    ensures Return(c, d, tokens).Ok?
    ensures var j := d.pipeline[0];
            var s0 := WithBatch(d.sched, j, []);
            && Sum(f, InDecoding(d.sched)) == Sum(f, d.sched.batches[j].requests) + Sum(f, InDecoding(s0))
            && Sum(f, InDecoding(Return(c, d, tokens).value.sched))
               == Sum(f, Unfinished(after)) + Sum(f, InDecoding(s0))
  {
    ReturnBatchSafe(c, d, tokens);
    assert InFlight(d, 0);
    DecReturnShape(c, d, tokens, after);
    BatchExchange(f, d.sched, Return(c, d, tokens).value.sched, d.pipeline[0], after);
  }

  // ---------------------------------------------------------------- every event

  /** The requests an event leaves alone. */
  function Rest(c: SysConfig, s: Sys, e: Event): seq<Req>
    requires Typed(c, s) && Enabled(c, s, e)
  {
    if Batch0(c, s, e) == [] then Everyone(s)
    else if e.CtxBack? then InContext(s.ctx.(pipeline := s.ctx.pipeline[1..])) + InDecoding(s.dec.sched)
    else InContext(s.ctx) + InDecoding(WithBatch(s.dec.sched, s.dec.pipeline[0], []))
  }

  /** Who is new after an event: an arrival, or the unfinished requests of the batch it returned. */
  function Newcomers(c: SysConfig, s: Sys, e: Event): seq<Req>
    requires Typed(c, s) && Enabled(c, s, e)
  {
    if e.Arrive? then [e.req] else Unfinished(Batch1(c, s, e))
  }

  lemma SystemParts(f: Req -> nat, s: Sys)
    ensures Sum(f, Everyone(s)) == Sum(f, InContext(s.ctx)) + Sum(f, InDecoding(s.dec.sched))
  {
    SumAppend(f, InContext(s.ctx), InDecoding(s.dec.sched));
  }

  lemma ArriveSums(f: Req -> nat, x: Ctx, r: Req)
    ensures Sum(f, InContext(CtxArrive(x, r))) == Sum(f, InContext(x)) + f(r)
  {
    ContextParts(f, x);
    ContextParts(f, CtxArrive(x, r));
    SumSnoc(f, x.sched.waiting, r);
  }

  lemma MigEndSums(f: Req -> nat, c: SysConfig, s: Sys)
    requires Inv(c, s) && s.dec.phase.Migrating? && ClearMigrated(s.ctx, s.dec.phase.mig).Ok?
    ensures Sum(f, InContext(ClearMigrated(s.ctx, s.dec.phase.mig).value)) + f(s.dec.phase.mig.req)
         == Sum(f, InContext(s.ctx))
    ensures Sum(f, InDecoding(MigrateEnd(s.dec).sched)) == Sum(f, InDecoding(s.dec.sched)) + f(s.dec.phase.mig.req)
  {
    var m := s.dec.phase.mig;
    assert Pending(s)[0] == m && Reqs(Pending(s))[0] == m.req;
    assert s.ctx.sched.unaccepted == [m.req] + s.ctx.sched.unaccepted[1..];
    ContextParts(f, s.ctx);
    ContextParts(f, ClearMigrated(s.ctx, m).value);
    DecodingParts(f, s.dec.sched);
    DecodingParts(f, MigrateEnd(s.dec).sched);
    SumSnoc(f, s.dec.sched.waiting, m.req);
  }

  lemma QuietSums(f: Req -> nat, s: Sched, t: Sched)
    requires t.batches == s.batches && t.waiting == s.waiting && t.swapped == s.swapped
    ensures Sum(f, InDecoding(t)) == Sum(f, InDecoding(s))
  {
  }

  lemma DecBackIdle(f: Req -> nat, c: Config, d: Dec, tokens: seq<Token>)
    requires IndicesOk(c, d) && !(Full(c, d) && d.futures[0].Some?)
    ensures Return(c, d, tokens).Ok?
    ensures Sum(f, InDecoding(Return(c, d, tokens).value.sched)) == Sum(f, InDecoding(d.sched))
  {
  }

  lemma CtxBackSums(f: Req -> nat, c: SysConfig, s: Sys, ts: seq<Token>, after: seq<Req>)
    requires Inv(c, s) && Enabled(c, s, CtxBack(ts)) && Step(c, s, CtxBack(ts)).Ok?
    requires CtxFull(c.ctx, s.ctx) && s.ctx.futures[0].Some? && AddTokens(s.ctx.pipeline[0].requests, ts) == Ok(after)
    ensures var rest := InContext(s.ctx.(pipeline := s.ctx.pipeline[1..])) + InDecoding(s.dec.sched);
            && Sum(f, Everyone(s)) == Sum(f, s.ctx.pipeline[0].requests) + Sum(f, rest)
            && Sum(f, Everyone(Step(c, s, CtxBack(ts)).value)) == Sum(f, Unfinished(after)) + Sum(f, rest)
  {
    CtxBackComputes(c, s, ts);
    CtxBackExchange(f, c.ctx, s.ctx, ts, after);
    ContextSwaps(f, s, Step(c, s, CtxBack(ts)).value, s.ctx.(pipeline := s.ctx.pipeline[1..]),
                 s.ctx.pipeline[0].requests, Unfinished(after));
  }

  /** Sums of the whole system when only the context side exchanges requests. */
  lemma ContextSwaps(f: Req -> nat, s: Sys, t: Sys, x0: Ctx, gone: seq<Req>, come: seq<Req>)
    requires t.dec == s.dec
    requires Sum(f, InContext(s.ctx)) == Sum(f, gone) + Sum(f, InContext(x0))
    requires Sum(f, InContext(t.ctx)) == Sum(f, come) + Sum(f, InContext(x0))
    ensures Sum(f, Everyone(s)) == Sum(f, gone) + Sum(f, InContext(x0) + InDecoding(s.dec.sched))
    ensures Sum(f, Everyone(t)) == Sum(f, come) + Sum(f, InContext(x0) + InDecoding(s.dec.sched))
  {
    SystemParts(f, s);
    SystemParts(f, t);
    SumAppend(f, InContext(x0), InDecoding(s.dec.sched));
  }

  /** And when only the decoding side does. */
  lemma DecodingSwaps(f: Req -> nat, s: Sys, t: Sys, s0: Sched, gone: seq<Req>, come: seq<Req>)
    requires t.ctx == s.ctx
    requires Sum(f, InDecoding(s.dec.sched)) == Sum(f, gone) + Sum(f, InDecoding(s0))
    requires Sum(f, InDecoding(t.dec.sched)) == Sum(f, come) + Sum(f, InDecoding(s0))
    ensures Sum(f, Everyone(s)) == Sum(f, gone) + Sum(f, InContext(s.ctx) + InDecoding(s0))
    ensures Sum(f, Everyone(t)) == Sum(f, come) + Sum(f, InContext(s.ctx) + InDecoding(s0))
  {
    SystemParts(f, s);
    SystemParts(f, t);
    SumAppend(f, InContext(s.ctx), InDecoding(s0));
  }

  /** The sums after a decoding batch returned. */
  lemma DecBackSums(f: Req -> nat, c: SysConfig, s: Sys, ts: seq<Token>, after: seq<Req>)
    requires Inv(c, s) && Enabled(c, s, DecBack(ts)) && Step(c, s, DecBack(ts)).Ok?
    requires Full(c.dec, s.dec) && s.dec.futures[0].Some?
    requires AddTokens(s.dec.sched.batches[s.dec.pipeline[0]].requests, ts) == Ok(after)
    ensures var rest := InContext(s.ctx) + InDecoding(WithBatch(s.dec.sched, s.dec.pipeline[0], []));
            && Sum(f, Everyone(s)) == Sum(f, s.dec.sched.batches[s.dec.pipeline[0]].requests) + Sum(f, rest)
            && Sum(f, Everyone(Step(c, s, DecBack(ts)).value)) == Sum(f, Unfinished(after)) + Sum(f, rest)
  {
    DecBackComputes(c, s, ts);
    DecBackExchange(f, c.dec, s.dec, ts, after);
    DecodingSwaps(f, s, Step(c, s, DecBack(ts)).value, WithBatch(s.dec.sched, s.dec.pipeline[0], []),
                  s.dec.sched.batches[s.dec.pipeline[0]].requests, Unfinished(after));
  }

  lemma BackSums(f: Req -> nat, c: SysConfig, s: Sys, e: Event)
    requires Inv(c, s) && Enabled(c, s, e) && Step(c, s, e).Ok? && Batch0(c, s, e) != []
    requires AddTokens(Batch0(c, s, e), TokensOfEvent(e)).Ok?
    ensures Sum(f, Everyone(s)) == Sum(f, Batch0(c, s, e)) + Sum(f, Rest(c, s, e))
    ensures Sum(f, Everyone(Step(c, s, e).value)) == Sum(f, Newcomers(c, s, e)) + Sum(f, Rest(c, s, e))
  {
    if e.CtxBack? {
      CtxBackSums(f, c, s, e.tokens, Batch1(c, s, e));
    } else {
      DecBackSums(f, c, s, e.tokens, Batch1(c, s, e));
    }
  }

  lemma TokensAccepted(c: SysConfig, s: Sys, e: Event)
    requires Inv(c, s) && Enabled(c, s, e)
    ensures AddTokens(Batch0(c, s, e), TokensOfEvent(e)).Ok?
  {
    TokensPairWithCall(c, s, e);
    if Batch0(c, s, e) != [] {
      NonEmptyAccepted(Batch0(c, s, e), TokensOfEvent(e), Batch1(c, s, e));
    }
  }

  lemma NonEmptyAccepted(b: seq<Req>, ts: seq<Token>, a: seq<Req>)
    requires b != [] && |a| == |b|
    requires a == if AddTokens(b, ts).Ok? then AddTokens(b, ts).value else []
    ensures AddTokens(b, ts).Ok?
  {
  }

  /** The sums after an event of the context engine or of the bridge that returns no batch. */
  lemma ContextSums(f: Req -> nat, c: SysConfig, s: Sys, e: Event)
    requires Inv(c, s) && Enabled(c, s, e) && Step(c, s, e).Ok? && Batch0(c, s, e) == []
    requires e.Arrive? || e.CtxStep? || e.CtxBack? || e.Bridge?
    ensures var t := Step(c, s, e).value;
            && Sum(f, InContext(t.ctx)) == (if e.Arrive? then f(e.req) else 0) + Sum(f, InContext(s.ctx))
            && Sum(f, InDecoding(t.dec.sched)) == Sum(f, InDecoding(s.dec.sched))
  {
    match e
    case Arrive(r) => ArriveSums(f, s.ctx, r);
    case CtxStep => CtxStepKeeps(f, c.ctx, s.ctx);
    case CtxBack(ts) => CtxBackEmpty(f, c, s, ts);
    case Bridge => QuietSums(f, s.dec.sched, Step(c, s, e).value.dec.sched);
    case _ =>
  }

  lemma MigBeginSums(f: Req -> nat, c: SysConfig, s: Sys)
    requires Typed(c, s) && Enabled(c, s, MigBegin) && Step(c, s, MigBegin).Ok?
    ensures Step(c, s, MigBegin).value.ctx == s.ctx
    ensures Sum(f, InDecoding(Step(c, s, MigBegin).value.dec.sched)) == Sum(f, InDecoding(s.dec.sched))
  {
    QuietSums(f, s.dec.sched, Step(c, s, MigBegin).value.dec.sched);
  }

  lemma MigrationSums(f: Req -> nat, c: SysConfig, s: Sys, e: Event)
    requires Inv(c, s) && Enabled(c, s, e) && Step(c, s, e).Ok? && (e.MigBegin? || e.MigEnd?)
    ensures var t := Step(c, s, e).value;
            Sum(f, InContext(t.ctx)) + Sum(f, InDecoding(t.dec.sched))
            == Sum(f, InContext(s.ctx)) + Sum(f, InDecoding(s.dec.sched))
  {
    if e.MigBegin? {
      MigBeginSums(f, c, s);
    } else {
      MigEndSums(f, c, s);
    }
  }

  /** The sums after an event of the decoding engine that returns no batch. */
  lemma DecodingSums(f: Req -> nat, c: SysConfig, s: Sys, e: Event)
    requires Inv(c, s) && Enabled(c, s, e) && Step(c, s, e).Ok? && Batch0(c, s, e) == []
    requires e.DecStep? || e.DecBack? || e.MigBegin? || e.MigEnd? || e.DecDone?
    ensures var t := Step(c, s, e).value;
            Sum(f, InContext(t.ctx)) + Sum(f, InDecoding(t.dec.sched))
            == Sum(f, InContext(s.ctx)) + Sum(f, InDecoding(s.dec.sched))
  {
    match e
    case DecStep => DecStepKeeps(f, c.dec, s.dec);
    case DecBack(ts) =>
      DecBackComputes(c, s, ts);
      DecBackEmpty(f, c, s, ts);
    case DecDone =>
    case _ => MigrationSums(f, c, s, e);
  }

  /** The sums after an event that returns no batch. */
  lemma OtherSums(f: Req -> nat, c: SysConfig, s: Sys, e: Event)
    requires Inv(c, s) && Enabled(c, s, e) && Step(c, s, e).Ok? && Batch0(c, s, e) == []
    ensures Sum(f, Everyone(Step(c, s, e).value)) == (if e.Arrive? then f(e.req) else 0) + Sum(f, Everyone(s))
  {
    SystemParts(f, s);
    SystemParts(f, Step(c, s, e).value);
    if e.Arrive? || e.CtxStep? || e.CtxBack? || e.Bridge? {
      ContextSums(f, c, s, e);
    } else {
      DecodingSums(f, c, s, e);
    }
  }

  lemma CtxBackEmpty(f: Req -> nat, c: SysConfig, s: Sys, ts: seq<Token>)
    requires Inv(c, s) && Enabled(c, s, CtxBack(ts)) && Batch0(c, s, CtxBack(ts)) == []
    ensures CtxReturn(c.ctx, s.ctx, ts).Ok?
    ensures Sum(f, InContext(CtxReturn(c.ctx, s.ctx, ts).value.0)) == Sum(f, InContext(s.ctx))
  {
    CtxBackIdle(f, c.ctx, s.ctx, ts);
  }

  lemma CallHasRequests(d: Dec)
    requires |d.pipeline| == |d.futures| > 0 && 0 <= d.pipeline[0] < |d.sched.batches|
    requires InFlight(d, 0) && d.futures[0].Some?
    ensures d.sched.batches[d.pipeline[0]].requests != []
  {
  }

  lemma DecBackEmpty(f: Req -> nat, c: SysConfig, s: Sys, ts: seq<Token>)
    requires Inv(c, s) && Enabled(c, s, DecBack(ts)) && Batch0(c, s, DecBack(ts)) == []
    ensures Return(c.dec, s.dec, ts).Ok?
    ensures Sum(f, InDecoding(Return(c.dec, s.dec, ts).value.sched)) == Sum(f, InDecoding(s.dec.sched))
  {
    if Full(c.dec, s.dec) && s.dec.futures[0].Some? {
      CallHasRequests(s.dec);
    }
    DecBackIdle(f, c.dec, s.dec, ts);
  }

  /** Every event that succeeds exchanges the batch it returned for its unfinished requests with
      their new tokens, adds an arrival if it is one, and keeps everyone else as they were. */
  lemma StepExchanges(c: SysConfig, s: Sys, e: Event)
    requires Inv(c, s) && Enabled(c, s, e) && Step(c, s, e).Ok?
    ensures Exchange(Everyone(s), Everyone(Step(c, s, e).value), Batch0(c, s, e), Newcomers(c, s, e), Rest(c, s, e))
  {
    var t := Step(c, s, e).value;
    TokensAccepted(c, s, e);
    forall f: Req -> nat
      ensures Sum(f, Everyone(s)) == Sum(f, Batch0(c, s, e)) + Sum(f, Rest(c, s, e))
      ensures Sum(f, Everyone(t)) == Sum(f, Newcomers(c, s, e)) + Sum(f, Rest(c, s, e))
    {
      if Batch0(c, s, e) != [] {
        BackSums(f, c, s, e);
      } else {
        OtherSums(f, c, s, e);
        NobodyReturned(f, c, s, e);
      }
    }
  }

  lemma NobodyReturned(f: Req -> nat, c: SysConfig, s: Sys, e: Event)
    requires Typed(c, s) && Enabled(c, s, e) && Batch0(c, s, e) == []
    ensures Sum(f, Newcomers(c, s, e)) == if e.Arrive? then f(e.req) else 0
  {
    assert AddTokens([], TokensOfEvent(e)) == Ok([]);
    if e.Arrive? {
      assert [e.req][1..] == [];
    }
  }
}
