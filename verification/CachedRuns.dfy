/** What the cache is for, over whole runs of the two engines: whenever a call runs, every position
    it attends to, its own new ones included, reads back through the call's block tables as the
    keys and values of the request's own token prefix. */
module CachedRuns {
  import opened Common
  import opened Sums
  import opened Requests
  import opened Blocks
  import opened DecodeScheduler
  import opened DecodeEngine
  import opened ContextEngine
  import opened Disaggregated
  import opened Conservation
  import opened CachedPrefix
  import Delivery

  // ---------------------------------------------------------------- the caches along a run

  function Picked(c: Config, x: Ctx): seq<Req>
    requires c.Valid()
  {
    var r := PickLoop(c, x.sched, []);
    if r.Ok? then r.value.1 else []
  }

  function CtxStepOps<V>(key: Model<V>, c: Config, x: Ctx): seq<K.Op<V>>
    requires c.Valid()
  {
    AllocOps(Picked(c, x)) + BatchWrites(key, Picked(c, x))
  }

  function DecStepOps<V>(key: Model<V>, c: Config, d: Dec): seq<K.Op<V>>
    requires Shape(c, d.sched) && GetNextBatch(c, d.sched).Ok?
  {
    var s0 := Rotate(c, d.sched);
    var s1 := SwapOutLoop(c, s0).value;
    var batch := Current(c, GetNextBatch(c, d.sched).value);
    SwapOutOps(c, s0) + AdmitOps(c, s1) + AllocOps(batch) + BatchWrites(key, batch)
  }

  function OnCtx<V>(bs: nat, p: K.Pair<V>, ops: seq<K.Op<V>>): Result<K.Pair<V>>
    requires bs >= 1
  {
    var kv :- ApplyOps(bs, p.ctx, ops);
    Ok(p.(ctx := kv))
  }

  function OnDec<V>(bs: nat, p: K.Pair<V>, ops: seq<K.Op<V>>): Result<K.Pair<V>>
    requires bs >= 1
  {
    var kv :- ApplyOps(bs, p.dec, ops);
    Ok(p.(dec := kv))
  }

  /** What an event does to the two caches, as the managers and the forward passes do it. */
  function KvStep<V>(key: Model<V>, c: SysConfig, s: Sys, e: Event, p: K.Pair<V>): Result<K.Pair<V>>
    requires Typed(c, s) && Enabled(c, s, e) && Step(c, s, e).Ok?
  {
    var bs := c.ctx.blockSize;
    match e
    case CtxStep => OnCtx(bs, p, CtxStepOps(key, c.ctx, s.ctx))
    case CtxBack(_) => OnCtx(bs, p, FreeOps(Finished(Batch1(c, s, e))))
    case DecStep => OnDec(bs, p, DecStepOps(key, c.dec, s.dec))
    case DecBack(_) => OnDec(bs, p, FreeOps(Finished(Batch1(c, s, e))))
    case MigBegin =>
      var r := s.dec.sched.unaccepted[0].req;
      var p1 :- OnDec(bs, p, [K.Manage(Alloc(r.(output := [])))]);
      K.MigrateKv(p1, r.id)
    case MigEnd => OnCtx(bs, p, [K.Manage(Free(s.dec.phase.mig.req.id))])
    case _ => Ok(p)
  }

  function KvRun<V>(key: Model<V>, c: SysConfig, s: Sys, es: seq<Event>, p: K.Pair<V>): Result<K.Pair<V>>
    requires Typed(c, s) && Possible(c, s, es) && Run(c, s, es).Ok?
    decreases |es|
  {
    if es == [] then Ok(p)
    else
      var p1 :- KvStep(key, c, s, es[0], p);
      KvRun(key, c, Step(c, s, es[0]).value, es[1..], p1)
  }

  // ---------------------------------------------------------------- the invariant

  ghost predicate Synced<V>(s: Sys, p: K.Pair<V>) {
    p.ctx.bm == s.ctx.sched.bm && p.dec.bm == s.dec.sched.bm
  }

  ghost predicate Refined<V>(c: SysConfig, p: K.Pair<V>)
    requires c.Valid()
  {
    && K.KvInv(c.ctx.blockSize, p.ctx, c.ctx.maxGpu, c.ctx.maxCpu)
    && K.KvInv(c.dec.blockSize, p.dec, c.dec.maxGpu, c.dec.maxCpu)
  }

  ghost predicate PrefillsAt(x: Ctx, j: int, r: Req) { 0 <= j < |x.pipeline| && r in x.pipeline[j].requests }

  /** Running prompts are cached whole; a request waiting to be migrated has one token more. */
  ghost predicate CtxFilled<V>(key: Model<V>, x: Ctx, store: Store<V>) {
    && (forall j, r :: PrefillsAt(x, j, r) ==> Full1(key, store, r))
    && (forall r :: r in x.sched.unaccepted ==> |r.output| == 1 && AllButLast(key, store, r))
  }

  /** The request is in the batch at position i of the pipeline. */
  ghost predicate RunsAt(d: Dec, i: int, r: Req) {
    0 <= i < |d.pipeline| && 0 <= d.pipeline[i] < |d.sched.batches| && r in d.sched.batches[d.pipeline[i]].requests
  }

  /** Everybody is cached up to the last token, and a running batch to the end. */
  ghost predicate DecFilled<V>(key: Model<V>, d: Dec, store: Store<V>) {
    && (forall r :: r in InDecoding(d.sched) || r in MigReqs(d) ==> AllButLast(key, store, r))
    && (forall i, r :: RunsAt(d, i, r) ==> Full1(key, store, r))
  }

  ghost predicate KvInvariant<V>(key: Model<V>, c: SysConfig, s: Sys, p: K.Pair<V>)
    requires c.Valid()
  {
    Synced(s, p) && Refined(c, p) && CtxFilled(key, s.ctx, p.ctx.store) && DecFilled(key, s.dec, p.dec.store)
  }

  // ---------------------------------------------------------------- who is where

  /** A request of the decoding engine is known to its manager. */
  lemma DecTabled(c: Config, d: Dec, r: Req)
    requires DecInv(c, d) && (r in InDecoding(d.sched) || r in MigReqs(d))
    ensures r.id in d.sched.bm.table
  {
    DecodingParts(IdF(r.id), d.sched);
    assert AllSum(IdF(r.id), d.sched, MigReqs(d)) == if r.id in d.sched.bm.table then 1 else 0;
    if r in InDecoding(d.sched) {
      PresentId(InDecoding(d.sched), r);
    } else {
      PresentId(MigReqs(d), r);
    }
  }

  lemma DecUnique(c: Config, d: Dec, a: Req, b: Req)
    requires DecInv(c, d) && a in InDecoding(d.sched) && b in InDecoding(d.sched) && a.id == b.id
    ensures a == b
  {
    DecodingParts(IdF(a.id), d.sched);
    assert AllSum(IdF(a.id), d.sched, MigReqs(d)) <= 1;
    Delivery.OneArrival(InDecoding(d.sched), a, b);
  }

  lemma BatchDiffers(c: Config, d: Dec, j: nat)
    requires DecInv(c, d) && j < |d.sched.batches|
    ensures IdsDiffer(d.sched.batches[j].requests)
  {
    var rs := d.sched.batches[j].requests;
    forall k, l | 0 <= k < l < |rs| ensures rs[k].id != rs[l].id {
      assert AllSum(IdF(rs[k].id), d.sched, MigReqs(d)) <= 1;
      PositionsDiffer(d.sched.batches, j, k, j, l);
    }
  }

  /** Requests of two batches have different ids. */
  lemma BatchesDiffer(c: Config, d: Dec, i: nat, j: nat, r: Req)
    requires DecInv(c, d) && i < |d.sched.batches| && j < |d.sched.batches| && i != j
    requires r in d.sched.batches[i].requests
    ensures r.id !in IdsOf(d.sched.batches[j].requests)
  {
    var a, b := d.sched.batches[i].requests, d.sched.batches[j].requests;
    var k :| 0 <= k < |a| && a[k] == r;
    forall q | q in b ensures q.id != r.id {
      var l :| 0 <= l < |b| && b[l] == q;
      assert AllSum(IdF(r.id), d.sched, MigReqs(d)) <= 1;
      PositionsDiffer(d.sched.batches, i, k, j, l);
    }
  }

  lemma SameMember(a: seq<Req>, b: seq<Req>, r: Req)
    requires Sum(Delivery.Is(r), a) == Sum(Delivery.Is(r), b)
    ensures r in a <==> r in b
  {
    Delivery.CountedMember(a, r);
    Delivery.CountedMember(b, r);
  }

  lemma FilledKept<V>(key: Model<V>, a: Store<V>, b: Store<V>, r: Req, n: nat)
    requires r.id in a && r.id in b && b[r.id] == a[r.id] && Filled(key, a, r, n)
    ensures Filled(key, b, r, n)
  {
  }

  // ---------------------------------------------------------------- a decoding step

  /** The caches after the swaps, allocations and writes of a decoding step. */
  lemma SwapsSync<V>(c: Config, d: Dec, kv: K.Kv<V>) returns (kv1: K.Kv<V>)
    requires Shape(c, d.sched) && GetNextBatch(c, d.sched).Ok? && kv.bm == d.sched.bm
    ensures SwapOutLoop(c, Rotate(c, d.sched)).Ok?
    ensures var s0 := Rotate(c, d.sched);
            ApplyOps(c.blockSize, kv, SwapOutOps(c, s0) + AdmitOps(c, SwapOutLoop(c, s0).value)) == Ok(kv1)
    ensures kv1.bm == GetNextBatch(c, d.sched).value.bm && kv1.store == kv.store
  {
    var s0 := Rotate(c, d.sched);
    var s1 := SwapOutLoop(c, s0).value;
    SwapOutSync(c, s0, kv);
    var kv0 := ApplyOps(c.blockSize, kv, SwapOutOps(c, s0)).value;
    AdmitSync(c, s1, kv0);
    ApplyAppend(c.blockSize, kv, SwapOutOps(c, s0), AdmitOps(c, s1));
    kv1 := ApplyOps(c.blockSize, kv0, AdmitOps(c, s1)).value;
  }

  /** Allocating for the batch and running it. */
  lemma RunSync<V>(key: Model<V>, bs: nat, kv: K.Kv<V>, rs: seq<Req>, bm: BlockState) returns (kv2: K.Kv<V>)
    requires bs >= 1 && AllocateBatched(bs, kv.bm, rs) == Ok(bm) && IdsDiffer(rs)
    requires forall r :: r in rs ==>
               RoomFor(bs, bm, r, |Tokens(r)|) && (r.output != [] ==> AllButLast(key, kv.store, r))
    ensures ApplyOps(bs, kv, AllocOps(rs) + BatchWrites(key, rs)) == Ok(kv2)
    ensures kv2.bm == bm && OnlyOf(kv.store, kv2.store, IdsOf(rs))
    ensures forall r :: r in rs ==> Full1(key, kv2.store, r)
  {
    AllocSync(bs, kv, rs);
    var kv1 := ApplyOps(bs, kv, AllocOps(rs)).value;
    forall r | r in rs ensures Ready(key, kv1.store, r) {
      if r.output != [] {
        FilledKept(key, kv.store, kv1.store, r, |Tokens(r)| - 1);
      }
    }
    BatchWritesSync(bs, kv1, key, rs);
    ApplyAppend(bs, kv, AllocOps(rs), BatchWrites(key, rs));
    kv2 := ApplyOps(bs, kv1, BatchWrites(key, rs)).value;
  }

  /** The batch of a submitted step: it holds what it needs, nobody twice, and comes from the queues. */
  lemma SubmittedBatch(c: Config, d: Dec)
    requires DecInv(c, d) && d.phase.Idle? && Submit(c, d).Ok?
    ensures GetNextBatch(c, d.sched).Ok?
    ensures var s, d1 := GetNextBatch(c, d.sched).value, Submit(c, d).value;
            && AllocateBatched(c.blockSize, s.bm, Current(c, s)) == Ok(d1.sched.bm)
            && d1.pipeline == d.pipeline + [s.cur] && d1.sched.cur == s.cur
            && d1.sched.batches[s.cur].requests == Current(c, s)
            && (forall j :: 0 <= j < |d.sched.batches| && j != s.cur ==> d1.sched.batches[j] == d.sched.batches[j])
            && s.cur !in d.pipeline && |d1.sched.batches| == |d.sched.batches|
  {
    SubmitOthers(c, d);
    SubmitPipeline(c, d);
    SubmitAllocates(c, d);
    NextNotInPipeline(c, d);
  }

  lemma SubmitAllocates(c: Config, d: Dec)
    requires IndicesOk(c, d) && Submit(c, d).Ok?
    ensures GetNextBatch(c, d.sched).Ok?
    ensures var s, d1 := GetNextBatch(c, d.sched).value, Submit(c, d).value;
            && AllocateBatched(c.blockSize, s.bm, Current(c, s)) == Ok(d1.sched.bm)
            && |d1.sched.batches| == |s.batches| && d1.sched.batches[s.cur].requests == Current(c, s)
  {
  }

  lemma BatchRoom(c: Config, d1: Dec, r: Req)
    requires DecInv(c, d1) && d1.phase.Submitted? && 0 <= d1.sched.cur && r in d1.sched.batches[d1.sched.cur].requests
    ensures RoomFor(c.blockSize, d1.sched.bm, r, |Tokens(r)|) && r.output != []
  {
    assert BatchPlaced(c, d1.sched.bm, d1.sched.batches[d1.sched.cur].requests, true);
    BlocksForIsCeiling(|r.prompt| + |r.output|, c.blockSize);
  }

  lemma DecStepMember(c: Config, d: Dec, r: Req)
    requires IndicesOk(c, d) && Submit(c, d).Ok?
    ensures r in InDecoding(Submit(c, d).value.sched) <==> r in InDecoding(d.sched)
  {
    DecStepKeeps(Delivery.Is(r), c, d);
    SameMember(InDecoding(Submit(c, d).value.sched), InDecoding(d.sched), r);
  }

  lemma BatchReady<V>(key: Model<V>, c: Config, d: Dec, store: Store<V>, r: Req)
    requires DecInv(c, d) && d.phase.Idle? && Submit(c, d).Ok? && DecFilled(key, d, store)
    requires GetNextBatch(c, d.sched).Ok? && r in Current(c, GetNextBatch(c, d.sched).value)
    ensures RoomFor(c.blockSize, Submit(c, d).value.sched.bm, r, |Tokens(r)|) && AllButLast(key, store, r)
  {
    SubmitSafe(c, d);
    SubmittedBatch(c, d);
    var d1 := Submit(c, d).value;
    BatchRoom(c, d1, r);
    InBatch(d1.sched, d1.sched.cur, r);
    DecStepMember(c, d, r);
  }

  lemma NextBatchDiffers(c: Config, d: Dec)
    requires DecInv(c, d) && d.phase.Idle? && Submit(c, d).Ok?
    ensures GetNextBatch(c, d.sched).Ok? && IdsDiffer(Current(c, GetNextBatch(c, d.sched).value))
  {
    SubmitSafe(c, d);
    SubmittedBatch(c, d);
    BatchDiffers(c, Submit(c, d).value, GetNextBatch(c, d.sched).value.cur);
  }

  lemma StepOpsSplit<V>(key: Model<V>, c: Config, d: Dec)
    requires Shape(c, d.sched) && GetNextBatch(c, d.sched).Ok?
    ensures SwapOutLoop(c, Rotate(c, d.sched)).Ok?
    ensures var s0 := Rotate(c, d.sched);
            var rs := Current(c, GetNextBatch(c, d.sched).value);
            DecStepOps(key, c, d)
            == SwapOutOps<V>(c, s0) + AdmitOps<V>(c, SwapOutLoop(c, s0).value)
               + (AllocOps<V>(rs) + BatchWrites(key, rs))
  {
  }

  lemma DecStepSync<V>(key: Model<V>, c: Config, d: Dec, kv: K.Kv<V>) returns (kv2: K.Kv<V>)
    requires DecInv(c, d) && d.phase.Idle? && Submit(c, d).Ok? && kv.bm == d.sched.bm && DecFilled(key, d, kv.store)
    ensures GetNextBatch(c, d.sched).Ok?
    ensures ApplyOps(c.blockSize, kv, DecStepOps(key, c, d)) == Ok(kv2)
    ensures var rs := Current(c, GetNextBatch(c, d.sched).value);
            && kv2.bm == Submit(c, d).value.sched.bm && OnlyOf(kv.store, kv2.store, IdsOf(rs))
            && forall r :: r in rs ==> Full1(key, kv2.store, r)
  {
    SubmittedBatch(c, d);
    NextBatchDiffers(c, d);
    var rs := Current(c, GetNextBatch(c, d.sched).value);
    var bm := Submit(c, d).value.sched.bm;
    var kv1 := SwapsSync(c, d, kv);
    forall r | r in rs ensures RoomFor(c.blockSize, bm, r, |Tokens(r)|) && AllButLast(key, kv1.store, r) {
      BatchReady(key, c, d, kv.store, r);
    }
    kv2 := RunSync(key, c.blockSize, kv1, rs, bm);
    StepOpsSplit(key, c, d);
    var s0 := Rotate(c, d.sched);
    ApplyAppend(c.blockSize, kv, SwapOutOps<V>(c, s0) + AdmitOps<V>(c, SwapOutLoop(c, s0).value),
                AllocOps(rs) + BatchWrites(key, rs));
  }

  lemma DecStepFilled<V>(key: Model<V>, c: Config, d: Dec, d1: Dec, cur: nat, a: Store<V>, b: Store<V>)
    requires DecInv(c, d) && DecInv(c, d1) && DecFilled(key, d, a)
    requires MigReqs(d1) == [] && (forall r :: r in InDecoding(d1.sched) ==> r in InDecoding(d.sched))
    requires cur < |d1.sched.batches| == |d.sched.batches|
    requires d1.pipeline == d.pipeline + [cur] && cur !in d.pipeline
    requires forall j :: 0 <= j < |d.sched.batches| && j != cur ==> d1.sched.batches[j] == d.sched.batches[j]
    requires OnlyOf(a, b, IdsOf(d1.sched.batches[cur].requests))
    requires forall r :: r in d1.sched.batches[cur].requests ==> Full1(key, b, r)
    ensures DecFilled(key, d1, b)
  {
    var rs := d1.sched.batches[cur].requests;
    forall r | r in InDecoding(d1.sched) ensures AllButLast(key, b, r) {
      if r.id in IdsOf(rs) {
        var q :| q in rs && q.id == r.id;
        InBatch(d1.sched, cur, q);
        DecUnique(c, d1, q, r);
      } else {
        FilledElsewhere(key, a, b, IdsOf(rs), r, |Tokens(r)| - 1);
      }
    }
    forall i, r | RunsAt(d1, i, r) ensures Full1(key, b, r) {
      if i < |d.pipeline| {
        assert d1.pipeline[i] == d.pipeline[i] && d.pipeline[i] in d.pipeline;
        assert RunsAt(d, i, r);
        BatchesDiffer(c, d1, d1.pipeline[i], cur, r);
        FilledElsewhere(key, a, b, IdsOf(rs), r, |Tokens(r)|);
      }
    }
  }

  lemma DecStepKv<V>(key: Model<V>, c: Config, d: Dec, kv: K.Kv<V>) returns (kv2: K.Kv<V>)
    requires DecInv(c, d) && d.phase.Idle? && Submit(c, d).Ok? && kv.bm == d.sched.bm && DecFilled(key, d, kv.store)
    ensures GetNextBatch(c, d.sched).Ok?
    ensures ApplyOps(c.blockSize, kv, DecStepOps(key, c, d)) == Ok(kv2)
    ensures kv2.bm == Submit(c, d).value.sched.bm && DecFilled(key, Submit(c, d).value, kv2.store)
  {
    SubmitSafe(c, d);
    SubmittedBatch(c, d);
    kv2 := DecStepSync(key, c, d, kv);
    var d1 := Submit(c, d).value;
    forall r | r in InDecoding(d1.sched) ensures r in InDecoding(d.sched) {
      DecStepMember(c, d, r);
    }
    DecStepFilled(key, c, d, d1, GetNextBatch(c, d.sched).value.cur, kv.store, kv2.store);
  }

  // ---------------------------------------------------------------- freeing

  lemma {:induction false} FreedGone(bm: BlockState, gone: seq<Req>)
    requires FreeBatched(bm, gone).Ok?
    ensures FreeBatched(bm, gone).value.table.Keys <= bm.table.Keys
    ensures forall r :: r in gone ==> r.id !in FreeBatched(bm, gone).value.table
    decreases |gone|
  {
    if gone != [] {
      FreedGone(FreeBlocks(bm, gone[0].id).value, gone[1..]);
    }
  }

  /** Who keeps blocks keeps contents. */
  lemma FreeKeeps<V>(bs: nat, kv: K.Kv<V>, gone: seq<Req>) returns (kv1: K.Kv<V>)
    requires bs >= 1 && FreeBatched(kv.bm, gone).Ok?
    ensures ApplyOps(bs, kv, FreeOps(gone)) == Ok(kv1) && kv1.bm == FreeBatched(kv.bm, gone).value
    ensures forall id :: id in kv.store && id in kv1.bm.table ==> id in kv1.store && kv1.store[id] == kv.store[id]
  {
    FreeSync(bs, kv, gone);
    FreedGone(kv.bm, gone);
    kv1 := ApplyOps(bs, kv, FreeOps(gone)).value;
  }

  /** The contents of everybody known to the manager are kept. */
  ghost predicate KeptFor<V>(a: Store<V>, b: Store<V>, bm: BlockState) {
    forall id :: id in a && id in bm.table ==> id in b && b[id] == a[id]
  }

  lemma KeptFilled<V>(key: Model<V>, a: Store<V>, b: Store<V>, bm: BlockState, r: Req, n: nat)
    requires KeptFor(a, b, bm) && r.id in bm.table && Filled(key, a, r, n)
    ensures Filled(key, b, r, n)
  {
  }

  // ---------------------------------------------------------------- a decoding batch returns

  lemma ReturnedMember(c: Config, d: Dec, tokens: seq<Token>, after: seq<Req>, r: Req)
    requires DecInv(c, d) && d.phase.Submitted? && TokensFor(c, d, tokens)
    requires Full(c, d) && d.futures[0].Some?
    requires AddTokens(d.sched.batches[d.pipeline[0]].requests, tokens) == Ok(after)
    requires Return(c, d, tokens).Ok? && r in InDecoding(Return(c, d, tokens).value.sched)
    ensures r in Unfinished(after) || r in InDecoding(d.sched)
  {
    var f := Delivery.Is(r);
    DecBackExchange(f, c, d, tokens, after);
    Delivery.CountedMember(InDecoding(Return(c, d, tokens).value.sched), r);
    Delivery.CountedMember(Unfinished(after), r);
    Delivery.CountedMember(InDecoding(d.sched), r);
  }

  /** The state after a decoding batch returned with these requests. */
  lemma ReturnedShape(c: Config, d: Dec, tokens: seq<Token>, after: seq<Req>)
    requires DecInv(c, d) && d.phase.Submitted? && TokensFor(c, d, tokens)
    requires Full(c, d) && d.futures[0].Some?
    requires AddTokens(d.sched.batches[d.pipeline[0]].requests, tokens) == Ok(after)
    ensures Return(c, d, tokens).Ok?
    ensures var d1 := Return(c, d, tokens).value;
            && DecInv(c, d1) && MigReqs(d1) == [] && d1.pipeline == d.pipeline[1..]
            && FreeBatched(d.sched.bm, Finished(after)) == Ok(d1.sched.bm)
            && |d1.sched.batches| == |d.sched.batches|
            && (forall j :: 0 <= j < |d.sched.batches| && j != d.pipeline[0] ==>
                  d1.sched.batches[j] == d.sched.batches[j])
            && d.pipeline[0] !in d1.pipeline
  {
    ReturnBatchSafe(c, d, tokens);
    HeadIsLastStage(c, d);
    assert InFlight(d, 0);
  }

  lemma DecBackFilled<V>(key: Model<V>, c: Config, d: Dec, d1: Dec, before: seq<Req>, after: seq<Req>, ts: seq<Token>,
                         a: Store<V>, b: Store<V>)
    requires DecInv(c, d) && DecInv(c, d1) && DecFilled(key, d, a) && MigReqs(d1) == []
    requires d.pipeline != [] && 0 <= d.pipeline[0] < |d.sched.batches| == |d1.sched.batches|
    requires before == d.sched.batches[d.pipeline[0]].requests
    requires |after| == |before| == |ts| && forall k :: 0 <= k < |before| ==> Extended(before[k], after[k], ts[k])
    requires forall r :: r in InDecoding(d1.sched) ==> r in Unfinished(after) || r in InDecoding(d.sched)
    requires d1.pipeline == d.pipeline[1..] && d.pipeline[0] !in d1.pipeline
    requires forall j :: 0 <= j < |d.sched.batches| && j != d.pipeline[0] ==> d1.sched.batches[j] == d.sched.batches[j]
    requires KeptFor(a, b, d1.sched.bm)
    ensures DecFilled(key, d1, b)
  {
    forall r | r in InDecoding(d1.sched) ensures AllButLast(key, b, r) {
      DecTabled(c, d1, r);
      if r in Unfinished(after) {
        var k :| 0 <= k < |after| && after[k] == r;
        assert RunsAt(d, 0, before[k]);
        FilledGrows(key, a, before[k], r, ts[k]);
      }
      KeptFilled(key, a, b, d1.sched.bm, r, |Tokens(r)| - 1);
    }
    forall i, r | RunsAt(d1, i, r) ensures Full1(key, b, r) {
      assert d1.pipeline[i] in d1.pipeline && d1.pipeline[i] == d.pipeline[i + 1];
      assert RunsAt(d, i + 1, r);
      InBatch(d1.sched, d1.pipeline[i], r);
      DecTabled(c, d1, r);
      KeptFilled(key, a, b, d1.sched.bm, r, |Tokens(r)|);
    }
  }

  lemma DecBackKv<V>(key: Model<V>, c: Config, d: Dec, tokens: seq<Token>, after: seq<Req>, kv: K.Kv<V>)
    returns (kv1: K.Kv<V>)
    requires DecInv(c, d) && d.phase.Submitted? && TokensFor(c, d, tokens) && kv.bm == d.sched.bm
    requires Full(c, d) && d.futures[0].Some? && DecFilled(key, d, kv.store)
    requires AddTokens(d.sched.batches[d.pipeline[0]].requests, tokens) == Ok(after)
    ensures Return(c, d, tokens).Ok?
    ensures ApplyOps(c.blockSize, kv, FreeOps(Finished(after))) == Ok(kv1)
    ensures kv1.bm == Return(c, d, tokens).value.sched.bm && DecFilled(key, Return(c, d, tokens).value, kv1.store)
  {
    ReturnedShape(c, d, tokens, after);
    kv1 := FreeKeeps(c.blockSize, kv, Finished(after));
    var d1 := Return(c, d, tokens).value;
    var before := d.sched.batches[d.pipeline[0]].requests;
    ReturnedTokens(c, d, tokens, after);
    forall r | r in InDecoding(d1.sched) ensures r in Unfinished(after) || r in InDecoding(d.sched) {
      ReturnedMember(c, d, tokens, after, r);
    }
    DecBackFilled(key, c, d, d1, before, after, tokens, kv.store, kv1.store);
  }

  lemma ReturnedTokens(c: Config, d: Dec, tokens: seq<Token>, after: seq<Req>)
    requires DecInv(c, d) && TokensFor(c, d, tokens) && Full(c, d) && d.futures[0].Some?
    requires AddTokens(d.sched.batches[d.pipeline[0]].requests, tokens) == Ok(after)
    ensures var before := d.sched.batches[d.pipeline[0]].requests;
            && |after| == |before| == |tokens|
            && forall k :: 0 <= k < |before| ==> Extended(before[k], after[k], tokens[k])
  {
    var j := d.pipeline[0];
    assert InFlight(d, 0);
    assert BatchPlaced(c, d.sched.bm, d.sched.batches[j].requests, j != OpenIndex(c, d));
    AddTokensSpec(d.sched.batches[j].requests, tokens);
  }

  /** A return without a batch changes no cache. */
  lemma QuietReturn<V>(key: Model<V>, c: Config, d: Dec, tokens: seq<Token>, store: Store<V>)
    requires IndicesOk(c, d) && d.phase.Submitted? && !(Full(c, d) && d.futures[0].Some?) && DecFilled(key, d, store)
    ensures Return(c, d, tokens).Ok? && Return(c, d, tokens).value.sched == d.sched
    ensures DecFilled(key, Return(c, d, tokens).value, store)
  {
    var d1 := Return(c, d, tokens).value;
    forall i, r | RunsAt(d1, i, r) ensures Full1(key, store, r) {
      if Full(c, d) {
        assert RunsAt(d, i + 1, r);
      } else {
        assert RunsAt(d, i, r);
      }
    }
  }

  // ---------------------------------------------------------------- migration

  lemma MigBeginFilled<V>(key: Model<V>, c: Config, d: Dec, d1: Dec, m: Mig, a: Store<V>, b: Store<V>)
    requires DecInv(c, d) && DecFilled(key, d, a) && m.req.id !in d.sched.bm.table
    requires d1.sched.batches == d.sched.batches
    requires d1.sched.waiting == d.sched.waiting && d1.sched.swapped == d.sched.swapped
    requires d1.pipeline == d.pipeline && MigReqs(d1) == [m.req]
    requires AllButLast(key, b, m.req) && OnlyOf(a, b, {m.req.id})
    ensures DecFilled(key, d1, b)
  {
    forall r | r in InDecoding(d1.sched) || r in MigReqs(d1) ensures AllButLast(key, b, r) {
      if r in InDecoding(d.sched) {
        DecTabled(c, d, r);
        FilledElsewhere(key, a, b, {m.req.id}, r, |Tokens(r)| - 1);
      }
    }
    forall i, r | RunsAt(d1, i, r) ensures Full1(key, b, r) {
      assert RunsAt(d, i, r);
      InBatch(d.sched, d.pipeline[i], r);
      DecTabled(c, d, r);
      FilledElsewhere(key, a, b, {m.req.id}, r, |Tokens(r)|);
    }
  }

  /** The blocks for a request being migrated in, and the copy into them. */
  lemma MigrateSync<V>(key: Model<V>, bs: nat, p: K.Pair<V>, m: Mig, bm: BlockState) returns (p2: K.Pair<V>)
    requires bs >= 1 && Allocate(bs, p.dec.bm, m.req.(output := [])) == Ok(bm)
    requires p.ctx.bm.OnGpu(m.req.id) && bm.OnGpu(m.req.id)
    requires |p.ctx.bm.table[m.req.id]| == |bm.table[m.req.id]| && AllButLast(key, p.ctx.store, m.req)
    ensures var q := OnDec(bs, p, [K.Manage(Alloc(m.req.(output := [])))]);
            q.Ok? && K.MigrateKv(q.value, m.req.id) == Ok(p2)
    ensures p2.ctx == p.ctx && p2.dec.bm == bm
    ensures AllButLast(key, p2.dec.store, m.req) && OnlyOf(p.dec.store, p2.dec.store, {m.req.id})
  {
    var op := K.Manage(Alloc(m.req.(output := [])));
    ApplyCons(bs, p.dec, op, []);
    assert [op] + [] == [op];
    var q := OnDec(bs, p, [op]).value;
    p2 := K.MigrateKv(q, m.req.id).value;
    assert p2.dec.store[m.req.id] == p.ctx.store[m.req.id];
    FilledCopied(key, p.ctx.store, p2.dec.store, m.req);
  }

  lemma FilledCopied<V>(key: Model<V>, a: Store<V>, b: Store<V>, r: Req)
    requires AllButLast(key, a, r) && r.id in b && b[r.id] == a[r.id]
    ensures AllButLast(key, b, r)
  {
  }

  lemma MigEndFilled<V>(key: Model<V>, d: Dec, store: Store<V>)
    requires d.phase.Migrating? && DecFilled(key, d, store)
    ensures DecFilled(key, MigrateEnd(d), store)
  {
    var d1 := MigrateEnd(d);
    forall r | r in InDecoding(d1.sched) ensures AllButLast(key, store, r) {
      assert r in InDecoding(d.sched) || r in MigReqs(d);
    }
    forall i, r | RunsAt(d1, i, r) ensures Full1(key, store, r) {
      assert RunsAt(d, i, r);
    }
  }

  /** Events that touch neither the batches nor the queues of the decoding engine. */
  lemma SameDec<V>(key: Model<V>, d: Dec, d1: Dec, store: Store<V>)
    requires DecFilled(key, d, store) && d1.pipeline == d.pipeline && MigReqs(d1) == MigReqs(d)
    requires d1.sched.batches == d.sched.batches
    requires d1.sched.waiting == d.sched.waiting && d1.sched.swapped == d.sched.swapped
    ensures DecFilled(key, d1, store)
  {
    forall i, r | RunsAt(d1, i, r) ensures Full1(key, store, r) {
      assert RunsAt(d, i, r);
    }
  }

  // ---------------------------------------------------------------- the context engine

  lemma CtxTabled(c: Config, x: Ctx, r: Req)
    requires CtxInv(c, x)
    requires r in x.sched.unaccepted || exists j :: 0 <= j < |x.pipeline| && r in x.pipeline[j].requests
    ensures r.id in x.sched.bm.table
  {
    if j :| 0 <= j < |x.pipeline| && r in x.pipeline[j].requests {
      assert Sized(c, x.sched.bm, x.pipeline[j].requests);
    } else {
      assert Sized(c, x.sched.bm, x.sched.unaccepted);
    }
  }

  lemma PickedSome(c: Config, x: Ctx, s1: CtxSched, picked: seq<Req>)
    requires CtxInv(c, x) && !x.submitted && picked != [] && PickLoop(c, x.sched, []) == Ok((s1, picked))
    requires picked + s1.waiting == x.sched.waiting && s1 == x.sched.(waiting := s1.waiting)
    requires Affordable(c, x.sched, picked)
    ensures CtxSubmit(c, x).Ok?
    ensures AllocateBatched(c.blockSize, x.sched.bm, picked) == Ok(CtxSubmit(c, x).value.sched.bm)
  {
    var bm := PickedAllocated(c, x, s1.waiting, picked);
    CtxSubmitComputes(c, x, s1, picked, bm);
  }

  lemma PickedManager(c: Config, x: Ctx)
    requires CtxInv(c, x) && !x.submitted && CtxSubmit(c, x).Ok?
    ensures AllocateBatched(c.blockSize, x.sched.bm, Picked(c, x)) == Ok(CtxSubmit(c, x).value.sched.bm)
    ensures forall r :: r in Picked(c, x) ==> r.id !in x.sched.bm.table
  {
    var s1, picked := PickFromStart(c, x);
    PickedUnallocated(x.sched.bm, x.sched.waiting, picked, s1.waiting);
    forall r | r in picked ensures r.id !in x.sched.bm.table {
      PresentId(picked, r);
      assert Sum(IdF(r.id), picked) + (if r.id in x.sched.bm.table then 1 else 0) <= 1;
    }
    if picked != [] {
      PickedSome(c, x, s1, picked);
    }
  }

  /** The batch of a context step: it holds what it needs, nobody twice, and had nothing before. */
  lemma PickedBatch(c: Config, x: Ctx)
    requires CtxInv(c, x) && !x.submitted
    ensures CtxSubmit(c, x).Ok?
    ensures var x1, rs := CtxSubmit(c, x).value, Picked(c, x);
            && CtxInv(c, x1) && AllocateBatched(c.blockSize, x.sched.bm, rs) == Ok(x1.sched.bm)
            && |x1.pipeline| == |x.pipeline| + 1 && x1.pipeline[..|x.pipeline|] == x.pipeline
            && x1.pipeline[|x.pipeline|].requests == rs && x1.sched.unaccepted == x.sched.unaccepted
            && (forall r :: r in rs ==> r.id !in x.sched.bm.table)
  {
    CtxSubmitSafe(c, x);
    PickedManager(c, x);
    var s1, picked := PickFromStart(c, x);
    CtxSubmitShape(c, x, s1, picked);
  }

  lemma CtxBatchRoom(c: Config, x: Ctx, j: nat, r: Req)
    requires CtxInv(c, x) && j < |x.pipeline| && r in x.pipeline[j].requests
    ensures RoomFor(c.blockSize, x.sched.bm, r, |Tokens(r)|) && r.output == []
  {
    assert CtxFlight(x, j) && AllFresh(x.pipeline[j].requests);
    assert Fresh(r);
    assert Sized(c, x.sched.bm, x.pipeline[j].requests);
    BlocksForIsCeiling(|r.prompt|, c.blockSize);
  }

  lemma CtxBatchDiffers(c: Config, x: Ctx, j: nat)
    requires CtxInv(c, x) && j < |x.pipeline|
    ensures IdsDiffer(x.pipeline[j].requests)
  {
    var rs := x.pipeline[j].requests;
    forall k, l | 0 <= k < l < |rs| ensures rs[k].id != rs[l].id {
      assert HeldSum(IdF(rs[k].id), x.pipeline, x.sched.unaccepted, []) <= 1;
      PositionsDiffer(x.pipeline, j, k, j, l);
    }
  }

  lemma CtxStepFilled<V>(key: Model<V>, c: Config, x: Ctx, x1: Ctx, rs: seq<Req>, a: Store<V>, b: Store<V>)
    requires CtxInv(c, x) && CtxFilled(key, x, a)
    requires |x1.pipeline| == |x.pipeline| + 1 && x1.pipeline[..|x.pipeline|] == x.pipeline
    requires x1.pipeline[|x.pipeline|].requests == rs && x1.sched.unaccepted == x.sched.unaccepted
    requires (forall r :: r in rs ==> r.id !in x.sched.bm.table && Full1(key, b, r)) && OnlyOf(a, b, IdsOf(rs))
    ensures CtxFilled(key, x1, b)
  {
    forall j, r | PrefillsAt(x1, j, r) ensures Full1(key, b, r) {
      if j < |x.pipeline| {
        assert x1.pipeline[j] == x1.pipeline[..|x.pipeline|][j];
        assert PrefillsAt(x, j, r);
        CtxTabled(c, x, r);
        FilledElsewhere(key, a, b, IdsOf(rs), r, |Tokens(r)|);
      }
    }
    forall r | r in x1.sched.unaccepted ensures |r.output| == 1 && AllButLast(key, b, r) {
      CtxTabled(c, x, r);
      FilledElsewhere(key, a, b, IdsOf(rs), r, |Tokens(r)| - 1);
    }
  }

  lemma CtxStepKv<V>(key: Model<V>, c: Config, x: Ctx, kv: K.Kv<V>) returns (kv2: K.Kv<V>)
    requires CtxInv(c, x) && !x.submitted && kv.bm == x.sched.bm && CtxFilled(key, x, kv.store)
    ensures CtxSubmit(c, x).Ok? && ApplyOps(c.blockSize, kv, CtxStepOps(key, c, x)) == Ok(kv2)
    ensures kv2.bm == CtxSubmit(c, x).value.sched.bm && CtxFilled(key, CtxSubmit(c, x).value, kv2.store)
  {
    PickedBatch(c, x);
    var x1, rs := CtxSubmit(c, x).value, Picked(c, x);
    CtxBatchDiffers(c, x1, |x.pipeline|);
    forall r | r in rs ensures RoomFor(c.blockSize, x1.sched.bm, r, |Tokens(r)|) && r.output == [] {
      CtxBatchRoom(c, x1, |x.pipeline|, r);
    }
    kv2 := RunSync(key, c.blockSize, kv, rs, x1.sched.bm);
    CtxStepFilled(key, c, x, x1, rs, kv.store, kv2.store);
  }

  lemma CtxBackFilled<V>(key: Model<V>, c: Config, x: Ctx, x1: Ctx, after: seq<Req>, ts: seq<Token>,
                         a: Store<V>, b: Store<V>)
    requires CtxFilled(key, x, a) && CtxInv(c, x1) && x.pipeline != [] && x1.pipeline == x.pipeline[1..]
    requires AllFresh(x.pipeline[0].requests)
    requires |after| == |x.pipeline[0].requests| == |ts|
    requires forall k :: 0 <= k < |after| ==> Extended(x.pipeline[0].requests[k], after[k], ts[k])
    requires x1.sched.unaccepted == x.sched.unaccepted + Unfinished(after) && KeptFor(a, b, x1.sched.bm)
    ensures CtxFilled(key, x1, b)
  {
    forall j, r | PrefillsAt(x1, j, r) ensures Full1(key, b, r) {
      assert PrefillsAt(x, j + 1, r);
      CtxTabled(c, x1, r);
      KeptFilled(key, a, b, x1.sched.bm, r, |Tokens(r)|);
    }
    forall r | r in x1.sched.unaccepted ensures |r.output| == 1 && AllButLast(key, b, r) {
      CtxTabled(c, x1, r);
      if r in Unfinished(after) {
        var k :| 0 <= k < |after| && after[k] == r;
        var q := x.pipeline[0].requests[k];
        assert q in x.pipeline[0].requests && Fresh(q);
        assert PrefillsAt(x, 0, q);
        FilledGrows(key, a, q, r, ts[k]);
      }
      KeptFilled(key, a, b, x1.sched.bm, r, |Tokens(r)| - 1);
    }
  }

  /** The state after a context batch returned with these requests. */
  lemma CtxReturnedShape(c: Config, x: Ctx, tokens: seq<Token>, after: seq<Req>)
    requires CtxInv(c, x) && x.submitted && CtxTokensFor(c, x, tokens)
    requires CtxFull(c, x) && x.futures[0].Some? && AddTokens(x.pipeline[0].requests, tokens) == Ok(after)
    ensures CtxReturn(c, x, tokens).Ok? && AllFresh(x.pipeline[0].requests)
    ensures var x1 := CtxReturn(c, x, tokens).value.0;
            && CtxInv(c, x1) && x1.pipeline == x.pipeline[1..]
            && x1.sched.unaccepted == x.sched.unaccepted + Unfinished(after)
            && FreeBatched(x.sched.bm, Finished(after)) == Ok(x1.sched.bm)
    ensures |after| == |x.pipeline[0].requests| == |tokens|
    ensures forall k :: 0 <= k < |after| ==> Extended(x.pipeline[0].requests[k], after[k], tokens[k])
  {
    CtxReturnSafe(c, x, tokens);
    assert CtxFlight(x, 0) && AllFresh(x.pipeline[0].requests);
    AddTokensSpec(x.pipeline[0].requests, tokens);
    DispatchFrees(x.sched.bm, after);
  }

  lemma CtxBackKv<V>(key: Model<V>, c: Config, x: Ctx, tokens: seq<Token>, after: seq<Req>, kv: K.Kv<V>)
    returns (kv1: K.Kv<V>)
    requires CtxInv(c, x) && x.submitted && CtxTokensFor(c, x, tokens)
    requires kv.bm == x.sched.bm && CtxFilled(key, x, kv.store)
    requires CtxFull(c, x) && x.futures[0].Some? && AddTokens(x.pipeline[0].requests, tokens) == Ok(after)
    ensures CtxReturn(c, x, tokens).Ok? && ApplyOps(c.blockSize, kv, FreeOps(Finished(after))) == Ok(kv1)
    ensures var x1 := CtxReturn(c, x, tokens).value.0; kv1.bm == x1.sched.bm && CtxFilled(key, x1, kv1.store)
  {
    CtxReturnedShape(c, x, tokens, after);
    kv1 := FreeKeeps(c.blockSize, kv, Finished(after));
    CtxBackFilled(key, c, x, CtxReturn(c, x, tokens).value.0, after, tokens, kv.store, kv1.store);
  }

  lemma QuietCtxReturn<V>(key: Model<V>, c: Config, x: Ctx, tokens: seq<Token>, store: Store<V>)
    requires CtxInv(c, x) && x.submitted && !(CtxFull(c, x) && x.futures[0].Some?) && CtxFilled(key, x, store)
    ensures CtxReturn(c, x, tokens).Ok? && CtxReturn(c, x, tokens).value.0.sched == x.sched
    ensures CtxFilled(key, CtxReturn(c, x, tokens).value.0, store)
  {
    var x1 := CtxReturn(c, x, tokens).value.0;
    forall j, r | PrefillsAt(x1, j, r) ensures Full1(key, store, r) {
      if CtxFull(c, x) {
        assert PrefillsAt(x, j + 1, r);
      } else {
        assert PrefillsAt(x, j, r);
      }
    }
  }

  lemma ClearFilled<V>(key: Model<V>, c: Config, x: Ctx, x1: Ctx, a: Store<V>, b: Store<V>)
    requires CtxInv(c, x1) && CtxFilled(key, x, a) && x1.pipeline == x.pipeline
    requires (forall r :: r in x1.sched.unaccepted ==> r in x.sched.unaccepted) && KeptFor(a, b, x1.sched.bm)
    ensures CtxFilled(key, x1, b)
  {
    forall j, r | PrefillsAt(x1, j, r) ensures Full1(key, b, r) {
      assert PrefillsAt(x, j, r);
      CtxTabled(c, x1, r);
      KeptFilled(key, a, b, x1.sched.bm, r, |Tokens(r)|);
    }
    forall r | r in x1.sched.unaccepted ensures |r.output| == 1 && AllButLast(key, b, r) {
      CtxTabled(c, x1, r);
      KeptFilled(key, a, b, x1.sched.bm, r, |Tokens(r)| - 1);
    }
  }

  lemma FreeOneKeeps<V>(bs: nat, kv: K.Kv<V>, id: int, bm: BlockState) returns (kv1: K.Kv<V>)
    requires bs >= 1 && FreeBlocks(kv.bm, id) == Ok(bm)
    ensures ApplyOps(bs, kv, [K.Manage(Free(id))]) == Ok(kv1) && kv1.bm == bm && KeptFor(kv.store, kv1.store, bm)
  {
    var op: K.Op<V> := K.Manage(Free(id));
    ApplyCons(bs, kv, op, []);
    assert [op] + [] == [op];
    kv1 := ApplyOps(bs, kv, [op]).value;
  }

  lemma ClearKv<V>(key: Model<V>, c: Config, x: Ctx, m: Mig, kv: K.Kv<V>) returns (kv1: K.Kv<V>)
    requires CtxInv(c, x) && x.sched.unaccepted != [] && x.sched.unaccepted[0] == m.req
    requires kv.bm == x.sched.bm && CtxFilled(key, x, kv.store)
    ensures ClearMigrated(x, m).Ok? && ApplyOps(c.blockSize, kv, [K.Manage(Free(m.req.id))]) == Ok(kv1)
    ensures kv1.bm == ClearMigrated(x, m).value.sched.bm && CtxFilled(key, ClearMigrated(x, m).value, kv1.store)
  {
    ClearMigratedSafe(c, x, m);
    var x1 := ClearMigrated(x, m).value;
    kv1 := FreeOneKeeps(c.blockSize, kv, m.req.id, x1.sched.bm);
    ClearFilled(key, c, x, x1, kv.store, kv1.store);
  }

  // ---------------------------------------------------------------- every event

  lemma CtxOps<V>(c: SysConfig, p: K.Pair<V>, ops: seq<K.Op<V>>, kv1: K.Kv<V>)
    requires c.Valid() && Refined(c, p) && ApplyOps(c.ctx.blockSize, p.ctx, ops) == Ok(kv1)
    ensures OnCtx(c.ctx.blockSize, p, ops) == Ok(p.(ctx := kv1)) && Refined(c, p.(ctx := kv1))
  {
    OpsRefine(c.ctx.blockSize, p.ctx, ops, c.ctx.maxGpu, c.ctx.maxCpu);
  }

  lemma DecOps<V>(c: SysConfig, p: K.Pair<V>, ops: seq<K.Op<V>>, kv1: K.Kv<V>)
    requires c.Valid() && Refined(c, p) && ApplyOps(c.dec.blockSize, p.dec, ops) == Ok(kv1)
    ensures OnDec(c.ctx.blockSize, p, ops) == Ok(p.(dec := kv1)) && Refined(c, p.(dec := kv1))
  {
    OpsRefine(c.dec.blockSize, p.dec, ops, c.dec.maxGpu, c.dec.maxCpu);
  }

  lemma CtxStepEvent<V>(key: Model<V>, c: SysConfig, s: Sys, p: K.Pair<V>)
    requires Inv(c, s) && Typed(c, s) && Enabled(c, s, CtxStep) && Step(c, s, CtxStep).Ok? && KvInvariant(key, c, s, p)
    ensures KvStep(key, c, s, CtxStep, p).Ok?
    ensures KvInvariant(key, c, Step(c, s, CtxStep).value, KvStep(key, c, s, CtxStep, p).value)
  {
    var kv2 := CtxStepKv(key, c.ctx, s.ctx, p.ctx);
    CtxOps(c, p, CtxStepOps(key, c.ctx, s.ctx), kv2);
  }

  lemma CtxBackEvent<V>(key: Model<V>, c: SysConfig, s: Sys, ts: seq<Token>, p: K.Pair<V>)
    requires Inv(c, s) && Typed(c, s) && Enabled(c, s, CtxBack(ts)) && Step(c, s, CtxBack(ts)).Ok?
    requires KvInvariant(key, c, s, p)
    ensures KvStep(key, c, s, CtxBack(ts), p).Ok?
    ensures KvInvariant(key, c, Step(c, s, CtxBack(ts)).value, KvStep(key, c, s, CtxBack(ts), p).value)
  {
    var after := Batch1(c, s, CtxBack(ts));
    CtxBackComputes(c, s, ts);
    TokensAccepted(c, s, CtxBack(ts));
    if CtxFull(c.ctx, s.ctx) && s.ctx.futures[0].Some? {
      var kv1 := CtxBackKv(key, c.ctx, s.ctx, ts, after, p.ctx);
      CtxOps(c, p, FreeOps(Finished(after)), kv1);
    } else {
      NothingFreed(c, s, CtxBack(ts));
      QuietCtxReturn(key, c.ctx, s.ctx, ts, p.ctx.store);
      CtxOps(c, p, [], p.ctx);
    }
  }

  lemma NothingFreed(c: SysConfig, s: Sys, e: Event)
    requires Typed(c, s) && Enabled(c, s, e) && Batch0(c, s, e) == []
    ensures Finished(Batch1(c, s, e)) == []
  {
    assert AddTokens([], TokensOfEvent(e)) == Ok([]);
  }

  lemma DecStepEvent<V>(key: Model<V>, c: SysConfig, s: Sys, p: K.Pair<V>)
    requires Inv(c, s) && Typed(c, s) && Enabled(c, s, DecStep) && Step(c, s, DecStep).Ok? && KvInvariant(key, c, s, p)
    ensures KvStep(key, c, s, DecStep, p).Ok?
    ensures KvInvariant(key, c, Step(c, s, DecStep).value, KvStep(key, c, s, DecStep, p).value)
  {
    var kv2 := DecStepKv(key, c.dec, s.dec, p.dec);
    DecOps(c, p, DecStepOps(key, c.dec, s.dec), kv2);
  }

  lemma DecBackEvent<V>(key: Model<V>, c: SysConfig, s: Sys, ts: seq<Token>, p: K.Pair<V>)
    requires Inv(c, s) && Typed(c, s) && Enabled(c, s, DecBack(ts)) && Step(c, s, DecBack(ts)).Ok?
    requires KvInvariant(key, c, s, p)
    ensures KvStep(key, c, s, DecBack(ts), p).Ok?
    ensures KvInvariant(key, c, Step(c, s, DecBack(ts)).value, KvStep(key, c, s, DecBack(ts), p).value)
  {
    var after := Batch1(c, s, DecBack(ts));
    DecBackComputes(c, s, ts);
    TokensAccepted(c, s, DecBack(ts));
    if Full(c.dec, s.dec) && s.dec.futures[0].Some? {
      var kv1 := DecBackKv(key, c.dec, s.dec, ts, after, p.dec);
      DecOps(c, p, FreeOps(Finished(after)), kv1);
    } else {
      NothingFreed(c, s, DecBack(ts));
      QuietReturn(key, c.dec, s.dec, ts, p.dec.store);
      DecOps(c, p, [], p.dec);
    }
  }

  lemma FirstPending(c: SysConfig, s: Sys)
    requires Inv(c, s) && s.dec.phase.Accepting? && s.dec.sched.unaccepted != []
    ensures var m := s.dec.sched.unaccepted[0];
            && m in Pending(s) && m.req in s.ctx.sched.unaccepted
            && s.ctx.sched.bm.OnGpu(m.req.id) && s.ctx.sched.bm.table[m.req.id] == m.blockIndexes
  {
    var m := s.dec.sched.unaccepted[0];
    assert Pending(s)[0] == m;
    assert Reqs(Pending(s))[0] == m.req;
    assert Sized(c.ctx, s.ctx.sched.bm, s.ctx.sched.unaccepted);
  }

  lemma BeginShape(c: Config, d: Dec)
    requires c.Valid() && d.sched.unaccepted != [] && MigrateBegin(c, d).Ok?
    ensures var m, d1 := d.sched.unaccepted[0], MigrateBegin(c, d).value;
            && Allocate(c.blockSize, d.sched.bm, m.req.(output := [])) == Ok(d1.sched.bm)
            && m.req.id in d1.sched.bm.table && |d1.sched.bm.table[m.req.id]| == |m.blockIndexes|
            && MigReqs(d1) == [m.req]
  {
  }

  /** What a migration finds: blocks on both sides, as many, and the prompt cached on the first. */
  lemma MigrationFinds<V>(key: Model<V>, c: SysConfig, s: Sys, p: K.Pair<V>)
    requires Inv(c, s) && s.dec.phase.Accepting? && CanAccept(c, s) && KvInvariant(key, c, s, p)
    ensures MigrateBegin(c.dec, s.dec).Ok?
    ensures var m, bm := s.dec.sched.unaccepted[0], MigrateBegin(c.dec, s.dec).value.sched.bm;
            && m.req.id !in s.dec.sched.bm.table
            && Allocate(c.dec.blockSize, p.dec.bm, m.req.(output := [])) == Ok(bm)
            && p.ctx.bm.OnGpu(m.req.id) && bm.OnGpu(m.req.id)
            && |p.ctx.bm.table[m.req.id]| == |bm.table[m.req.id]| && AllButLast(key, p.ctx.store, m.req)
  {
    FirstPending(c, s);
    PendingAcceptable(c, s, s.dec.sched.unaccepted[0]);
    MigrateBeginSafe(c.dec, s.dec);
    BeginShape(c.dec, s.dec);
    MigratedOnGpu(c.dec, MigrateBegin(c.dec, s.dec).value, s.dec.sched.unaccepted[0].req);
  }

  lemma MigratedOnGpu(c: Config, d: Dec, r: Req)
    requires DecInv(c, d) && r in MigReqs(d)
    ensures d.sched.bm.OnGpu(r.id)
  {
  }

  lemma MigBeginEvent<V>(key: Model<V>, c: SysConfig, s: Sys, p: K.Pair<V>)
    requires Inv(c, s) && Typed(c, s) && Enabled(c, s, MigBegin) && Step(c, s, MigBegin).Ok?
    requires KvInvariant(key, c, s, p)
    ensures KvStep(key, c, s, MigBegin, p).Ok?
    ensures KvInvariant(key, c, Step(c, s, MigBegin).value, KvStep(key, c, s, MigBegin, p).value)
  {
    MigBeginComputes(c, s);
    var p2 := MigBeginKv(key, c, s, p);
  }

  /** The blocks and the copy of a migration, apart from the event they belong to. */
  lemma MigBeginCopy<V>(key: Model<V>, c: SysConfig, s: Sys, p: K.Pair<V>) returns (p2: K.Pair<V>)
    requires Inv(c, s) && s.dec.phase.Accepting? && CanAccept(c, s) && KvInvariant(key, c, s, p)
    ensures var m := s.dec.sched.unaccepted[0];
            var q := OnDec(c.dec.blockSize, p, [K.Manage(Alloc(m.req.(output := [])))]);
            q.Ok? && K.MigrateKv(q.value, m.req.id) == Ok(p2)
    ensures p2.ctx == p.ctx && MigrateBegin(c.dec, s.dec).Ok?
    ensures var d1 := MigrateBegin(c.dec, s.dec).value;
            p2.dec.bm == d1.sched.bm && DecFilled(key, d1, p2.dec.store)
  {
    var m := s.dec.sched.unaccepted[0];
    MigrationFinds(key, c, s, p);
    var d1 := MigrateBegin(c.dec, s.dec).value;
    p2 := MigrateSync(key, c.dec.blockSize, p, m, d1.sched.bm);
    MigBeginFilled(key, c.dec, s.dec, d1, m, p.dec.store, p2.dec.store);
  }

  lemma MigBeginSteps<V>(key: Model<V>, c: SysConfig, s: Sys, p: K.Pair<V>, q: K.Pair<V>)
    requires Typed(c, s) && Enabled(c, s, MigBegin) && Step(c, s, MigBegin).Ok?
    requires OnDec(c.ctx.blockSize, p, [K.Manage(Alloc(s.dec.sched.unaccepted[0].req.(output := [])))]) == Ok(q)
    ensures KvStep(key, c, s, MigBegin, p) == K.MigrateKv(q, s.dec.sched.unaccepted[0].req.id)
  {
  }

  lemma MigBeginKv<V>(key: Model<V>, c: SysConfig, s: Sys, p: K.Pair<V>) returns (p2: K.Pair<V>)
    requires Inv(c, s) && Typed(c, s) && Enabled(c, s, MigBegin) && Step(c, s, MigBegin).Ok?
    requires KvInvariant(key, c, s, p)
    ensures KvStep(key, c, s, MigBegin, p) == Ok(p2) && p2.ctx == p.ctx && Refined(c, p2)
    ensures MigrateBegin(c.dec, s.dec).Ok?
    ensures var d1 := MigrateBegin(c.dec, s.dec).value;
            p2.dec.bm == d1.sched.bm && DecFilled(key, d1, p2.dec.store)
  {
    var m := s.dec.sched.unaccepted[0];
    p2 := MigBeginCopy(key, c, s, p);
    var ops: seq<K.Op<V>> := [K.Manage(Alloc(m.req.(output := [])))];
    MigBeginSteps(key, c, s, p, OnDec(c.dec.blockSize, p, ops).value);
    MigrationRefines(c, p, ops, m.req.id, p2);
  }

  lemma MigrationRefines<V>(c: SysConfig, p: K.Pair<V>, ops: seq<K.Op<V>>, id: int, p2: K.Pair<V>)
    requires c.Valid() && Refined(c, p) && OnDec(c.dec.blockSize, p, ops).Ok?
    requires K.MigrateKv(OnDec(c.dec.blockSize, p, ops).value, id) == Ok(p2)
    ensures Refined(c, p2)
  {
    var q := OnDec(c.dec.blockSize, p, ops).value;
    DecOps(c, p, ops, q.dec);
    K.MigrateRefines(c.dec.blockSize, q, id, c.ctx.maxGpu, c.ctx.maxCpu, c.dec.maxGpu, c.dec.maxCpu);
  }

  lemma MigEndEvent<V>(key: Model<V>, c: SysConfig, s: Sys, p: K.Pair<V>)
    requires Inv(c, s) && Typed(c, s) && Enabled(c, s, MigEnd) && Step(c, s, MigEnd).Ok? && KvInvariant(key, c, s, p)
    ensures KvStep(key, c, s, MigEnd, p).Ok?
    ensures KvInvariant(key, c, Step(c, s, MigEnd).value, KvStep(key, c, s, MigEnd, p).value)
  {
    MigEndComputes(c, s);
    var kv1 := MigEndKv(key, c, s, p);
    MigEndFilled(key, s.dec, p.dec.store);
  }

  lemma MigEndKv<V>(key: Model<V>, c: SysConfig, s: Sys, p: K.Pair<V>) returns (kv1: K.Kv<V>)
    requires Inv(c, s) && Typed(c, s) && Enabled(c, s, MigEnd) && Step(c, s, MigEnd).Ok? && KvInvariant(key, c, s, p)
    ensures KvStep(key, c, s, MigEnd, p) == Ok(p.(ctx := kv1)) && Refined(c, p.(ctx := kv1))
    ensures ClearMigrated(s.ctx, s.dec.phase.mig).Ok?
    ensures kv1.bm == ClearMigrated(s.ctx, s.dec.phase.mig).value.sched.bm
    ensures CtxFilled(key, ClearMigrated(s.ctx, s.dec.phase.mig).value, kv1.store)
  {
    var m := s.dec.phase.mig;
    assert Pending(s)[0] == m && Reqs(Pending(s))[0] == m.req;
    kv1 := ClearKv(key, c.ctx, s.ctx, m, p.ctx);
    CtxOps(c, p, [K.Manage(Free(m.req.id))], kv1);
  }

  lemma QuietEvent<V>(key: Model<V>, c: SysConfig, s: Sys, e: Event, p: K.Pair<V>)
    requires Inv(c, s) && Typed(c, s) && Enabled(c, s, e) && Step(c, s, e).Ok? && KvInvariant(key, c, s, p)
    requires e.Arrive? || e.Bridge? || e.DecDone?
    ensures KvInvariant(key, c, Step(c, s, e).value, p)
  {
    var t := Step(c, s, e).value;
    SameDec(key, s.dec, t.dec, p.dec.store);
    forall j, r | PrefillsAt(t.ctx, j, r) ensures Full1(key, p.ctx.store, r) {
      assert PrefillsAt(s.ctx, j, r);
    }
  }

  lemma StepKv<V>(key: Model<V>, c: SysConfig, s: Sys, e: Event, p: K.Pair<V>)
    requires Inv(c, s) && Typed(c, s) && Enabled(c, s, e) && Step(c, s, e).Ok? && KvInvariant(key, c, s, p)
    ensures KvStep(key, c, s, e, p).Ok?
    ensures KvInvariant(key, c, Step(c, s, e).value, KvStep(key, c, s, e, p).value)
  {
    match e
    case CtxStep => CtxStepEvent(key, c, s, p);
    case CtxBack(ts) => CtxBackEvent(key, c, s, ts, p);
    case DecStep => DecStepEvent(key, c, s, p);
    case DecBack(ts) => DecBackEvent(key, c, s, ts, p);
    case MigBegin => MigBeginEvent(key, c, s, p);
    case MigEnd => MigEndEvent(key, c, s, p);
    case _ => QuietEvent(key, c, s, e, p);
  }

  lemma {:induction false} RunKv<V>(key: Model<V>, c: SysConfig, s: Sys, es: seq<Event>, p: K.Pair<V>)
    requires Inv(c, s) && Typed(c, s) && Possible(c, s, es) && Run(c, s, es).Ok? && KvInvariant(key, c, s, p)
    ensures KvRun(key, c, s, es, p).Ok?
    ensures KvInvariant(key, c, Run(c, s, es).value, KvRun(key, c, s, es, p).value)
    decreases |es|
  {
    if es != [] {
      StepInv(c, s, es[0]);
      StepKv(key, c, s, es[0], p);
      RunKv(key, c, Step(c, s, es[0]).value, es[1..], KvStep(key, c, s, es[0], p).value);
    }
  }

  /** Empty caches on top of whatever the memories hold. */
  function InitCaches<V>(c: SysConfig, ctxGpu: K.Mem<V>, ctxCpu: K.Mem<V>,
                         decGpu: K.Mem<V>, decCpu: K.Mem<V>): K.Pair<V>
  {
    K.Pair(K.InitKv(ctxGpu, ctxCpu, c.ctx.maxGpu, c.ctx.maxCpu), K.InitKv(decGpu, decCpu, c.dec.maxGpu, c.dec.maxCpu))
  }

  lemma InitKvInvariant<V>(key: Model<V>, c: SysConfig, ctxGpu: K.Mem<V>, ctxCpu: K.Mem<V>,
                           decGpu: K.Mem<V>, decCpu: K.Mem<V>)
    requires c.Valid()
    ensures KvInvariant(key, c, Init(c), InitCaches(c, ctxGpu, ctxCpu, decGpu, decCpu))
  {
    InitPartitioned(c.ctx.maxGpu, c.ctx.maxCpu);
    InitPartitioned(c.dec.maxGpu, c.dec.maxCpu);
    Delivery.EmptyFlatten(InitBatches(c.dec.pp));
  }

  // ---------------------------------------------------------------- the theorem

  /** The k-th request of the call runs its whole prompt or its newest token, and read through the call's tables,
      every position up to the last one is in a block of its table and holds what the tokens up to
      it determine. */
  ghost predicate SeesPrefix<V>(key: Model<V>, bs: nat, mem: K.Mem<V>, call: StepCall, k: nat, r: Req)
    requires bs >= 1
  {
    && k < |call.tables| && k < |call.first| && k < |call.inputs|
    && call.first[k] == (if r.output == [] then 0 else |Tokens(r)| - 1)
    && call.inputs[k] == Tokens(r)[call.first[k]..]
    && forall pos: nat :: pos < |Tokens(r)| ==>
         pos / bs < |call.tables[k]| && mem(call.tables[k][pos / bs], pos % bs) == ValueAt(key, r, pos)
  }

  /** What a request runs next: its whole prompt at first, and then its newest token. */
  lemma InputsAreLast(r: Req)
    ensures FirstNewTokenIndex(r) == if r.output == [] then 0 else |Tokens(r)| - 1
    ensures InputTokenIds(r) == Tokens(r)[FirstNewTokenIndex(r)..]
  {
    if r.output == [] {
      assert Tokens(r) == r.prompt;
    } else {
      var n := |Tokens(r)| - 1;
      assert Tokens(r)[n] == r.output[|r.output| - 1].id;
      assert Tokens(r)[n..] == [Tokens(r)[n]];
    }
  }

  lemma FullIsSeen<V>(key: Model<V>, bs: nat, kv: K.Kv<V>, rs: seq<Req>, k: nat)
    requires bs >= 1 && k < |rs| && K.Refines(bs, kv) && kv.bm.OnGpu(rs[k].id) && Full1(key, kv.store, rs[k])
    ensures SeesPrefix(key, bs, kv.gpu, CallOf(kv.bm, rs), k, rs[k])
  {
    var r := rs[k];
    InputsAreLast(r);
    forall pos: nat | pos < |Tokens(r)|
      ensures pos / bs < |kv.bm.table[r.id]| && kv.gpu(kv.bm.table[r.id][pos / bs], pos % bs) == ValueAt(key, r, pos)
    {
      assert pos in kv.store[r.id];
      assert K.ReadsBack(bs, kv, r.id, pos);
    }
  }

  /** In every run, whatever the memories held at first, each decoding call in flight sees exactly
      its requests' own prefixes. */
  lemma DecodeCallsSeePrefix<V>(key: Model<V>, c: SysConfig, es: seq<Event>, ctxGpu: K.Mem<V>, ctxCpu: K.Mem<V>,
                                decGpu: K.Mem<V>, decCpu: K.Mem<V>, i: nat, k: nat)
    requires c.Valid() && Typed(c, Init(c)) && Possible(c, Init(c), es) && Run(c, Init(c), es).Ok?
    requires var d := Run(c, Init(c), es).value.dec;
             i < |d.futures| && d.futures[i].Some? && k < |d.futures[i].value.ids|
    ensures var d := Run(c, Init(c), es).value.dec;
            var p := KvRun(key, c, Init(c), es, InitCaches(c, ctxGpu, ctxCpu, decGpu, decCpu));
            && p.Ok? && i < |d.pipeline| && 0 <= d.pipeline[i] < |d.sched.batches|
            && var rs := d.sched.batches[d.pipeline[i]].requests;
               d.futures[i].value.ids == Ids(rs)
               && SeesPrefix(key, c.dec.blockSize, p.value.dec.gpu, d.futures[i].value, k, rs[k])
  {
    InitInv(c);
    InitKvInvariant(key, c, ctxGpu, ctxCpu, decGpu, decCpu);
    RunKv(key, c, Init(c), es, InitCaches(c, ctxGpu, ctxCpu, decGpu, decCpu));
    RunInv(c, Init(c), es);
    var p := KvRun(key, c, Init(c), es, InitCaches(c, ctxGpu, ctxCpu, decGpu, decCpu)).value;
    DecodeCallSees(key, c, Run(c, Init(c), es).value, p, i, k);
  }

  lemma DecodeCallSees<V>(key: Model<V>, c: SysConfig, s: Sys, p: K.Pair<V>, i: nat, k: nat)
    requires Inv(c, s) && KvInvariant(key, c, s, p)
    requires i < |s.dec.futures| && s.dec.futures[i].Some? && k < |s.dec.futures[i].value.ids|
    ensures i < |s.dec.pipeline| && 0 <= s.dec.pipeline[i] < |s.dec.sched.batches|
    ensures var rs := s.dec.sched.batches[s.dec.pipeline[i]].requests;
            && s.dec.futures[i].value.ids == Ids(rs)
            && SeesPrefix(key, c.dec.blockSize, p.dec.gpu, s.dec.futures[i].value, k, rs[k])
  {
    var d := s.dec;
    assert InFlight(d, i);
    var j := d.pipeline[i];
    var rs := d.sched.batches[j].requests;
    assert BatchPlaced(c.dec, d.sched.bm, rs, j != OpenIndex(c.dec, d));
    assert RunsAt(d, i, rs[k]);
    FullIsSeen(key, c.dec.blockSize, p.dec, rs, k);
  }

  /** And so does each context call. */
  lemma ContextCallsSeePrefix<V>(key: Model<V>, c: SysConfig, es: seq<Event>, ctxGpu: K.Mem<V>, ctxCpu: K.Mem<V>,
                                 decGpu: K.Mem<V>, decCpu: K.Mem<V>, i: nat, k: nat)
    requires c.Valid() && Typed(c, Init(c)) && Possible(c, Init(c), es) && Run(c, Init(c), es).Ok?
    requires var x := Run(c, Init(c), es).value.ctx;
             i < |x.futures| && x.futures[i].Some? && k < |x.futures[i].value.ids|
    ensures var x := Run(c, Init(c), es).value.ctx;
            var p := KvRun(key, c, Init(c), es, InitCaches(c, ctxGpu, ctxCpu, decGpu, decCpu));
            && p.Ok? && i < |x.pipeline|
            && var rs := x.pipeline[i].requests;
               x.futures[i].value.ids == Ids(rs)
               && SeesPrefix(key, c.ctx.blockSize, p.value.ctx.gpu, x.futures[i].value, k, rs[k])
  {
    InitInv(c);
    InitKvInvariant(key, c, ctxGpu, ctxCpu, decGpu, decCpu);
    RunKv(key, c, Init(c), es, InitCaches(c, ctxGpu, ctxCpu, decGpu, decCpu));
    RunInv(c, Init(c), es);
    var p := KvRun(key, c, Init(c), es, InitCaches(c, ctxGpu, ctxCpu, decGpu, decCpu)).value;
    ContextCallSees(key, c, Run(c, Init(c), es).value, p, i, k);
  }

  lemma ContextCallSees<V>(key: Model<V>, c: SysConfig, s: Sys, p: K.Pair<V>, i: nat, k: nat)
    requires Inv(c, s) && KvInvariant(key, c, s, p)
    requires i < |s.ctx.futures| && s.ctx.futures[i].Some? && k < |s.ctx.futures[i].value.ids|
    ensures i < |s.ctx.pipeline|
    ensures var rs := s.ctx.pipeline[i].requests;
            && s.ctx.futures[i].value.ids == Ids(rs)
            && SeesPrefix(key, c.ctx.blockSize, p.ctx.gpu, s.ctx.futures[i].value, k, rs[k])
  {
    var x := s.ctx;
    assert CtxFlight(x, i) && AllFresh(x.pipeline[i].requests);
    var rs := x.pipeline[i].requests;
    assert rs[k] in rs && Fresh(rs[k]);
    assert Sized(c.ctx, x.sched.bm, rs);
    assert PrefillsAt(x, i, rs[k]);
    FullIsSeen(key, c.ctx.blockSize, p.ctx, rs, k);
  }
}
