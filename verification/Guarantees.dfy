/** What every reachable state of the two engines guarantees. Each lemma starts from the
    invariant that Disaggregated.RunsAreSafe establishes for every run. */
module Guarantees {
  import opened Requests
  import opened Blocks
  import opened DecodeScheduler
  import opened DecodeEngine
  import opened ContextEngine
  import opened Disaggregated

  // ---------------------------------------------------------------- slots of a submitted call

  /** Every position the k-th request of the call writes lies in its own block table, and the table
      has no block too many. */
  predicate CoversSlots(blockSize: nat, call: StepCall, k: nat)
  {
    && k < |call.inputs| && k < |call.first| && k < |call.tables|
    && 0 <= call.first[k]
    && call.first[k] + |call.inputs[k]| <= |call.tables[k]| * blockSize
    && (|call.tables[k]| - 1) * blockSize < call.first[k] + |call.inputs[k]|
  }

  /** A table of ceil(tokens / blockSize) blocks has a slot for every position up to the last. */
  lemma NeedCovers(c: Config, r: Req, blocks: nat)
    requires c.Valid() && blocks == Need(r, c.blockSize)
    ensures 0 <= FirstNewTokenIndex(r)
    ensures FirstNewTokenIndex(r) + NumInputTokens(r) <= blocks * c.blockSize
    ensures (blocks - 1) * c.blockSize < FirstNewTokenIndex(r) + NumInputTokens(r)
  {
    BlocksForIsCeiling(|r.prompt| + |r.output|, c.blockSize);
  }

  lemma CallCovers(c: Config, bm: BlockState, rs: seq<Req>, k: nat)
    requires c.Valid() && k < |rs|
    requires |TableOf(bm, rs[k].id)| == Need(rs[k], c.blockSize)
    ensures CoversSlots(c.blockSize, CallOf(bm, rs), k)
  {
    NeedCovers(c, rs[k], |TableOf(bm, rs[k].id)|);
  }

  /** Slot capacity in the decoding stage: in every reachable state, for every call in flight,
      the slots the forward pass touches exist in the request's own table. */
  lemma DecodeSlots(c: SysConfig, s: Sys, i: nat, k: nat)
    requires Inv(c, s) && i < |s.dec.futures| && s.dec.futures[i].Some?
    requires k < |s.dec.futures[i].value.ids|
    ensures CoversSlots(c.dec.blockSize, s.dec.futures[i].value, k)
  {
    var d := s.dec;
    assert InFlight(d, i);
    var rs := d.sched.batches[d.pipeline[i]].requests;
    assert d.pipeline[i] != OpenIndex(c.dec, d) by {
      assert d.pipeline[i] in d.pipeline;
      if !d.phase.Submitted? {
        NextNotInPipeline(c.dec, d);
      }
    }
    assert BatchPlaced(c.dec, d.sched.bm, rs, true);
    assert rs[k] in rs;
    CallCovers(c.dec, d.sched.bm, rs, k);
  }

  /** The same for the context stage, where a call covers the whole prompt. */
  lemma ContextSlots(c: SysConfig, s: Sys, i: nat, k: nat)
    requires Inv(c, s) && i < |s.ctx.futures| && s.ctx.futures[i].Some?
    requires k < |s.ctx.futures[i].value.ids|
    ensures CoversSlots(c.ctx.blockSize, s.ctx.futures[i].value, k)
  {
    PrefillCovers(c.ctx, s.ctx, i, k);
  }

  lemma PrefillCovers(c: Config, x: Ctx, i: nat, k: nat)
    requires CtxInv(c, x) && i < |x.futures| && x.futures[i].Some? && k < |x.futures[i].value.ids|
    ensures CoversSlots(c.blockSize, x.futures[i].value, k)
  {
    PrefillIsFrozen(c, x, i);
    var rs := x.pipeline[i].requests;
    assert rs[k] in rs && Fresh(rs[k]);
    CallCovers(c, x.sched.bm, rs, k);
  }

  /** A context call in flight is that of its batch: fresh requests with the blocks of their prompts. */
  lemma PrefillIsFrozen(c: Config, x: Ctx, i: nat)
    requires CtxInv(c, x) && i < |x.futures| && x.futures[i].Some?
    ensures i < |x.pipeline| && x.futures[i].value == CallOf(x.sched.bm, x.pipeline[i].requests)
    ensures AllFresh(x.pipeline[i].requests) && Sized(c, x.sched.bm, x.pipeline[i].requests)
  {
    assert CtxFlight(x, i) && AllFresh(x.pipeline[i].requests);
  }

  /** Slots of different requests in flight in the decoding engine are different cells, whether
      they belong to one call or to two. */
  lemma DecodeSlotsApart(c: SysConfig, s: Sys, i: nat, k: nat, j: nat, l: nat, b: nat)
    requires Inv(c, s) && (i, k) != (j, l)
    requires i < |s.dec.futures| && s.dec.futures[i].Some? && k < |s.dec.futures[i].value.tables|
    requires j < |s.dec.futures| && s.dec.futures[j].Some? && l < |s.dec.futures[j].value.tables|
    requires b in s.dec.futures[i].value.tables[k]
    ensures b !in s.dec.futures[j].value.tables[l]
    ensures b < c.dec.maxGpu && b !in s.dec.sched.bm.gpu.free && b !in s.dec.sched.bm.gpu.swapping
  {
    InFlightIsFrozen(c, s, i);
    InFlightIsFrozen(c, s, j);
    DecodeIdsDiffer(c.dec, s.dec, i, k, j, l);
    var bm, bi := s.dec.sched.bm, s.dec.sched.batches[s.dec.pipeline[i]].requests;
    assert bi[k] in bi;
    PartitionSeparates(bm, GPU, c.dec.maxGpu, bi[k].id, b);
    var bj := s.dec.sched.batches[s.dec.pipeline[j]].requests;
    assert bj[l] in bj;
  }

  lemma DecodeIdsDiffer(c: Config, d: Dec, i: nat, k: nat, j: nat, l: nat)
    requires DecInv(c, d) && (i, k) != (j, l) && i < |d.pipeline| && j < |d.pipeline|
    requires i != j ==> d.pipeline[i] != d.pipeline[j]
    requires k < |d.sched.batches[d.pipeline[i]].requests| && l < |d.sched.batches[d.pipeline[j]].requests|
    ensures d.sched.batches[d.pipeline[i]].requests[k].id != d.sched.batches[d.pipeline[j]].requests[l].id
  {
    var id := d.sched.batches[d.pipeline[i]].requests[k].id;
    assert AllSum(IdF(id), d.sched, MigReqs(d)) <= 1;
    PositionsDiffer(d.sched.batches, d.pipeline[i], k, d.pipeline[j], l);
  }

  /** The same in the context engine. */
  lemma ContextSlotsApart(c: SysConfig, s: Sys, i: nat, k: nat, j: nat, l: nat, b: nat)
    requires Inv(c, s) && (i, k) != (j, l)
    requires i < |s.ctx.futures| && s.ctx.futures[i].Some? && k < |s.ctx.futures[i].value.tables|
    requires j < |s.ctx.futures| && s.ctx.futures[j].Some? && l < |s.ctx.futures[j].value.tables|
    requires b in s.ctx.futures[i].value.tables[k]
    ensures b !in s.ctx.futures[j].value.tables[l]
    ensures b < c.ctx.maxGpu && b !in s.ctx.sched.bm.gpu.free && b !in s.ctx.sched.bm.gpu.swapping
  {
    var x := s.ctx;
    assert CtxFlight(x, i) && CtxFlight(x, j);
    var bi, bj := x.pipeline[i].requests, x.pipeline[j].requests;
    assert HeldSum(IdF(bi[k].id), x.pipeline, x.sched.unaccepted, []) <= 1;
    PositionsDiffer(x.pipeline, i, k, j, l);
    assert Sized(c.ctx, x.sched.bm, bi) && Sized(c.ctx, x.sched.bm, bj);
    assert bi[k] in bi && bj[l] in bj;
    PartitionSeparates(x.sched.bm, GPU, c.ctx.maxGpu, bi[k].id, b);
  }

  /** A batch in flight is never extended, shortened or swapped: until it returns, its requests,
      their inputs and their GPU tables are exactly those of the call. */
  lemma InFlightIsFrozen(c: SysConfig, s: Sys, i: nat)
    requires Inv(c, s) && i < |s.dec.futures| && s.dec.futures[i].Some?
    ensures var b := s.dec.sched.batches[s.dec.pipeline[i]];
            && s.dec.futures[i].value == CallOf(s.dec.sched.bm, b.requests)
            && AllOnGpu(s.dec.sched.bm, b.requests)
            && RunNewest(s.dec.futures[i].value, b.requests)
            && (forall j :: 0 <= j < |s.dec.pipeline| && j != i ==> s.dec.pipeline[j] != s.dec.pipeline[i])
  {
    FlightIs(c.dec, s.dec, i);
    FlightsDiffer(c.dec, s.dec, i);
  }

  /** Each request runs the newest of its tokens. */
  ghost predicate RunNewest(call: StepCall, rs: seq<Req>) {
    && |call.inputs| == |rs|
    && forall k :: 0 <= k < |rs| ==>
         rs[k].output != [] && call.inputs[k] == [rs[k].output[|rs[k].output| - 1].id]
  }

  lemma FlightIs(c: Config, d: Dec, i: nat)
    requires DecInv(c, d) && i < |d.futures| && d.futures[i].Some?
    ensures var rs := d.sched.batches[d.pipeline[i]].requests;
            && d.futures[i].value == CallOf(d.sched.bm, rs)
            && AllOnGpu(d.sched.bm, rs) && RunNewest(d.futures[i].value, rs)
  {
    assert InFlight(d, i);
    var j := d.pipeline[i];
    var rs := d.sched.batches[j].requests;
    assert BatchPlaced(c, d.sched.bm, rs, j != OpenIndex(c, d));
    forall k | 0 <= k < |rs| ensures rs[k].output != [] {
      assert rs[k] in rs;
    }
  }

  lemma FlightsDiffer(c: Config, d: Dec, i: nat)
    requires IndicesOk(c, d) && Rotation(c, d) && i < |d.pipeline|
    ensures forall j :: 0 <= j < |d.pipeline| && j != i ==> d.pipeline[j] != d.pipeline[i]
  {
  }

  // ---------------------------------------------------------------- ownership

  /** A request that has been through the context stage and is not finished. */
  ghost predicate PostPrefill(s: Sys, r: Req) {
    || r in s.ctx.sched.unaccepted
    || (exists j :: 0 <= j < |s.dec.sched.batches| && r in s.dec.sched.batches[j].requests)
    || r in s.dec.sched.waiting
    || r in s.dec.sched.swapped
  }

  /** Its blocks are in exactly one of the two managers, except while it is being migrated, when
      both sides hold them. */
  lemma BlocksInOneManager(c: SysConfig, s: Sys, r: Req)
    requires Inv(c, s) && PostPrefill(s, r)
    ensures if s.dec.phase.Migrating? && s.dec.phase.mig.req.id == r.id
            then r.id in s.ctx.sched.bm.table && r.id in s.dec.sched.bm.table
            else r.id in s.ctx.sched.bm.table <==> r.id !in s.dec.sched.bm.table
  {
    if s.dec.phase.Migrating? {
      assert Pending(s)[0] == s.dec.phase.mig;
      assert Pending(s)[0] in Pending(s);
      assert s.dec.phase.mig.req in MigReqs(s.dec);
    }
    if r in s.ctx.sched.unaccepted {
      InHeld(c.ctx, s.ctx.sched.bm, s.ctx.pipeline, s.ctx.sched.unaccepted, [], r);
      UnacceptedNotDecoding(s, r.id);
    } else if j :| 0 <= j < |s.dec.sched.batches| && r in s.dec.sched.batches[j].requests {
      assert BatchPlaced(c.dec, s.dec.sched.bm, s.dec.sched.batches[j].requests, j != OpenIndex(c.dec, s.dec));
    }
  }

  lemma UnacceptedNotDecoding(s: Sys, id: int)
    requires Apart(s) && id in s.ctx.sched.bm.table
    ensures id in s.dec.sched.bm.table ==> s.dec.phase.Migrating? && s.dec.phase.mig.req.id == id
  {
  }

  // ---------------------------------------------------------------- outputs and leaks

  /** A request anywhere in the system. */
  ghost predicate Present(s: Sys, r: Req) {
    || r in s.ctx.sched.waiting
    || (exists j :: 0 <= j < |s.ctx.pipeline| && r in s.ctx.pipeline[j].requests)
    || PostPrefill(s, r)
  }

  /** Nobody ever has more output than asked for, and nobody finished lingers. */
  lemma OutputsBounded(c: SysConfig, s: Sys, r: Req)
    requires Inv(c, s) && Present(s, r)
    ensures |r.output| < r.sampling.maxTokens && !r.finished
  {
    if j :| 0 <= j < |s.ctx.pipeline| && r in s.ctx.pipeline[j].requests {
      assert CtxFlight(s.ctx, j) && AllFresh(s.ctx.pipeline[j].requests);
    } else if j :| 0 <= j < |s.dec.sched.batches| && r in s.dec.sched.batches[j].requests {
      assert BatchPlaced(c.dec, s.dec.sched.bm, s.dec.sched.batches[j].requests, j != OpenIndex(c.dec, s.dec));
    }
  }

  lemma NoTableWithoutOwner(c: SysConfig, s: Sys)
    requires Inv(c, s) && forall r :: !Present(s, r)
    ensures s.ctx.sched.bm.table == map[] && s.dec.sched.bm.table == map[]
  {
    forall j | 0 <= j < |s.ctx.pipeline| ensures s.ctx.pipeline[j].requests == [] {
      if s.ctx.pipeline[j].requests != [] {
        assert Present(s, s.ctx.pipeline[j].requests[0]);
      }
    }
    forall j | 0 <= j < |s.dec.sched.batches| ensures s.dec.sched.batches[j].requests == [] {
      if s.dec.sched.batches[j].requests != [] {
        assert Present(s, s.dec.sched.batches[j].requests[0]);
      }
    }
    NobodyQueued(s);
    forall id ensures id !in s.ctx.sched.bm.table && id !in s.dec.sched.bm.table {
      SumBatchesEmpty(IdF(id), s.ctx.pipeline);
      SumBatchesEmpty(IdF(id), s.dec.sched.batches);
      assert HeldSum(IdF(id), s.ctx.pipeline, s.ctx.sched.unaccepted, []) == 0;
      assert AllSum(IdF(id), s.dec.sched, MigReqs(s.dec)) == 0;
    }
  }

  lemma NobodyQueued(s: Sys)
    requires forall r :: !Present(s, r)
    requires Reqs(Pending(s)) == s.ctx.sched.unaccepted
    ensures s.ctx.sched.unaccepted == [] && s.dec.sched.waiting == [] && s.dec.sched.swapped == []
    ensures MigReqs(s.dec) == []
  {
    if s.ctx.sched.unaccepted != [] {
      assert Present(s, s.ctx.sched.unaccepted[0]);
    }
    if s.dec.sched.waiting != [] {
      assert Present(s, s.dec.sched.waiting[0]);
    }
    if s.dec.sched.swapped != [] {
      assert Present(s, s.dec.sched.swapped[0]);
    }
    assert |Reqs(Pending(s))| == |Pending(s)| >= |MigReqs(s.dec)|;
  }

  /** No leak: when no live request remains, both managers have every block available again. */
  lemma NoLeak(c: SysConfig, s: Sys)
    requires Inv(c, s) && forall r :: !Present(s, r)
    ensures s.ctx.sched.bm.gpu.Avail() == c.ctx.maxGpu && s.ctx.sched.bm.cpu.Avail() == c.ctx.maxCpu
    ensures s.dec.sched.bm.gpu.Avail() == c.dec.maxGpu && s.dec.sched.bm.cpu.Avail() == c.dec.maxCpu
  {
    NoTableWithoutOwner(c, s);
    EmptyMeansAllAvailable(s.ctx.sched.bm, c.ctx.maxGpu, c.ctx.maxCpu);
    EmptyMeansAllAvailable(s.dec.sched.bm, c.dec.maxGpu, c.dec.maxCpu);
  }
}
