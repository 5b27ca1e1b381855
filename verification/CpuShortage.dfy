/** The one exception a run can raise: a swap-out that finds too few CPU blocks. When it happens,
    exactly, and a run in which it does. */
module CpuShortage {
  import opened Common
  import opened Requests
  import opened Blocks
  import opened DecodeScheduler
  import opened DecodeEngine
  import opened Disaggregated

  /** The blocks of the requests a call of get_next_batch has to evict: from the end of the
      current batch, as long as the need overflows the GPU. */
  function EvictedBlocks(c: Config, s: Sched): nat
    requires Running(c, s)
    decreases |Current(c, s)|
  {
    if !Overflow(c, s) || Current(c, s) == [] then 0
    else |TableOf(s.bm, Current(c, s)[|Current(c, s)| - 1].id)| + EvictedBlocks(c, Popped(c, s))
  }

  /** It depends on the queues and on the tables of the current batch alone. */
  lemma {:induction false} EvictedAgree(c: Config, s: Sched, t: Sched)
    requires Running(c, s) && Running(c, t)
    requires t.batches == s.batches && t.cur == s.cur && t.waiting == s.waiting
    requires forall r :: r in Current(c, s) ==> TableOf(t.bm, r.id) == TableOf(s.bm, r.id)
    ensures EvictedBlocks(c, t) == EvictedBlocks(c, s)
    decreases |Current(c, s)|
  {
    if Overflow(c, s) && Current(c, s) != [] {
      var last := Current(c, s)[|Current(c, s)| - 1];
      assert last in Current(c, s);
      forall r | r in Current(c, Popped(c, s)) ensures TableOf(t.bm, r.id) == TableOf(s.bm, r.id) {
        assert r in Current(c, s);
      }
      EvictedAgree(c, Popped(c, s), Popped(c, t));
    }
  }

  /** One swap-out fails exactly when the victim does not fit, and takes what it holds. */
  lemma OneSwapOut(c: Config, s: Sched)
    requires Running(c, s) && SchedInv(c, s, [], s.cur) && Overflow(c, s)
    ensures Current(c, s) != []
    ensures var r := Current(c, s)[|Current(c, s)| - 1];
            && (SwapOutLast(c, s).Ok? <==> |TableOf(s.bm, r.id)| <= s.bm.cpu.Avail())
            && (SwapOutLast(c, s).Ok? ==>
                  && SwapOutLast(c, s).value.bm.cpu.Avail() == s.bm.cpu.Avail() - |TableOf(s.bm, r.id)|
                  && EvictedBlocks(c, SwapOutLast(c, s).value) == EvictedBlocks(c, Popped(c, s)))
  {
    OverflowMeansNonEmpty(c, s);
    var r := Current(c, s)[|Current(c, s)| - 1];
    assert BatchPlaced(c, s.bm, Current(c, s), false);
    assert r in Current(c, s);
    SwapSingle(s.bm, r.id, false);
    if SwapOutLast(c, s).Ok? {
      var s1 := SwapOutLast(c, s).value;
      CpuTaken(s.bm, r.id);
      SwapOutCounted(c, s, s1);
      AbsentIdInBatches(r.id, Popped(c, s).batches);
      MovesOnlyChanges(s.bm, s1.bm, r.id, false);
      EvictedAgree(c, Popped(c, s), s1);
    }
  }

  lemma CpuTaken(s: BlockState, id: int)
    requires s.At(id, GPU) && SwapRequests(s, [id], false).Ok?
    ensures SwapRequests(s, [id], false).value.cpu.Avail() == s.cpu.Avail() - |s.table[id]|
  {
    GetFreeBlocksSpec(s, |s.table[id]|, CPU);
    var (s1, blocks) := SwapOne(s, id, false).value;
    assert [id][1..] == [];
    assert SwapLoop(s, [id], false, [], []) == Ok(SwapResult(s1, [] + s.table[id], [] + blocks));
  }

  lemma {:induction false} SwapOutFailsIff(c: Config, s: Sched)
    requires Running(c, s) && SchedInv(c, s, [], s.cur)
    ensures SwapOutLoop(c, s).Err? <==> EvictedBlocks(c, s) > s.bm.cpu.Avail()
    decreases |Current(c, s)|
  {
    if Overflow(c, s) {
      OneSwapOut(c, s);
      if SwapOutLast(c, s).Ok? {
        SwapOutStep(c, s);
        SwapOutFailsIff(c, SwapOutLast(c, s).value);
      }
    }
  }

  /** In every reachable state, the next decoding step raises exactly when the requests it must
      evict hold more blocks than the CPU has available. */
  lemma DecodingStepFailsIff(c: SysConfig, s: Sys)
    requires Inv(c, s) && Enabled(c, s, DecStep)
    ensures Step(c, s, DecStep).Err? <==>
            EvictedBlocks(c.dec, Rotate(c.dec, s.dec.sched)) > s.dec.sched.bm.cpu.Avail()
    ensures Step(c, s, DecStep).Err? ==> Step(c, s, DecStep).error == OutOfCpuBlocks
  {
    SubmitFailsIff(c.dec, s.dec);
    SubmitSafe(c.dec, s.dec);
  }

  lemma SubmitFailsIff(c: Config, d: Dec)
    requires DecInv(c, d) && d.phase.Idle?
    ensures Submit(c, d).Err? <==> EvictedBlocks(c, Rotate(c, d.sched)) > d.sched.bm.cpu.Avail()
  {
    var s0 := Rotate(c, d.sched);
    assert SchedInv(c, s0, [], s0.cur) by {
      RotateInv(c, d.sched);
    }
    SwapOutFailsIff(c, s0);
    NextBatchFailsIff(c, s0);
    if GetNextBatch(c, d.sched).Ok? {
      SubmitGoesOn(c, d);
    }
  }

  lemma RotateInv(c: Config, s: Sched)
    requires Shape(c, s) && SchedInv(c, s, [], Next(s.cur, c.pp))
    ensures SchedInv(c, Rotate(c, s), [], Next(s.cur, c.pp))
  {
    var t := Rotate(c, s);
    forall id ensures AllSum(IdF(id), t, []) == AllSum(IdF(id), s, []) {
    }
  }

  /** Admission after a successful swap-out raises nothing. */
  lemma NextBatchFailsIff(c: Config, s0: Sched)
    requires Running(c, s0) && SchedInv(c, s0, [], s0.cur)
    ensures SwapOutLoop(c, s0).Ok? ==> AdmitLoop(c, SwapOutLoop(c, s0).value).Ok?
  {
    SwapOutLoopSafe(c, s0);
    if SwapOutLoop(c, s0).Ok? {
      AdmitLoopSafe(c, SwapOutLoop(c, s0).value);
    }
  }

  lemma SubmitGoesOn(c: Config, d: Dec)
    requires DecInv(c, d) && d.phase.Idle? && GetNextBatch(c, d.sched).Ok?
    ensures Submit(c, d).Ok?
  {
    GetNextBatchSafe(c, d.sched);
    GetNextBatchIntact(c, d.sched);
    var s := GetNextBatch(c, d.sched).value;
    if Current(c, s) != [] {
      SubmitNonEmpty(c, d, s);
    }
  }
}
