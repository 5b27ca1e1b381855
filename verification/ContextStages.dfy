/** The context scheduler and engine as mutable objects (distserve/context_stage_scheduler.py,
    distserve/single_stage_engine.py). */
module ContextStages {
  import opened Common
  import opened Sums
  import opened Requests
  import opened Blocks
  import opened DecodeScheduler
  import opened DecodeEngine
  import opened ContextEngine
  import opened BlockManagers

  /** The queue between the engines. */
  class BridgeQueue {
    var items: seq<Mig>

    constructor ()
      ensures items == []
    {
      items := [];
    }

    method Put(m: Mig)
      modifies this
      ensures items == old(items) + [m]
    {
      items := items + [m];
    }

    method Get() returns (m: Mig)
      requires items != []
      modifies this
      ensures m == old(items)[0] && items == old(items)[1..]
    {
      m := items[0];
      items := items[1..];
    }
  }

  class ContextStageFCFSScheduler {
    const config: Config
    const blockManager: BlockManager
    var waitingQueue: seq<Req>
    var unacceptedQueue: seq<Req>
    var numOnFlyRequestBlock: int

    ghost predicate Valid() {
      && config.Valid()
      && blockManager.blockSize == config.blockSize && blockManager.maxNumGpuBlocks == config.maxGpu
    }

    ghost function View(): CtxSched
      reads this, blockManager
    {
      CtxSched(waitingQueue, unacceptedQueue, numOnFlyRequestBlock, blockManager.View())
    }

    constructor (config: Config, blockManager: BlockManager)
      requires config.Valid()
      requires blockManager.blockSize == config.blockSize && blockManager.maxNumGpuBlocks == config.maxGpu
      ensures Valid() && this.config == config && this.blockManager == blockManager
      ensures View() == CtxSched([], [], 0, blockManager.View())
    {
      this.config := config;
      this.blockManager := blockManager;
      waitingQueue := [];
      unacceptedQueue := [];
      numOnFlyRequestBlock := 0;
    }

    function CheckAddToCurBatch(picked: seq<Req>, request: Req): (b: bool)
      requires Valid()
      reads this, blockManager
      ensures b == CheckPick(config, View(), picked, request)
    {
      && |picked| < config.maxBatchSize
      && Sum(NumInputTokensF(), picked) + NumInputTokens(request) <= config.maxTokensPerBatch
      && Sum(InNeedF(config.blockSize), picked + [request]) + Sum(InNeedF(config.blockSize), unacceptedQueue)
         + numOnFlyRequestBlock <= blockManager.maxNumGpuBlocks
    }

    method GetNextBatchAndPop() returns (raised: Option<Error>, nextBatch: seq<Req>)
      requires Valid()
      modifies this
      ensures var res := NextBatchAndPop(config, old(View()));
              if res.Ok? then raised.None? && res.value == (View(), nextBatch)
              else raised == Some(res.error)
    {
      nextBatch := [];
      while |waitingQueue| > 0
        invariant PickLoop(config, View(), nextBatch) == PickLoop(config, old(View()), [])
        invariant numOnFlyRequestBlock == old(numOnFlyRequestBlock)
        decreases |waitingQueue|
      {
        var request := waitingQueue[0];
        if !CheckAddToCurBatch(nextBatch, request) {
          break;
        }
        if request.id in Ids(nextBatch) {
          return Some(DuplicateInBatch), nextBatch;
        }
        nextBatch := nextBatch + [request];
        waitingQueue := waitingQueue[1..];
      }
      numOnFlyRequestBlock := numOnFlyRequestBlock + Sum(InNeedF(config.blockSize), nextBatch);
      return None, nextBatch;
    }

    method OnFinishRequests(batch: seq<Req>)
      requires Valid()
      modifies this
      ensures View() == OnFinish(config, old(View()), batch)
    {
      for k := 0 to |batch|
        invariant unacceptedQueue == old(unacceptedQueue) + Unfinished(batch[..k])
        invariant waitingQueue == old(waitingQueue) && numOnFlyRequestBlock == old(numOnFlyRequestBlock)
      {
        FinishedSnoc(batch[..k], batch[k]);
        assert batch[..k + 1] == batch[..k] + [batch[k]];
        if !batch[k].finished {
          unacceptedQueue := unacceptedQueue + [batch[k]];
        }
      }
      assert batch[..|batch|] == batch;
      numOnFlyRequestBlock := numOnFlyRequestBlock - Sum(InNeedF(config.blockSize), batch);
    }

    method OnRequestMigrated(m: Mig)
      modifies this`unacceptedQueue
      ensures unacceptedQueue == RemoveFirst(old(unacceptedQueue), m.req.id)
    {
      RemoveFirstAt(unacceptedQueue, m.req.id, 0);
      for k := 0 to |unacceptedQueue|
        invariant unacceptedQueue == old(unacceptedQueue)
        invariant forall i :: 0 <= i < k ==> unacceptedQueue[i].id != m.req.id
      {
        if unacceptedQueue[k].id == m.req.id {
          RemoveFirstAt(unacceptedQueue, m.req.id, k);
          unacceptedQueue := unacceptedQueue[..k] + unacceptedQueue[k + 1..];
          return;
        }
      }
      RemoveFirstAt(unacceptedQueue, m.req.id, |unacceptedQueue|);
    }
  }

  /** What the deletion at the first matching index does. */
  lemma {:induction false} RemoveFirstAt(rs: seq<Req>, id: int, k: nat)
    requires k <= |rs| && forall i :: 0 <= i < k ==> rs[i].id != id
    ensures k < |rs| && rs[k].id == id ==> RemoveFirst(rs, id) == rs[..k] + rs[k + 1..]
    ensures k == |rs| ==> RemoveFirst(rs, id) == rs
  {
    if k > 0 {
      RemoveFirstAt(rs[1..], id, k - 1);
      assert rs == [rs[0]] + rs[1..];
    }
  }

  function After(done: seq<Mig>, rest: Result<(BlockState, seq<Mig>)>): Result<(BlockState, seq<Mig>)> {
    match rest
    case Ok((bm, migs)) => Ok((bm, done + migs))
    case Err(e) => Err(e)
  }

  lemma AfterPut(done: seq<Mig>, m: Mig, rest: Result<(BlockState, seq<Mig>)>)
    ensures After(done, After([m], rest)) == After(done + [m], rest)
  {
    if rest.Ok? {
      assert done + ([m] + rest.value.1) == done + [m] + rest.value.1;
    }
  }

  lemma AfterNothing(rest: Result<(BlockState, seq<Mig>)>)
    ensures After([], rest) == rest
  {
    if rest.Ok? {
      assert [] + rest.value.1 == rest.value.1;
    }
  }

  class ContextStageLLMEngine {
    const config: Config
    const blockManager: BlockManager
    const scheduler: ContextStageFCFSScheduler
    const bridgeQueue: BridgeQueue
    var batchesInPipeline: seq<Batch>
    var batchesRetFutures: seq<Option<StepCall>>
    var submitted: bool

    ghost predicate Linked() {
      && scheduler.Valid() && scheduler.config == config && scheduler.blockManager == blockManager
      && blockManager.blockSize == config.blockSize
    }

    ghost function View(): Ctx
      reads this, scheduler, scheduler.blockManager
    {
      Ctx(scheduler.View(), batchesInPipeline, batchesRetFutures, submitted)
    }

    ghost predicate Valid()
      reads this, scheduler, scheduler.blockManager
    {
      Linked() && CtxInv(config, View())
    }

    constructor (config: Config, bridgeQueue: BridgeQueue)
      requires config.Valid()
      ensures Valid() && this.config == config && this.bridgeQueue == bridgeQueue && View() == InitCtx(config)
      ensures fresh(scheduler) && fresh(blockManager)
    {
      this.config := config;
      this.bridgeQueue := bridgeQueue;
      var manager := new BlockManager(config.blockSize, config.maxGpu, config.maxCpu);
      blockManager := manager;
      var sched := new ContextStageFCFSScheduler(config, manager);
      scheduler := sched;
      batchesInPipeline := [];
      batchesRetFutures := [];
      submitted := false;
      new;
      InitCtxInv(config);
      assert View() == InitCtx(config);
    }

    method SubmitCore() returns (raised: Option<Error>)
      requires Linked()
      modifies this, scheduler, blockManager
      ensures Agrees(raised, CtxSubmit(config, old(View())), View())
    {
      var picked;
      raised, picked := scheduler.GetNextBatchAndPop();
      if raised.Some? {
        return;
      }
      if picked == [] {
        batchesInPipeline := batchesInPipeline + [Batch([], false)];
        batchesRetFutures := batchesRetFutures + [None];
      } else {
        raised := blockManager.AllocateBlocksBatched(picked);
        if raised.Some? {
          return;
        }
        if exists k :: 0 <= k < |picked| && picked[k].id !in blockManager.blockTable {
          return Some(NotAllocated);
        }
        batchesInPipeline := batchesInPipeline + [Batch(picked, true)];
        batchesRetFutures := batchesRetFutures + [Some(CallOf(blockManager.View(), picked))];
      }
      submitted := true;
    }

    /** The context step up to its await raises nothing at all. */
    method SubmitStep() returns (raised: Option<Error>)
      requires Valid() && !submitted
      modifies this, scheduler, blockManager
      ensures Valid() && raised.None? && submitted
      ensures CtxSubmit(config, old(View())) == Ok(View())
    {
      CtxSubmitSafe(config, View());
      raised := SubmitCore();
    }

    /** The last loop of the step. */
    method DispatchRequests(rs: seq<Req>) returns (raised: Option<Error>)
      modifies blockManager, bridgeQueue
      ensures var res := Dispatch(old(blockManager.View()), rs);
              if res.Ok? then raised.None? && blockManager.View() == res.value.0
                              && bridgeQueue.items == old(bridgeQueue.items) + res.value.1
              else raised == Some(res.error)
    {
      ghost var done: seq<Mig> := [];
      assert rs[0..] == rs;
      AfterNothing(Dispatch(blockManager.View(), rs));
      for k := 0 to |rs|
        invariant bridgeQueue.items == old(bridgeQueue.items) + done
        invariant Dispatch(old(blockManager.View()), rs) == After(done, Dispatch(blockManager.View(), rs[k..]))
      {
        assert rs[k..][0] == rs[k] && rs[k..][1..] == rs[k + 1..];
        if rs[k].finished {
          var e := blockManager.FreeBlocksOf(rs[k].id);
          if e.Some? {
            return e;
          }
        } else {
          if rs[k].id !in blockManager.blockTable {
            return Some(NotAllocated);
          }
          var m := Mig(rs[k], blockManager.blockTable[rs[k].id]);
          AfterPut(done, m, Dispatch(blockManager.View(), rs[k + 1..]));
          bridgeQueue.Put(m);
          done := done + [m];
        }
      }
      return None;
    }

    method ReturnCore(tokens: seq<Token>) returns (raised: Option<Error>)
      requires Linked() && |batchesRetFutures| == |batchesInPipeline|
      modifies this, scheduler, blockManager, bridgeQueue
      ensures var res := CtxReturn(config, old(View()), tokens);
              if res.Ok? then raised.None? && View() == res.value.0
                              && bridgeQueue.items == old(bridgeQueue.items) + res.value.1
              else raised == Some(res.error)
    {
      if |batchesInPipeline| == config.pp {
        if batchesRetFutures[0].None? {
          batchesInPipeline := batchesInPipeline[1..];
          batchesRetFutures := batchesRetFutures[1..];
        } else {
          var finished := FinishIteration(batchesInPipeline[0], tokens);
          if finished.Err? {
            return Some(finished.error);
          }
          var batch := finished.value.requests;
          scheduler.OnFinishRequests(batch);
          batchesInPipeline := batchesInPipeline[1..];
          batchesRetFutures := batchesRetFutures[1..];
          raised := DispatchRequests(batch);
          if raised.Some? {
            return;
          }
        }
      }
      submitted := false;
      return None;
    }

    method ReturnStep(tokens: seq<Token>) returns (raised: Option<Error>)
      requires Valid() && submitted && CtxTokensFor(config, View(), tokens)
      modifies this, scheduler, blockManager, bridgeQueue
      ensures Valid() && raised.None? && !submitted
      ensures CtxReturn(config, old(View()), tokens).Ok?
      ensures var (x, migs) := CtxReturn(config, old(View()), tokens).value;
              View() == x && bridgeQueue.items == old(bridgeQueue.items) + migs
    {
      CtxReturnSafe(config, View(), tokens);
      raised := ReturnCore(tokens);
    }

    /** clear_migrated_blocks_callback. */
    method ClearMigratedBlocks(m: Mig) returns (raised: Option<Error>)
      requires Linked()
      modifies scheduler, blockManager
      ensures Agrees(raised, ClearMigrated(old(View()), m), View())
    {
      raised := blockManager.FreeBlocksOf(m.req.id);
      if raised.None? {
        scheduler.OnRequestMigrated(m);
      }
    }

    method AddRequest(r: Req)
      modifies scheduler`waitingQueue
      ensures View() == CtxArrive(old(View()), r)
    {
      scheduler.waitingQueue := scheduler.waitingQueue + [r];
    }
  }
}
