/** The decoding engine as the mutable object of distserve/single_stage_engine.py. Its step is
    cut at its awaits into SubmitStep, ReturnStep, the two halves of a migration and FinishStep;
    `phase` is where the coroutine stands. Every method keeps the engine invariant. */
module DecodingStages {
  import opened Common
  import opened Requests
  import opened Blocks
  import opened DecodeScheduler
  import opened DecodeEngine
  import opened BlockManagers
  import opened DecodingStageSchedulers

  class DecodingStageLLMEngine {
    const config: Config
    const blockManager: BlockManager
    const scheduler: DecodingStageFCFSScheduler
    var batchesInPipeline: seq<int>  // references into scheduler.batchQueues
    var batchesRetFutures: seq<Option<StepCall>>
    var phase: Phase

    ghost predicate Linked()
      reads this, scheduler
    {
      && scheduler.Valid() && scheduler.config == config && scheduler.blockManager == blockManager
      && blockManager.blockSize == config.blockSize
    }

    ghost function View(): Dec
      reads this, scheduler, scheduler.blockManager
    {
      Dec(scheduler.View(), batchesInPipeline, batchesRetFutures, phase)
    }

    ghost predicate Valid()
      reads this, scheduler, scheduler.blockManager
    {
      Linked() && DecInv(config, View())
    }

    constructor (config: Config)
      requires config.Valid()
      ensures Valid() && this.config == config && View() == InitDec(config)
      ensures fresh(scheduler) && fresh(blockManager)
    {
      this.config := config;
      var manager := new BlockManager(config.blockSize, config.maxGpu, config.maxCpu);
      blockManager := manager;
      var sched := new DecodingStageFCFSScheduler(config, manager);
      scheduler := sched;
      batchesInPipeline := [];
      batchesRetFutures := [];
      phase := Idle;
      new;
      InitDecInv(config);
      assert View() == InitDec(config);
    }

    /** get_partial_block_table and the other arguments of the remote call. */
    method MakeStepCall(requests: seq<Req>) returns (raised: Option<Error>, call: StepCall)
      ensures MakeCall(blockManager.View(), requests).Ok? <==> raised.None?
      ensures raised.None? ==> call == MakeCall(blockManager.View(), requests).value
      ensures raised.Some? ==> raised.value == NotAllocated
    {
      var ids, inputs, first, tables := [], [], [], [];
      call := StepCall(ids, inputs, first, tables);
      for k := 0 to |requests|
        invariant |ids| == |inputs| == |first| == |tables| == k
        invariant forall i :: 0 <= i < k ==>
                    && requests[i].id in blockManager.blockTable
                    && ids[i] == requests[i].id && inputs[i] == InputTokenIds(requests[i])
                    && first[i] == FirstNewTokenIndex(requests[i])
                    && tables[i] == TableOf(blockManager.View(), requests[i].id)
      {
        if requests[k].id !in blockManager.blockTable {
          assert requests[k] in requests;
          return Some(NotAllocated), call;
        }
        ids := ids + [requests[k].id];
        inputs := inputs + [InputTokenIds(requests[k])];
        first := first + [FirstNewTokenIndex(requests[k])];
        tables := tables + [blockManager.blockTable[requests[k].id]];
      }
      call := StepCall(ids, inputs, first, tables);
      var want := CallOf(blockManager.View(), requests);
      assert ids == want.ids && inputs == want.inputs && first == want.first && tables == want.tables;
      return None, call;
    }

    /** The step up to its await, as the specification function describes it. */
    method SubmitCore() returns (raised: Option<Error>)
      requires Linked()
      modifies this, scheduler, blockManager
      ensures Linked()
      ensures Agrees(raised, Submit(config, old(View())), View())
    {
      raised := scheduler.GetNextBatchIndex();
      if raised.Some? {
        return;
      }
      var cur := scheduler.curIndex;
      var requests := scheduler.batchQueues[cur].requests;
      if requests == [] {
        batchesInPipeline := batchesInPipeline + [cur];
        batchesRetFutures := batchesRetFutures + [None];
      } else {
        raised := blockManager.AllocateBlocksBatched(requests);
        if raised.Some? {
          return;
        }
        var onGpu := blockManager.IsAllRequestsOnGpu(requests);
        if !onGpu {
          return Some(NotAllOnGpu);
        }
        if scheduler.batchQueues[cur].started {
          return Some(AlreadyStarted);
        }
        var e, call := MakeStepCall(requests);
        if e.Some? {
          return e;
        }
        scheduler.batchQueues := scheduler.batchQueues[cur := scheduler.batchQueues[cur].(started := true)];
        batchesInPipeline := batchesInPipeline + [cur];
        batchesRetFutures := batchesRetFutures + [Some(call)];
      }
      phase := Submitted;
    }

    /** The step up to its await never raises except for want of CPU blocks. */
    method SubmitStep() returns (raised: Option<Error>)
      requires Valid() && phase.Idle?
      modifies this, scheduler, blockManager
      ensures Agrees(raised, Submit(config, old(View())), View())
      ensures raised.None? ==> Valid() && phase.Submitted?
      ensures raised.Some? ==> raised.value == OutOfCpuBlocks
    {
      SubmitSafe(config, View());
      raised := SubmitCore();
    }

    method FinishBatch(j: int, tokens: seq<Token>) returns (raised: Option<Error>)
      requires Linked() && 0 <= j < config.pp
      modifies scheduler`batchQueues
      ensures Linked()
      ensures var res := FinishIteration(old(scheduler.batchQueues)[j], tokens);
              if res.Ok? then raised.None? && scheduler.batchQueues == old(scheduler.batchQueues)[j := res.value]
              else raised == Some(res.error)
    {
      match FinishIteration(scheduler.batchQueues[j], tokens)
      case Err(e) => return Some(e);
      case Ok(b) =>
        scheduler.batchQueues := scheduler.batchQueues[j := b];
        return None;
    }

    /** The step after its await: tokens go to the batch at the head of the pipeline, finished
        requests leave the last-stage batch and give their blocks back. */
    method ReturnCore(tokens: seq<Token>) returns (raised: Option<Error>)
      requires Linked() && IndicesOk(config, View())
      modifies this, scheduler, blockManager
      ensures Linked()
      ensures Agrees(raised, Return(config, old(View()), tokens), View())
    {
      if |batchesInPipeline| == config.pp {
        if batchesRetFutures[0].Some? {
          var e := FinishBatch(batchesInPipeline[0], tokens);
          if e.Some? {
            return e;
          }
          var finishedReqs := scheduler.PopFinishedRequests();
          e := blockManager.FreeBlocksBatched(finishedReqs);
          if e.Some? {
            return e;
          }
        }
        batchesInPipeline := batchesInPipeline[1..];
        batchesRetFutures := batchesRetFutures[1..];
      }
      phase := Accepting;
      return None;
    }

    /** With one token per request of the call that returned, the rest of the step raises nothing. */
    method ReturnStep(tokens: seq<Token>) returns (raised: Option<Error>)
      requires Valid() && phase.Submitted? && TokensFor(config, View(), tokens)
      modifies this, scheduler, blockManager
      ensures Valid() && raised.None? && phase.Accepting?
      ensures Return(config, old(View()), tokens) == Ok(View())
    {
      ReturnSafe(config, View(), tokens);
      raised := ReturnCore(tokens);
    }

    /** The decision of the loop of post_process. */
    function WillAccept(): (b: bool)
      requires Linked()
      reads this, scheduler, scheduler.blockManager
      ensures b == (View().sched.unaccepted != [] && ShouldAccept(config, View().sched, View().sched.unaccepted[0]))
    {
      scheduler.unacceptedQueue != [] && scheduler.ShouldAcceptHead(scheduler.unacceptedQueue[0])
    }

    /** _migrate_blocks up to its await. */
    method MigrateBeginCore() returns (raised: Option<Error>)
      requires Linked() && scheduler.unacceptedQueue != []
      modifies this, scheduler, blockManager
      ensures Linked()
      ensures Agrees(raised, MigrateBegin(config, old(View())), View())
    {
      var m := scheduler.unacceptedQueue[0];
      scheduler.unacceptedQueue := scheduler.unacceptedQueue[1..];
      raised := blockManager.AllocateBlocks(m.req.(output := []));
      if raised.Some? {
        return;
      }
      if m.req.id !in blockManager.blockTable {
        return Some(NotAllocated);
      }
      if |blockManager.blockTable[m.req.id]| != |m.blockIndexes| {
        return Some(MigrationSizeMismatch);
      }
      phase := Migrating(m);
    }

    method MigrateBeginStep() returns (raised: Option<Error>)
      requires Valid() && phase.Accepting? && WillAccept()
      requires Acceptable(config, View(), scheduler.unacceptedQueue[0])
      modifies this, scheduler, blockManager
      ensures Valid() && raised.None? && phase == Migrating(old(scheduler.unacceptedQueue)[0])
      ensures MigrateBegin(config, old(View())) == Ok(View())
    {
      MigrateBeginSafe(config, View());
      raised := MigrateBeginCore();
    }

    /** _migrate_blocks after its await, and the append of post_process. */
    method MigrateEndCore()
      requires Linked() && phase.Migrating?
      modifies this`phase, scheduler`waitingQueue
      ensures Linked() && View() == MigrateEnd(old(View()))
    {
      scheduler.waitingQueue := scheduler.waitingQueue + [phase.mig.req];
      phase := Accepting;
    }

    method MigrateEndStep()
      requires Valid() && phase.Migrating?
      modifies this`phase, scheduler`waitingQueue
      ensures Valid() && View() == MigrateEnd(old(View()))
    {
      MigrateEndSafe(config, View());
      MigrateEndCore();
    }

    method FinishCore()
      requires Linked()
      modifies this`phase
      ensures Linked() && View() == old(View()).(phase := Idle)
    {
      phase := Idle;
    }

    method FinishStep()
      requires Valid() && phase.Accepting? && !WillAccept()
      modifies this`phase
      ensures Valid() && View() == old(View()).(phase := Idle)
    {
      PhaseSafe(config, View());
      FinishCore();
    }

    /** Event loop 1: a request taken from the bridge. */
    method Receive(m: Mig)
      requires Linked()
      modifies scheduler
      ensures Linked() && View() == AddMigrating(old(View()), m)
    {
      scheduler.AddRequest(m);
    }
  }
}
