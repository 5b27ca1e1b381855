/** The decoding scheduler as the mutable object of distserve/decoding_stage_scheduler.py. Each
    method is proved against the specification function of the same step; what that
    specification guarantees is proved in DecodeScheduler and DecodeOrder. */
module DecodingStageSchedulers {
  import opened Common
  import opened Sums
  import opened Requests
  import opened Blocks
  import opened DecodeScheduler
  import opened BlockManagers

  class DecodingStageFCFSScheduler {
    const config: Config
    const blockManager: BlockManager
    var unacceptedQueue: seq<Mig>
    var waitingQueue: seq<Req>
    var swappedQueue: seq<Req>
    var curIndex: int
    var batchQueues: seq<Batch>

    ghost predicate Valid()
      reads this
    {
      && Shape(config, View0())
      && blockManager.blockSize == config.blockSize && blockManager.maxNumGpuBlocks == config.maxGpu
    }

    /** The queues alone. */
    ghost function View0(): Sched
      reads this
    {
      Sched(batchQueues, curIndex, waitingQueue, swappedQueue, unacceptedQueue, InitState(0, 0))
    }

    ghost function View(): Sched
      reads this, blockManager
    {
      Sched(batchQueues, curIndex, waitingQueue, swappedQueue, unacceptedQueue, blockManager.View())
    }

    constructor (config: Config, blockManager: BlockManager)
      requires config.Valid()
      requires blockManager.blockSize == config.blockSize && blockManager.maxNumGpuBlocks == config.maxGpu
      ensures Valid() && this.config == config && this.blockManager == blockManager
      ensures View() == Sched(seq(config.pp, _ => Batch([], false)), -1, [], [], [], blockManager.View())
    {
      this.config := config;
      this.blockManager := blockManager;
      unacceptedQueue := [];
      waitingQueue := [];
      swappedQueue := [];
      curIndex := -1;
      batchQueues := seq(config.pp, _ => Batch([], false));
    }

    method AddRequest(m: Mig)
      requires Valid()
      modifies this
      ensures Valid() && View() == old(View()).(unaccepted := old(View()).unaccepted + [m])
    {
      unacceptedQueue := unacceptedQueue + [m];
    }

    /** The sums of the source: what every batch needs now and what the waiting requests hold. */
    function BlocksReserved(): (n: nat)
      requires config.Valid()
      reads this, blockManager
      ensures n == TotalNeed(config, View())
    {
      SumBatches(NeedF(config.blockSize), batchQueues) + Sum(InNeedF(config.blockSize), waitingQueue)
    }

    function CheckAddToCurBatch(request: Req): (b: bool)
      requires Valid() && curIndex >= 0
      reads this, blockManager
      ensures b == CheckAdd(config, View(), request)
    {
      var current := batchQueues[curIndex].requests;
      && |current| < config.maxBatchSize
      && Sum(NumInputTokensF(), current) + NumInputTokens(request) <= config.maxTokensPerBatch
      && BlocksReserved() + Need(request, config.blockSize) <= blockManager.maxNumGpuBlocks
    }

    /** The body of the swap-out loop. */
    method SwapOutLastRequest() returns (raised: Option<Error>)
      requires Valid() && curIndex >= 0
      modifies this`batchQueues, this`swappedQueue, blockManager
      ensures Valid() && Agrees(raised, SwapOutLast(config, old(View())), View())
    {
      var requests := batchQueues[curIndex].requests;
      if requests == [] {
        return Some(PopFromEmptyBatch);
      }
      var request := requests[|requests| - 1];
      batchQueues := batchQueues[curIndex := batchQueues[curIndex].(requests := requests[..|requests| - 1])];
      swappedQueue := swappedQueue + [request];
      raised := blockManager.SwapRequestList([request.id], false);
    }

    method AddToCurBatch(request: Req) returns (raised: Option<Error>)
      requires Valid() && curIndex >= 0
      modifies this`batchQueues
      ensures Valid() && Agrees(raised, AddToCurrent(config, old(View()), request), View())
    {
      var batch := batchQueues[curIndex];
      if request.id in Ids(batch.requests) {
        return Some(DuplicateInBatch);
      }
      batchQueues := batchQueues[curIndex := batch.(requests := batch.requests + [request])];
      return None;
    }

    method SwapInFirst() returns (raised: Option<Error>)
      requires Valid() && curIndex >= 0 && swappedQueue != []
      modifies this`batchQueues, this`swappedQueue, blockManager
      ensures Valid() && Agrees(raised, SwapInHead(config, old(View())), View())
    {
      var request := swappedQueue[0];
      raised := blockManager.SwapRequestList([request.id], true);
      if raised.None? {
        raised := AddToCurBatch(request);
        swappedQueue := swappedQueue[1..];
      }
    }

    method AdmitFirst() returns (raised: Option<Error>)
      requires Valid() && curIndex >= 0 && waitingQueue != []
      modifies this`batchQueues, this`waitingQueue
      ensures Valid() && Agrees(raised, AdmitHead(config, old(View())), View())
    {
      raised := AddToCurBatch(waitingQueue[0]);
      waitingQueue := waitingQueue[1..];
    }

    method SwapOutWhileOverflowing() returns (raised: Option<Error>)
      requires Valid() && curIndex >= 0
      modifies this`batchQueues, this`swappedQueue, blockManager
      ensures Valid() && Agrees(raised, SwapOutLoop(config, old(View())), View())
    {
      while BlocksReserved() > blockManager.maxNumGpuBlocks
        invariant Valid() && SwapOutLoop(config, View()) == SwapOutLoop(config, old(View()))
        decreases |Current(config, View())|
      {
        var e := SwapOutLastRequest();
        if e.Some? {
          return e;
        }
      }
      return None;
    }

    method AdmitWhilePossible() returns (raised: Option<Error>)
      requires Valid() && curIndex >= 0
      modifies this`batchQueues, this`swappedQueue, this`waitingQueue, blockManager
      ensures Valid() && Agrees(raised, AdmitLoop(config, old(View())), View())
    {
      while |swappedQueue| > 0 || |waitingQueue| > 0
        invariant Valid() && AdmitLoop(config, View()) == AdmitLoop(config, old(View()))
        decreases |swappedQueue| + |waitingQueue|
      {
        var e;
        if |swappedQueue| > 0 {
          if !CheckAddToCurBatch(swappedQueue[0]) {
            return None;
          }
          e := SwapInFirst();
        } else {
          if !CheckAddToCurBatch(waitingQueue[0]) {
            return None;
          }
          e := AdmitFirst();
        }
        if e.Some? {
          return e;
        }
      }
      return None;
    }

    method GetNextBatchIndex() returns (raised: Option<Error>)
      requires Valid()
      modifies this`curIndex, this`batchQueues, this`swappedQueue, this`waitingQueue, blockManager
      ensures Valid() && (raised.None? ==> curIndex >= 0)
      ensures Agrees(raised, GetNextBatch(config, old(View())), View())
    {
      NextIsModular(curIndex, config.pp);
      curIndex := (curIndex + 1) % config.pp;
      raised := SwapOutWhileOverflowing();
      if raised.None? {
        raised := AdmitWhilePossible();
      }
    }

    /** The batch the source calls the last stage loses its finished requests. */
    method PopFinishedRequests() returns (finished: seq<Req>)
      requires Valid()
      modifies this`batchQueues
      ensures Valid()
      ensures var last := Next(curIndex, config.pp);
              var requests := old(batchQueues)[last].requests;
              && finished == Finished(requests)
              && batchQueues == old(batchQueues)[last := old(batchQueues)[last].(requests := Unfinished(requests))]
    {
      NextIsModular(curIndex, config.pp);
      var lastStageIndex := (curIndex + 1) % config.pp;
      var requests := batchQueues[lastStageIndex].requests;
      finished := Finished(requests);
      batchQueues := batchQueues[lastStageIndex := batchQueues[lastStageIndex].(requests := Unfinished(requests))];
    }

    function ShouldAcceptHead(m: Mig): (b: bool)
      requires Valid()
      reads this, blockManager
      ensures b == ShouldAccept(config, View(), m)
    {
      && Sum(InNeedF(config.blockSize), waitingQueue) as real
         < blockManager.maxNumGpuBlocks as real * config.waitingThreshold
      && InNeed(m.req, config.blockSize) <= blockManager.NumAvailGpuBlocks()
    }
  }
}
