/** The simulator's objects, updated in place: requests, workers and the cluster
    (simdistserve/base/request.py, worker.py, scheduler.py). */
module SimObjects {
  import opened Common
  import opened SimRequests
  import opened SimWorkers
  import opened SimCluster
  import SimRounds

  // ---------------------------------------------------------------- requests

  datatype Logged = Init | WaitPrefill | DoPrefill | WaitDecode | DoDecode | ExitSystem

  /** What finish_prefill logs: a wait for more prefilling, or a wait for decoding that the exit
      follows when nothing is left to decode. */
  function PrefillEvents(r: SReq, lastStage: bool): seq<Logged> {
    if !lastStage || r.remain > 0 then [WaitPrefill]
    else if ExitsAfterPrefill(r, lastStage) then [WaitDecode, ExitSystem]
    else [WaitDecode]
  }

  function DecodeEvents(r: SReq, lastStage: bool): seq<Logged> {
    if ShouldFinish(SimRequests.FinishDecode(r, lastStage)) then [WaitDecode, ExitSystem] else [WaitDecode]
  }

  class Request {
    const id: int
    const prefillLens: nat
    const outputLens: nat
    var counter: int
    var remainPrefillLens: int
    var currentPrefillLens: int
    var chunkId: Option<int>
    var log: seq<Logged>
    var terminated: bool

    constructor (id: int, prefillLens: nat, outputLens: nat, counter: int)
      ensures Valid() && !terminated && log == []
      ensures Value() == NewRequest(id, prefillLens, outputLens, counter)
    {
      this.id, this.prefillLens, this.outputLens, this.counter := id, prefillLens, outputLens, counter;
      remainPrefillLens, currentPrefillLens, chunkId := prefillLens, 0, None;
      log, terminated := [], false;
    }

    ghost function Value(): SReq
      reads this
    {
      SReq(id, prefillLens, outputLens, counter, remainPrefillLens, currentPrefillLens, chunkId)
    }

    /** The exit is logged at most once, it is the last thing logged, and nothing follows it. */
    ghost predicate Valid()
      reads this
    {
      && (forall k :: 0 <= k < |log| - 1 ==> log[k] != ExitSystem)
      && (terminated <==> log != [] && log[|log| - 1] == ExitSystem)
    }

    method Note(e: Logged)
      requires Valid() && e != ExitSystem
      modifies this`log
      ensures Valid() && log == if terminated then old(log) else old(log) + [e]
    {
      if !terminated {
        log := log + [e];
      }
    }

    /** Logging the exit and setting _terminated, as both finish methods end. */
    method Exit()
      requires Valid()
      modifies this`log, this`terminated
      ensures Valid() && terminated
      ensures log == if old(terminated) then old(log) else old(log) + [ExitSystem]
    {
      if !terminated {
        log := log + [ExitSystem];
      }
      terminated := true;
    }

    method FinishPrefill(isFinishedOneRound: bool)
      requires Valid()
      modifies this
      ensures Valid() && Value() == SimRequests.FinishPrefill(old(Value()), isFinishedOneRound)
      ensures remainPrefillLens == old(remainPrefillLens)
      ensures counter == if isFinishedOneRound && remainPrefillLens <= 0 then 0 else old(counter)
      ensures (chunkId, currentPrefillLens)
           == if isFinishedOneRound then (None, 0) else (old(chunkId), old(currentPrefillLens))
      ensures terminated <==>
              old(terminated) || (isFinishedOneRound && remainPrefillLens <= 0 && outputLens == 0)
      ensures log == if old(terminated) then old(log) else old(log) + PrefillEvents(old(Value()), isFinishedOneRound)
    {
      if !isFinishedOneRound {
        Note(WaitPrefill);
        return;
      }
      chunkId, currentPrefillLens := None, 0;
      if remainPrefillLens > 0 {
        Note(WaitPrefill);
        return;
      }
      counter := 0;
      Note(WaitDecode);
      if counter >= outputLens {
        Exit();
      }
    }

    method FinishDecode(isFinishedOneRound: bool)
      requires Valid()
      modifies this
      ensures Valid() && Value() == SimRequests.FinishDecode(old(Value()), isFinishedOneRound)
      ensures counter == old(counter) + if isFinishedOneRound then 1 else 0
      ensures terminated <==> old(terminated) || counter >= outputLens
      ensures log == if old(terminated) then old(log) else old(log) + DecodeEvents(old(Value()), isFinishedOneRound)
    {
      if isFinishedOneRound {
        counter := counter + 1;
      }
      Note(WaitDecode);
      if counter >= outputLens {
        Exit();
      }
    }
  }

  // ---------------------------------------------------------------- workers

  class Worker {
    const limits: Limits
    const pipeRank: nat
    var prefillQueue: seq<SReq>
    var decodeQueue: seq<SReq>
    /** The batch being timed, from forming it to forwarding it. */
    var running: Option<Job>

    constructor (limits: Limits, pipeRank: nat)
      ensures this.limits == limits && this.pipeRank == pipeRank
      ensures Value() == SimWorkers.Worker([], [], None)
    {
      this.limits, this.pipeRank := limits, pipeRank;
      prefillQueue, decodeQueue, running := [], [], None;
    }

    function Value(): SimWorkers.Worker
      reads this
    {
      SimWorkers.Worker(prefillQueue, decodeQueue, running)
    }

    /** _enter_decodes: the loop pops from the decode queue. */
    method EnterDecodes(remainingTokInBatch: int) returns (decodeReqs: seq<SReq>)
      modifies this`decodeQueue
      ensures SimWorkers.EnterDecodes(old(decodeQueue), remainingTokInBatch, CONTEXT_CAP)
           == Split(decodeReqs, decodeQueue)
    {
      var decodeMaxTokens := CONTEXT_CAP;
      var decodeLen := Min(remainingTokInBatch, |decodeQueue|);
      decodeReqs := [];
      var i := 0;
      while i < decodeLen
        invariant 0 <= i && (decodeLen >= 0 ==> i <= decodeLen)
        invariant i < decodeLen ==> |decodeQueue| == |old(decodeQueue)| - i
        invariant i >= decodeLen ==> remainingTokInBatch - i <= 0 || decodeQueue == []
        invariant Joined(decodeReqs, SimWorkers.EnterDecodes(decodeQueue, remainingTokInBatch - i, decodeMaxTokens))
               == SimWorkers.EnterDecodes(old(decodeQueue), remainingTokInBatch, CONTEXT_CAP)
      {
        var req := decodeQueue[0];
        if ContextLen(req) + 1 > decodeMaxTokens {
          break;
        }
        decodeMaxTokens := decodeMaxTokens - (ContextLen(req) + 1);
        JoinedSnoc(decodeReqs, req,
                   SimWorkers.EnterDecodes(decodeQueue[1..], remainingTokInBatch - i - 1, decodeMaxTokens));
        decodeReqs := decodeReqs + [req];
        decodeQueue := decodeQueue[1..];
        i := i + 1;
      }
    }

    /** _enter_prefill on a later stage: take the head's chunk group. */
    method EnterChunk() returns (result: seq<SReq>)
      requires prefillQueue != []
      modifies this`prefillQueue
      ensures EnterLater(old(prefillQueue), limits.prefillMaxBatch, old(prefillQueue)[0].chunk)
           == Split(result, prefillQueue)
    {
      var maxRequestSize := Min(limits.prefillMaxBatch, |prefillQueue|);
      var chunk := prefillQueue[0].chunk;
      result := [];
      var i := 0;
      while i < maxRequestSize
        invariant 0 <= i <= maxRequestSize && |prefillQueue| == |old(prefillQueue)| - i
        invariant Joined(result, EnterLater(prefillQueue, limits.prefillMaxBatch - i, chunk))
               == EnterLater(old(prefillQueue), limits.prefillMaxBatch, chunk)
      {
        var candidate := prefillQueue[0];
        if candidate.chunk != chunk {
          break;
        }
        JoinedSnoc(result, candidate, EnterLater(prefillQueue[1..], limits.prefillMaxBatch - i - 1, chunk));
        result := result + [candidate];
        prefillQueue := prefillQueue[1..];
        i := i + 1;
      }
    }

    /** _enter_prefill on the first stage: cut chunks until a limit stops the loop. */
    method CutChunks(chunk: int) returns (result: seq<SReq>)
      modifies this`prefillQueue
      ensures EnterFirst(limits, old(prefillQueue), limits.prefillMaxBatch, chunk, limits.prefillMaxTokens, 0)
           == Split(result, prefillQueue)
    {
      var maxRequestSize := Min(limits.prefillMaxBatch, |prefillQueue|);
      var chunkSize, prefillMaxTokens := 0, limits.prefillMaxTokens;
      result := [];
      var i := 0;
      while i < maxRequestSize
        invariant 0 <= i <= maxRequestSize && |prefillQueue| == |old(prefillQueue)| - i
        invariant Joined(result, EnterFirst(limits, prefillQueue, limits.prefillMaxBatch - i, chunk,
                                            prefillMaxTokens, chunkSize))
               == EnterFirst(limits, old(prefillQueue), limits.prefillMaxBatch, chunk, limits.prefillMaxTokens, 0)
      {
        var candidate := prefillQueue[0];
        var schedSize;
        if limits.chunked {
          schedSize := Min(candidate.remain, prefillMaxTokens - chunkSize);
          if schedSize <= 0 {
            assert SchedSize(limits, candidate, prefillMaxTokens, chunkSize) == None;
            break;
          }
        } else {
          schedSize := candidate.remain;
          if schedSize > prefillMaxTokens {
            assert SchedSize(limits, candidate, prefillMaxTokens, chunkSize) == None;
            break;
          }
        }
        assert SchedSize(limits, candidate, prefillMaxTokens, chunkSize) == Some(schedSize);
        assert candidate.(current := schedSize, remain := candidate.remain - schedSize, chunk := Some(chunk))
            == Scheduled(candidate, schedSize, chunk);
        candidate := candidate.(current := schedSize, remain := candidate.remain - schedSize, chunk := Some(chunk));
        prefillMaxTokens := prefillMaxTokens - schedSize;
        chunkSize := chunkSize + schedSize;
        JoinedSnoc(result, candidate,
                   EnterFirst(limits, prefillQueue[1..], limits.prefillMaxBatch - i - 1, chunk,
                              prefillMaxTokens, chunkSize));
        result := result + [candidate];
        prefillQueue := prefillQueue[1..];
        i := i + 1;
      }
    }

    /** One pass of run() up to the timeout: form a batch; returns whether it cut new chunks. */
    method StartRound(chunk: int) returns (cut: bool)
      requires running.None?
      modifies this
      ensures Value() == Begin(limits, pipeRank == 0, old(Value()), chunk)
      ensures SimRounds.FormsRound(limits, pipeRank == 0, old(Value()), Value(), chunk)
      ensures cut <==> pipeRank == 0 && SimRounds.Prefills(limits, old(Value()))
    {
      SimRounds.BeginFormsRound(limits, pipeRank == 0, Value(), chunk);
      SimRounds.PressesBackIff(limits, decodeQueue);
      if prefillQueue != [] && !HasBackPressure(limits, decodeQueue) {
        var prefillItems;
        if pipeRank == 0 {
          prefillItems := CutChunks(chunk);
        } else {
          prefillItems := EnterChunk();
        }
        var decodeReqs := [];
        if limits.chunked {
          decodeReqs := EnterDecodes(limits.prefillMaxTokens - CurrentSum(prefillItems));
        }
        running := Some(Job(prefillItems, decodeReqs));
        cut := pipeRank == 0;
      } else {
        var decodeReqs := EnterDecodes(limits.decodeMaxTokens);
        running := Some(Job([], decodeReqs));
        cut := false;
      }
    }
  }

  /** What a loop has picked so far in front of what the rest of it will pick. */
  ghost function Joined(done: seq<SReq>, s: Split): Split { Split(done + s.picked, s.rest) }

  lemma JoinedSnoc(done: seq<SReq>, r: SReq, s: Split)
    ensures Joined(done, Cons(r, s)) == Joined(done + [r], s)
  {
    assert done + ([r] + s.picked) == done + [r] + s.picked;
  }

  // ---------------------------------------------------------------- the cluster

  class ClusterState {
    const c: Cluster
    const workers: seq<Worker>
    var exited: seq<SReq>
    /** The next chunk id is the number of batches cut so far. */
    var chunks: seq<seq<SReq>>

    ghost predicate Valid()
      reads this, workers
    {
      && WellFormed(c) && |workers| == |c.nodes|
      && (forall i, j :: 0 <= i < j < |workers| ==> workers[i] != workers[j])
      && (forall i :: 0 <= i < |workers| ==> workers[i].pipeRank == c.nodes[i].rank && workers[i].limits == c.limits)
    }

    function Now(): Sim
      reads this, workers
    {
      Sim(seq(|workers|, i requires 0 <= i < |workers| reads workers => workers[i].Value()), exited, chunks)
    }

    /** Put a request at the back of a queue, or let it leave. */
    method Put(p: Place, r: SReq)
      requires Valid()
      requires p.In? ==> p.node < |workers| && (p.kind == PrefillQ || p.kind == DecodeQ)
      modifies this, workers
      ensures Valid() && Now() == Deliver(old(Now()), p, r)
    {
      if p.Exited? {
        exited := exited + [r];
      } else {
        var w := workers[p.node];
        if p.kind == PrefillQ {
          w.prefillQueue := w.prefillQueue + [r];
        } else {
          w.decodeQueue := w.decodeQueue + [r];
        }
      }
    }

    /** schedule_new_req. */
    method ScheduleNewReq(r: SReq)
      requires Valid()
      modifies this, workers
      ensures Valid() && Now() == Arrive(c, old(Now()), r)
    {
      if r.counter < 0 {
        var best := BestHead(Now(), false, c.prefillHeads);
        BestHeadIsHead(Now(), false, c.prefillHeads);
        Put(In(PrefillQ, best), r);
      } else {
        ScheduleDecode(r);
      }
    }

    method ScheduleDecode(r: SReq)
      requires Valid()
      modifies this, workers
      ensures Valid()
      ensures DecodePlace(c, old(Now()), r).In? ==> DecodePlace(c, old(Now()), r).node < |workers|
      ensures Now() == Deliver(old(Now()), DecodePlace(c, old(Now()), r), r)
    {
      if ShouldFinish(r) {
        Put(Exited, r);
      } else {
        var best := BestHead(Now(), true, c.decodeHeads);
        BestHeadIsHead(Now(), true, c.decodeHeads);
        Put(In(DecodeQ, best), r);
      }
    }

    /** A worker with work forms its batch. */
    method BeginRound(i: nat)
      requires Valid() && CanStart(Now(), i)
      modifies this, workers
      ensures Valid() && Now() == Start(c, old(Now()), i)
    {
      SimRounds.PressesBackIff(c.limits, workers[i].decodeQueue);
      var cut := workers[i].StartRound(|chunks|);
      if cut {
        chunks := chunks + [workers[i].running.value.prefill];
      }
    }

    /** _exit_prefill. */
    method ExitPrefills(i: nat, items: seq<SReq>)
      requires Valid() && i < |workers|
      modifies this, workers
      ensures Valid() && Now() == ExitPrefill(c, old(Now()), i, items)
    {
      var k := 0;
      assert items[0..] == items;
      while k < |items|
        invariant Valid() && 0 <= k <= |items|
        invariant ExitPrefill(c, Now(), i, items[k..]) == ExitPrefill(c, old(Now()), i, items)
      {
        assert items[k..][1..] == items[k + 1..];
        ExitOne(i, items[k]);
        k := k + 1;
      }
    }

    method ExitOne(i: nat, r: SReq)
      requires Valid() && i < |workers|
      modifies this, workers
      ensures Valid() && Now() == ExitOnePrefill(c, old(Now()), i, r)
    {
      var n := c.nodes[i];
      assert Linked(c.nodes, i);
      var item := SimRequests.FinishPrefill(r, n.Last());
      if !n.Last() || item.remain > 0 {
        Put(In(PrefillQ, n.next), item);
      } else if ShouldFinish(item) {
        Put(Exited, item);
      } else if n.stay {
        Put(In(DecodeQ, n.next), item);
      } else {
        ScheduleDecode(item);
      }
    }

    /** _exit_decode. */
    method ExitDecodes(i: nat, items: seq<SReq>)
      requires Valid() && i < |workers|
      modifies this, workers
      ensures Valid() && Now() == ExitDecode(c, old(Now()), i, items)
    {
      assert Linked(c.nodes, i);
      var k := 0;
      assert items[0..] == items;
      while k < |items|
        invariant Valid() && 0 <= k <= |items|
        invariant ExitDecode(c, Now(), i, items[k..]) == ExitDecode(c, old(Now()), i, items)
      {
        assert items[k..][1..] == items[k + 1..];
        var item := SimRequests.FinishDecode(items[k], c.nodes[i].Last());
        Put(DecodeOnPlace(c, i, item), item);
        k := k + 1;
      }
    }

    /** The timeout is over: forward the batch. */
    method EndRound(i: nat)
      requires Valid() && CanFinish(Now(), i)
      modifies this, workers
      ensures Valid() && Now() == Finish(c, old(Now()), i)
    {
      var job := workers[i].running.value;
      workers[i].running := None;
      assert Now().workers == old(Now()).workers[i := old(Now()).workers[i].(job := None)];
      ExitPrefills(i, job.prefill);
      ExitDecodes(i, job.decode);
    }
  }
}
