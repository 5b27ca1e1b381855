# DistServe: what the engines, the allocator and the simulator guarantee

DistServe splits LLM inference over two engines. The context engine runs each prompt once; the
decoding engine then produces one token per request and step. Both keep key/value data in fixed-size
blocks handed out by a block manager, and a bridge moves requests, with their blocks, from one
engine to the other. This project models that machine in Dafny 4.11 and proves what it keeps over
whole runs. It also covers the migrate-or-recompute cost model, the placement arithmetic, and the
discrete-event simulator.

Verify everything with `dafny verify dfyconfig.toml`.

## How it is organised

The system is written twice. The pure layer gives every operation as a function from state to
state, or to the exception the source raises; runs, invariants and theorems are about these
functions. The object layer has the source's classes with their fields, loops and early exits, and
each method is proved to do what its function says, exceptions included (`Common.Agrees`).

| file | contents |
|---|---|
| Common, Sums, Quotients | results and exceptions; sums over queues; division |
| Requests, Blocks, DecodeScheduler, DecodeEngine, ContextEngine, Disaggregated | the pure layer: requests, allocator, schedulers, engine steps cut at their awaits, the two engines and the bridge, runs |
| Guarantees, DecodeOrder, SwapHazards, ManagerTraces, KvStore, CachedPrefix, CachedRuns, CpuShortage, ShortageRun, DecodeStuck, StuckRun, Conservation, Delivery, StepCalls, QueueOrder, Work, Progress, Drain, RoomyDecoding | the theorems about it |
| RequestObjects, BlockManagers, DecodingStageSchedulers, ContextStages, DecodingStages, LLMEngines | the object layer |
| CostModel | migrate or recompute |
| Placement | layer-aligned placement groups |
| SimRequests, SimWorkers, SimCluster | the simulator's requests, batch formation, rings, scheduler and runs |
| SimRounds, SimForwards, SimMoves, SimInvariant, SimTermination, SimServable, SimChunks, SimTokens, SimRings | its laws |
| SimObjects | its classes |

Three ideas carry the proofs. First, the schedulers budget with computed need while the allocator
counts blocks, and the two differ between steps; the invariant `DecodeEngine.DecInv` says that only
the batch to be chosen next may hold fewer blocks than it needs, and that it is never in flight.
Second, a step is cut at each `await`, so every interleaving of the coroutines is a sequence of
events of `Disaggregated.Step`; workers choose the tokens, the environment chooses the arrivals.
Third, a simulator round is a list of moves of single requests, so each conservation law and the
termination measure is checked move by move.

Four properties are false of the code as it stands. Each is given with its exact condition and with
an input that shows it:

- A decoding step can raise "not enough free blocks on CPU". `CpuShortage.DecodingStepFailsIff` says
  exactly when, and `ShortageRun.ShortageHappens` gives runs of sixteen events that end that way. No
  other assertion of the two engines can fire (`Disaggregated.RunsAreSafe`).
- The decoding queues can come to a stop for ever. `DecodeStuck.NeverAgainIff` says in which states
  that a run reaches between two decoding steps no call is ever made again, and
  `StuckRun.StuckHappens` is a run in which two requests, each of which would fit the GPU up to its
  last token (`StuckRun.BothFit`), block each other after eighteen events.
- A recompute choice is not monotone in the prompt length for every table.
  `CostModel.CrossesOnceIffEconomical` says, for positive tables, that it is exactly when latency per
  token does not grow from one breakpoint to the next, and `CostModel.RisingTableCrossesBack` is a
  valid table that recomputes 64 tokens and migrates 128.
- A simulation need not end. `SimServable.BoundedIffServable` says that its runs are bounded exactly
  when every arriving request is servable, and `SimServable.FiveTokensNeverEnd` and
  `SimServable.FullContextNeverEnds` are two single requests with runs of any length.

Liveness of the engines is therefore stated with its conditions. `Work.CallsAreBounded` bounds the
decoding calls of every run by the tokens asked for. `Progress.ComesToRest` continues every state,
without new arrivals, to one at rest, and `Drain.LeftAtRest` says who is left there and for want of
what. `RoomyDecoding.EveryRunCanDrain` puts this together: in a configuration whose GPU has room for
the waiting queue's share, one more prompt and one whole request, every run of requests the two
engines can take at all can be continued until everybody has left, as long as the CPU could take
those present.

## Model

| member | source | states |
|---|---|---|
| `Disaggregated.RunsAreSafe` | distserve/single_stage_engine.py:733-890 | over every configuration, arrival pattern, token outcome and interleaving, the only exception a run can raise is the want of CPU blocks in a swap-out, and every state reached satisfies the invariant of both engines and the bridge |
| `Disaggregated.StepInv` | distserve/single_stage_engine.py:301-412 | every single event that can happen keeps that invariant: both schedulers, both allocators, both pipelines and the bridge |
| `Disaggregated.PendingAcceptable` | distserve/single_stage_engine.py:747-760 | every request on its way between the engines can be accepted: it is live, unknown to the decoding side, and its context block list has the length the decoding side will allocate |
| `CpuShortage.DecodingStepFailsIff` | distserve/decoding_stage_scheduler.py:188-203 | in a reachable state the next decoding step raises if and only if the requests at the end of the next batch that must be evicted hold more blocks than the CPU has available |
| `CpuShortage.SwapOutFailsIff` | distserve/block_manager.py:296-312 | the swap-out loop as a whole fails exactly when the sum of all victims' blocks exceeds the CPU blocks available before it |
| `ShortageRun.ShortageHappens` | distserve/decoding_stage_scheduler.py:199-203 | for every length over three tokens, a run of sixteen events with one such request on a GPU of three blocks and a CPU of two that ends in the CPU assertion |
| `Conservation.StepExchanges` | distserve/single_stage_engine.py:359-405 | every event exchanges the batch it returned for its unfinished requests with their new tokens, adds an arrival if it is one, and keeps every other request as it was: every sum over the system says so |
| `Conservation.TokensPairWithCall` | distserve/single_stage_engine.py:361-375 | the tokens that return belong, position by position, to the requests the remote call was made for, and each request is extended by exactly its own token |
| `Delivery.EveryRequestIsServed` | distserve/engine.py:332-345 | over every run with unique ids each arrival is either in the system exactly once, holding exactly the tokens its consumer received, or gone; a request that is gone received max_tokens tokens or, unless it ignores stop strings, one of these as its last; and no token before that, nor any token of a request still there, was the last one asked for or such a stop string |
| `Delivery.ReturnStory` | distserve/single_stage_engine.py:855-873 | when a batch returns, each of its requests gets one more output on its own queue, the finished ones leave with the last output marked, and nobody else's queue changes |
| `Guarantees.DecodeSlots` | distserve/request.py:253-266 | for every decoding call in flight, each position from the first new token index to the last input token lies in a block of that request's own table, and no block of the table is one too many |
| `Guarantees.ContextSlots` | distserve/block_manager.py:108-147 | the same for context calls, which cover the whole prompt |
| `Guarantees.DecodeSlotsApart` | distserve/block_manager.py:126-152 | for any two different positions of decoding calls in flight, of one call or of two, the blocks of their requests are different, inside the pool, and neither free nor being swapped |
| `Guarantees.ContextSlotsApart` | distserve/block_manager.py:126-152 | the same for any two positions of context calls in flight |
| `Guarantees.InFlightIsFrozen` | distserve/single_stage_engine.py:818-838 | until a batch returns, its requests, their inputs and their GPU tables are those of the call, the input of each is its newest output id, and the batch is in the pipeline once |
| `Guarantees.BlocksInOneManager` | distserve/single_stage_engine.py:733-779 | a live request past the context stage has blocks in exactly one manager, except while it is being migrated, when it has them in both |
| `Guarantees.OutputsBounded` | distserve/request.py:206-224 | no request in the system has max_tokens outputs or is finished, so the ValueError is unreachable and finished requests leave before their batch's next iteration |
| `Guarantees.NoLeak` | distserve/single_stage_engine.py:394-405 | when no live request remains, both managers have every GPU and CPU block available |
| `StepCalls.CallsWithinLimits` | distserve/decoding_stage_scheduler.py:131-137 | in every run, each call in flight, of either engine, is for at least one request, at most max_batch_size of them, and at most max_tokens_per_batch token positions |
| `StepCalls.DecodingCallsAreFull` | distserve/decoding_stage_scheduler.py:205-222 | after every decoding step that leaves somebody in line, with the call just made: one request more would be over max_batch_size, or its token over max_tokens_per_batch, or its blocks on top of everybody's over the GPU |
| `StepCalls.NextBatchIsFull` | distserve/decoding_stage_scheduler.py:138-150 | the same of get_next_batch, the blocks being those of all batches at their lengths and of the waiting prompts |
| `StepCalls.ContextCallsAreFull` | distserve/context_stage_scheduler.py:127-172 | after every context step that leaves somebody waiting, the call just made has no room for the first of them under either limit, or its prompt needs more blocks than the GPU has left |
| `StepCalls.DecodeCallsRunNewest` | distserve/request.py:240-268 | in every run, each decoding call in flight carries for each of its requests the id of the last token on that request's output queue, at the position after its prompt and earlier outputs |
| `StepCalls.ContextCallsRunPrompts` | distserve/request.py:240-268 | in every run, each context call in flight carries whole prompts, from position 0, of requests whose output queues are empty |
| `StepCalls.AcceptsExactlyWhen` | distserve/decoding_stage_scheduler.py:247-260 | after a decoding step a migration begins exactly when the prompts of the waiting queue need less than their share of the GPU and the first pending prompt fits beside all blocks held, and the step ends exactly when it does not |
| `QueueOrder.FirstComeFirstServed` | distserve/single_stage_engine.py:733-890 | in every run prompts come back from the workers in order of arrival, requests end their migration in the order they were put on the bridge, and are first batched for decoding in that order; whoever has passed one gate and not the next is in the queue between them |
| `QueueOrder.PipelineFillsUp` | distserve/single_stage_engine.py:349-360 | in every run the context pipeline holds the batches of the last pp - 1 completed steps, or of all if there were fewer, and the one being waited for |
| `Requests.BlocksForIsCeiling` | distserve/decoding_stage_scheduler.py:127-129 | the block count has room for the tokens and one block less would not |
| `Requests.BlocksForIsQuotient` | distserve/block_manager.py:108-115 | the quotient the source computes is that count |
| `Requests.AddTokensSpec` | distserve/request.py:341-358 | with one token per request, every request gets its own token, is finished exactly when it has max_tokens tokens or, unless it ignores them, the token is a stop string, and none is refused |
| `Requests.SplitSums` | distserve/request.py:325-333 | splitting a batch into finished and unfinished requests loses and invents nothing |
| `Requests.UnfinishedInOrder` | distserve/request.py:325-333 | the requests that stay keep their order: each is preceded by as many that stay as before |
| `RequestObjects.Request.AddGeneratedToken` | distserve/request.py:216-224 | appends the token and updates is_finished, or raises on one token too many |
| `RequestObjects.Request.CheckFinishCondition` | distserve/request.py:206-214 | sets is_finished exactly by the length limit or by a stop string that is not to be ignored, and never clears it |
| `RequestObjects.BatchedRequests.AddRequest` | distserve/request.py:319-323 | appends the request object, or raises if its id is in the batch |
| `RequestObjects.BatchedRequests.PopFinishedRequests` | distserve/request.py:325-333 | the loop returns the finished requests and keeps the others, both in order |
| `RequestObjects.BatchedRequests.StartOneIteration` | distserve/request.py:335-339 | starts the batch, or raises if it is started |
| `RequestObjects.BatchedRequests.FinishOneIteration` | distserve/request.py:341-358 | the zip loop over mutable request objects gives request i token i and stops at the shorter list, or raises what the first refused token raises |
| `Blocks.InitPartitioned` | distserve/block_manager.py:44-56 | initially every block id of each pool is in exactly one place |
| `Blocks.AllocatePartitioned` | distserve/block_manager.py:126-147 | allocation, growth and lazy flush keep each block id of each pool in exactly one place |
| `Blocks.FreePartitioned` | distserve/block_manager.py:154-161 | so does freeing, for requests on either device |
| `Blocks.SwapPartitioned` | distserve/block_manager.py:288-315 | so does a batched swap in either direction, with flushes in its middle |
| `Blocks.PartitionSeparates` | distserve/block_manager.py:44-56 | a block of a live request is in no other table and in no free or swapping list of its device, and its id is in range |
| `Blocks.EmptyMeansAllAvailable` | distserve/block_manager.py:58-64 | with no table left, every block of both pools is available |
| `Blocks.GetFreeBlocksSpec` | distserve/block_manager.py:66-98 | taking blocks removes exactly those from the pool, the count asked for, and touches neither the tables nor the other device |
| `Blocks.TakesInOrder` | distserve/block_manager.py:66-98 | blocks are taken off the front of the free list followed by the parked ones; it fails exactly when these are too few together, and waits for the workers, once, exactly when the free ones alone are too few |
| `Blocks.AllocateThenFree` | distserve/block_manager.py:126-161 | allocating for a newcomer and freeing it again only moves its blocks from the front of the free list to the back |
| `Blocks.AllocateExtends` | distserve/block_manager.py:126-147 | allocation only appends to the request's own table, up to exactly its need |
| `SwapHazards.ManagerIsHazardFree` | distserve/block_manager.py:233-275 | over every sequence of manager operations each block stays in one place, a block that an unfinished swap may still be reading is handed to nobody, and no swap writes one (requirement 2) |
| `SwapHazards.SwapHazard` | distserve/block_manager.py:288-315 | in particular one batched swap, whose own sources are not issued yet when a flush happens in its middle |
| `SwapHazards.TablesAreIdle` | distserve/block_manager.py:75-98 | in a state where blocks being read are parked, no block of a live request may still be read by a swap; ManagerTraces.LiveTablesAreIdle says it of every run |
| `ManagerTraces.RunsAreHazardFree` | distserve/single_stage_engine.py:733-890 | in every run of the whole system, on both sides, each block id is in exactly one place, blocks an unfinished swap may still be reading are handed to nobody, and no swap writes one |
| `ManagerTraces.LiveTablesAreIdle` | distserve/block_manager.py:239-275 | in every run of the whole system, no block of a live request, on either side and either device, may still be read by a swap |
| `ManagerTraces.StepReaches` | distserve/block_manager.py:126-323 | every event takes each manager through a sequence of its own operations, so what is proved for all such sequences holds in every run |
| `KvStore.CacheReadsBack` | distserve/block_manager.py:288-315 | over every interleaving of allocations, frees, batched swaps, writes and migrations, reading a live position through the block table gives what a plain per-request store holds |
| `KvStore.SwapRefines` | distserve/block_manager.py:296-315 | a batched swap, copied once at its end, keeps every live position readable |
| `KvStore.BatchedIsEach` | distserve/block_manager.py:303-315 | that one copy at the end has the same effect as copying request by request |
| `KvStore.MigrateRefines` | distserve/single_stage_engine.py:759-779 | after a migration the decoding side reads back every position of the migrated request, and still every one of its own |
| `CachedRuns.DecodeCallsSeePrefix` | distserve/single_stage_engine.py:795-838 | in every run of the whole system, whatever the memories held at first, each request of each decoding call in flight reads through the call's table, at every position up to its last, exactly what its own token prefix determines, through swaps, migrations and everybody else's writes; and the call's inputs for it are its own tokens from the first new one on |
| `CachedRuns.ContextCallsSeePrefix` | distserve/single_stage_engine.py:310-350 | the same for every context call in flight |
| `CachedRuns.StepKv` | distserve/single_stage_engine.py:733-890 | every event's swaps, allocations, frees, copies and forward-pass writes succeed on the caches and keep every live request cached up to its last token |
| `BlockManagers.BlockManager.GetFreeBlockIds` | distserve/block_manager.py:66-98 | hands out the head of the free list, flushing first when it is too short, or raises for the right device |
| `BlockManagers.BlockManager.AllocateBlocks` | distserve/block_manager.py:126-147 | on the object's fields: a new table, a grown table, or nothing, or the source's exception |
| `BlockManagers.BlockManager.AllocateBlocksBatched` | distserve/block_manager.py:149-152 | the loop over the batch, stopping at the first exception |
| `BlockManagers.BlockManager.FreeBlocksOf` | distserve/block_manager.py:154-161 | returns the blocks to the pool of the request's location and forgets the request |
| `BlockManagers.BlockManager.FreeBlocksBatched` | distserve/block_manager.py:163-166 | the loop over the requests |
| `BlockManagers.BlockManager.SwapRequestList` | distserve/block_manager.py:288-315 | the loop of swap_requests and the one remote call at its end, with the accumulated sources and targets |
| `BlockManagers.BlockManager.IsAllRequestsOnGpu` | distserve/block_manager.py:325-330 | true exactly when every request of the batch is on the GPU |
| `DecodeScheduler.NextIsModular` | distserve/decoding_stage_scheduler.py:183-186 | the index arithmetic is the modular successor |
| `DecodeScheduler.OverflowMeansNonEmpty` | distserve/decoding_stage_scheduler.py:188-201 | if the total need overflows the GPU in an invariant state, the current batch is not empty, so the pop cannot fail |
| `DecodeScheduler.SwapOutLoopSafe` | distserve/decoding_stage_scheduler.py:188-203 | the swap-out loop ends with the need fitting the GPU and keeps the invariant; only the want of CPU blocks can stop it |
| `DecodeScheduler.AdmitLoopSafe` | distserve/decoding_stage_scheduler.py:205-222 | every swap-in and admission finds its GPU blocks, adds no duplicate, and keeps the invariant and the fit |
| `DecodeScheduler.GetNextBatchSafe` | distserve/decoding_stage_scheduler.py:183-223 | get_next_batch as a whole: invariant kept, need within the GPU, the other batches untouched |
| `DecodeScheduler.GrowBatch` | distserve/block_manager.py:149-152 | after get_next_batch the batched allocation finds enough blocks and leaves the whole batch on the GPU with exactly the blocks it needs |
| `DecodeOrder.NextBatchIsFcfs` | distserve/decoding_stage_scheduler.py:183-223 | get_next_batch said without its loops: it evicts the last k of the batch, the fewest that make the need fit, brings back the first m swapped-out requests, then admits the first w waiting ones only if nobody is left swapped out, and stops at the first that fails the check |
| `DecodeOrder.SwapOutIsMinimal` | distserve/decoding_stage_scheduler.py:190-203 | with its last victim back the need would overflow |
| `DecodeStuck.NeverAgainIff` | distserve/decoding_stage_scheduler.py:188-222 | in every state that a run reaches between two decoding steps, with somebody in line: no continuation whatever ever makes a decoding call again if and only if nobody is in flight and either the victims of the next call hold more blocks than the CPU has available, or not even the first request of its batch can stay and the first in line could not be alone in a batch beside the blocks reserved for the waiting queue |
| `DecodeStuck.NoCallEverIff` | distserve/decoding_stage_scheduler.py:188-222 | the same equivalence for every invariant state with nobody in flight and the other batches empty |
| `DecodeStuck.NextBatchEmptyIff` | distserve/decoding_stage_scheduler.py:183-223 | with the other batches empty and the evictions done, the next batch comes out empty exactly under that second condition, and then the queues are stuck |
| `DecodeStuck.StuckForEver` | distserve/decoding_stage_scheduler.py:205-222 | from any state of that kind, at any await, whatever arrives: nobody runs, nobody comes back from the CPU, nobody leaves the waiting queue |
| `StuckRun.StuckHappens` | distserve/decoding_stage_scheduler.py:188-222 | for every length from three tokens on, a run with two such requests after which no decoding call is ever made again: the first grows after the second was accepted, is swapped out one event later, and is never admitted beside it |
| `StuckRun.BothFit` | distserve/decoding_stage_scheduler.py:141-150 | with three tokens each, both requests fit that GPU alone up to their last token, and both engines can take them |
| `Work.CallsAreBounded` | distserve/single_stage_engine.py:733-890 | in every run, interleaved in any way and even one that ends in an exception, the decoding calls hold together at most max_tokens - 1 requests per arrival, and at most a number of events fixed by the arrivals move anybody |
| `Work.WorkStep` | distserve/single_stage_engine.py:301-412 | no event but an arrival raises a measure over tokens still to come and places still to pass, and every event that takes a request from one place to another lowers it |
| `Work.AheadStep` | distserve/single_stage_engine.py:359-405 | each request a decoding call is made for uses up one of the calls left to it, counted when the call is made and settled when it returns |
| `Progress.ComesToRest` | distserve/single_stage_engine.py:733-890 | from every invariant state some continuation without arrivals comes to rest, unless it ends for want of CPU blocks |
| `Progress.TurnGetsNearer` | distserve/single_stage_engine.py:733-890 | while the system is not at rest, one coroutine can take a turn that moves somebody or brings the next batch with anybody in it nearer |
| `Drain.RestIsFinal` | distserve/single_stage_engine.py:733-890 | at rest, and until somebody arrives, every continuation runs without an exception, moves nobody and stays at rest |
| `Drain.LeftAtRest` | distserve/decoding_stage_scheduler.py:247-260 | at rest everybody has left; or the decoding queues are stuck; or they are empty and the first pending request would not be accepted by an idle decoding engine; or nobody is pending either and the first prompt would not be picked by an idle context engine |
| `Drain.CpuBalanced` | distserve/block_manager.py:239-315 | the CPU blocks that are not available are exactly those of the swapped queue |
| `Drain.EnoughStep` | distserve/decoding_stage_scheduler.py:199-203 | while the CPU could take everybody in the system at full length, no event raises anything, and that stays so until somebody arrives |
| `Drain.DrainsOrSticks` | distserve/single_stage_engine.py:733-890 | from every invariant state with that many CPU blocks and requests that both engines can take, some continuation without arrivals ends, without an exception, with everybody gone or with the decoding queues stuck |
| `RoomyDecoding.EveryRunCanDrain` | distserve/single_stage_engine.py:733-890 | in a configuration with room, every run of requests that both engines can take, as long as the CPU could take those present, can be continued without arrivals and without an exception until everybody has left |
| `RoomyDecoding.RoomyNeverStuck` | distserve/decoding_stage_scheduler.py:247-260 | when the waiting queue's share, one prompt and one whole request fit the GPU together, the decoding queues are never stuck |
| `RoomyDecoding.CappedStep` | distserve/decoding_stage_scheduler.py:247-260 | no event lets the prompts of the waiting queue and of the request being migrated in reserve more than the share set by the threshold and one prompt |
| `DecodeOrder.NoThrash` | distserve/decoding_stage_scheduler.py:190-222 | if a call swaps anybody out, its last victim is still out on return and no waiting request was admitted |
| `DecodingStageSchedulers.DecodingStageFCFSScheduler.SwapOutWhileOverflowing` | distserve/decoding_stage_scheduler.py:190-203 | the first loop on the object's fields |
| `DecodingStageSchedulers.DecodingStageFCFSScheduler.AdmitWhilePossible` | distserve/decoding_stage_scheduler.py:206-222 | the second loop on the object's fields |
| `DecodingStageSchedulers.DecodingStageFCFSScheduler.GetNextBatchIndex` | distserve/decoding_stage_scheduler.py:183-223 | get_next_batch on the object's fields, or its exception |
| `DecodingStageSchedulers.DecodingStageFCFSScheduler.CheckAddToCurBatch` | distserve/decoding_stage_scheduler.py:131-150 | the three limits, read from the object's fields |
| `DecodingStageSchedulers.DecodingStageFCFSScheduler.PopFinishedRequests` | distserve/decoding_stage_scheduler.py:174-181 | takes the finished requests out of the last-stage batch |
| `DecodingStageSchedulers.DecodingStageFCFSScheduler.ShouldAcceptHead` | distserve/decoding_stage_scheduler.py:248-252 | the acceptance test, for any real threshold factor |
| `DecodeEngine.HeadIsLastStage` | distserve/single_stage_engine.py:841-876 | when the pipeline is full the batch that returns is the one pop_finished_requests acts on, and it is in the pipeline once |
| `DecodeEngine.NextNotInPipeline` | distserve/decoding_stage_scheduler.py:183-186 | when it is not full, the batch chosen next is not in flight |
| `DecodeEngine.SubmitSafe` | distserve/single_stage_engine.py:788-838 | a step up to its await keeps the engine invariant, and the allocation, GPU, started-batch and block-table assertions hold |
| `DecodeEngine.ReturnSafe` | distserve/single_stage_engine.py:841-887 | the rest of the step raises nothing, allocates to nobody, and keeps the engine invariant, so the batches still in flight keep matching their calls |
| `DecodeEngine.MigrateBeginSafe` | distserve/single_stage_engine.py:747-760 | accepting a request finds its blocks and the two block lists have the same length |
| `DecodeEngine.MigrateEndSafe` | distserve/single_stage_engine.py:778-779 | enqueuing the migrated request keeps the invariant |
| `DecodingStages.DecodingStageLLMEngine.SubmitStep` | distserve/single_stage_engine.py:788-838 | on the engine object: invariant kept, or the want of CPU blocks raised |
| `DecodingStages.DecodingStageLLMEngine.ReturnStep` | distserve/single_stage_engine.py:841-887 | on the engine object: never raises, invariant kept |
| `DecodingStages.DecodingStageLLMEngine.MigrateBeginStep` | distserve/single_stage_engine.py:747-763 | on the engine object: never raises for an acceptable request |
| `DecodingStages.DecodingStageLLMEngine.MigrateEndStep` | distserve/decoding_stage_scheduler.py:255-258 | on the engine object: the request joins the waiting queue, invariant kept |
| `DecodingStages.DecodingStageLLMEngine.FinishStep` | distserve/decoding_stage_scheduler.py:253-260 | on the engine object: the acceptance loop stops exactly when its test fails |
| `ContextEngine.BudgetIsUsage` | distserve/context_stage_scheduler.py:146-157 | num_on_fly_request_block plus the unaccepted requests' blocks is exactly the number of context blocks in use, hence at most the pool |
| `ContextEngine.PickIsFcfs` | distserve/context_stage_scheduler.py:159-172 | the picked batch is the longest prefix of the waiting queue whose every step passes the three limits |
| `ContextEngine.CtxSubmitSafe` | distserve/single_stage_engine.py:310-350 | a context step never runs out of blocks and raises nothing else |
| `ContextEngine.CtxReturnSafe` | distserve/single_stage_engine.py:352-405 | the rest of the step raises nothing; what goes on the bridge is, in order, what joins the unaccepted queue, each with its block table |
| `ContextEngine.ClearMigratedSafe` | distserve/single_stage_engine.py:407-412 | clearing a migrated request frees its blocks and removes it, keeping the budget equal to usage |
| `ContextStages.ContextStageFCFSScheduler.GetNextBatchAndPop` | distserve/context_stage_scheduler.py:127-172 | the loop on the object's fields, with the count of blocks on the fly |
| `ContextStages.ContextStageFCFSScheduler.OnFinishRequests` | distserve/context_stage_scheduler.py:174-182 | the loop that queues unfinished requests and takes the whole batch off the count |
| `ContextStages.ContextStageFCFSScheduler.OnRequestMigrated` | distserve/context_stage_scheduler.py:184-188 | deletes the first entry with that id |
| `ContextStages.ContextStageLLMEngine.SubmitStep` | distserve/single_stage_engine.py:310-350 | on the engine object: never raises, invariant kept |
| `ContextStages.ContextStageLLMEngine.ReturnStep` | distserve/single_stage_engine.py:352-405 | on the engine object: never raises, invariant kept, bridge extended |
| `ContextStages.ContextStageLLMEngine.ClearMigratedBlocks` | distserve/single_stage_engine.py:407-412 | on the engine object: the callback that ends a migration |
| `LLMEngines.LLMEngine.constructor` | distserve/engine.py:89-158 | the two engine objects share the bridge and the block size and start in the initial state of the run |
| `LLMEngines.LLMEngine.Generate` | distserve/engine.py:309-334 | an arrival on the objects is the arrival event |
| `LLMEngines.LLMEngine.ContextStepSubmit` | distserve/single_stage_engine.py:301-350 | the objects do what the event says |
| `LLMEngines.LLMEngine.ContextStepReturn` | distserve/single_stage_engine.py:352-405 | the objects do what the event says |
| `LLMEngines.LLMEngine.MoveAcrossBridge` | distserve/single_stage_engine.py:907-914 | the objects do what the event says |
| `LLMEngines.LLMEngine.DecodingStepSubmit` | distserve/single_stage_engine.py:781-838 | the objects do what the event says, exception included |
| `LLMEngines.LLMEngine.DecodingStepReturn` | distserve/single_stage_engine.py:841-887 | the objects do what the event says |
| `LLMEngines.LLMEngine.MigrationBegin` | distserve/single_stage_engine.py:747-771 | the objects do what the event says |
| `LLMEngines.LLMEngine.MigrationEnd` | distserve/single_stage_engine.py:778-779 | the objects do what the event says, on both engines at once |
| `LLMEngines.LLMEngine.DecodingStepFinish` | distserve/decoding_stage_scheduler.py:247-260 | the objects do what the event says |
| `CostModel.LatencyPerTokenFalls` | distserve/rom_decision.py:110-157 | over an economical table the interpolated latency per token never grows with the length, across segments and both flat ends |
| `CostModel.SingleCrossing` | distserve/rom_decision.py:164-206 | over an economical table, once the rom policy recomputes at a length it recomputes at every longer one, at any bandwidth |
| `CostModel.CrossesOnceIffEconomical` | distserve/rom_decision.py:164-206 | for positive tables, that holds for every bandwidth if and only if latency per token does not grow between breakpoints |
| `CostModel.RisingTableCrossesBack` | distserve/rom_config.py:156-185 | a table that validation accepts, {64: 0.005, 128: 0.011}, is not economical, and at 6500 MB/s the policy recomputes 64 tokens and migrates 128 |
| `CostModel.FasterStillMigrates` | distserve/rom_decision.py:92-103 | for any table and any policy, a choice to migrate survives a faster link |
| `CostModel.ForcedPolicies` | distserve/rom_decision.py:192-206 | the costs are the same under all three policies; always_migrate differs from rom exactly where migrating is dearer, and always_recompute exactly where it is not |
| `CostModel.RomMigratesIff` | distserve/rom_decision.py:200-204 | on a link that is up the rom policy migrates exactly when the bytes of the prompt take no longer than its predicted recomputation; on a tie it migrates |
| `CostModel.PredictsOnChords` | distserve/rom_decision.py:110-132 | the prediction is the measurement at a breakpoint, lies on the chord between two, and is that of the nearer end outside the table |
| `CostModel.FirstHitSpec` | distserve/rom_decision.py:228-233 | the loop returns the first breakpoint where recomputing is no dearer, and none exactly when there is none |
| `CostModel.BreakevenBrackets` | distserve/rom_decision.py:213-233 | from the returned breakpoint on recomputing costs no more; up to the previous one migrating is strictly cheaper at every positive length; sys.maxsize means the latter up to the last breakpoint |
| `CostModel.DefaultTableIsEconomical` | distserve/rom_config.py:107-116 | the default table meets the hypothesis |
| `Placement.LcmDivides` | distserve/engine.py:219 | the least common multiple found divides every common multiple |
| `Placement.WorkerCount` | distserve/engine.py:222-229 | the worker-count assertion always holds |
| `Placement.LayersAligned` | distserve/single_stage_engine.py:154-165 | a layer of either engine is placed in group layer div lcm, which is in range, so the same layer of both engines is in the same group |
| `Placement.GroupsAreFull` | distserve/engine.py:221-237 | every group gets exactly workers_per_placement_group workers, both engines together |
| `Placement.InitPlacementGroups` | distserve/engine.py:231-241 | the append loop asks for as many bundles as there are workers in all |
| `Placement.InitWorkers` | distserve/single_stage_engine.py:161-185 | the nested loops put every worker of stage i in the group of stage i, always in range |
| `SimServable.BoundedIffServable` | simdistserve/base/worker.py:130-143 | for every list of new requests, the runs in which they arrive are bounded if and only if each is servable: a prompt to be prefilled has something to cut, or without chunking fits the token limit, and a request to be decoded at all stays under the context cap up to its last token |
| `SimServable.EndlessRun` | simdistserve/base/worker.py:130-143 | if one of them is not, there is for every n a run from the empty system with just these arrivals and more than n events |
| `SimServable.RestMeansServable` | simdistserve/base/worker.py:264-289 | a run comes to rest only if everybody who arrived was servable |
| `SimServable.OversizedPromptSpins` | simdistserve/base/worker.py:236-246 | without chunking, a prompt over the token limit that arrives alone has runs of any length and never lets the system rest |
| `SimServable.LongContextSpins` | simdistserve/base/worker.py:190-197 | so has a request whose context would outgrow the cap |
| `SimServable.FiveTokensNeverEnd` | simdistserve/base/worker.py:236-246 | one worker with a limit of four tokens and a prompt of five: runs of any length |
| `SimServable.FullContextNeverEnds` | simdistserve/base/worker.py:190-197 | one worker that cuts chunks and a prompt of 50000 tokens: runs of any length |
| `SimInvariant.UnservableStay` | simdistserve/base/worker.py:264-289 | over every run, as many requests of the system can never get through as unservable ones arrived: no event saves one or makes another |
| `SimTermination.EveryRunIsBounded` | simdistserve/base/worker.py:130-143 | no run of servable requests is longer than a bound fixed by them, whatever the delays and the order of events |
| `SimTermination.EveryoneExits` | simdistserve/base/worker.py:264-289 | when nothing is left to do, each id has exited exactly as often as it arrived and everyone who exited is finished, whoever arrived |
| `SimTermination.EveryRunCanDrain` | simdistserve/base/worker.py:130-143 | from every state in which everybody can get through, some continuation without arrivals empties the system, so a run that cannot go on has emptied it |
| `SimTermination.RoundIsCheaper` | simdistserve/base/worker.py:264-351 | every batch that begins and every batch that ends strictly decreases a measure over remaining prompt, remaining output and stages left |
| `SimTermination.NobodyIsLost` | simdistserve/base/worker.py:158-182 | in every reachable state, whoever arrived, a request is in exactly as many queues, batches and exit records as it arrived times |
| `SimInvariant.BatchIsEmptyIff` | simdistserve/base/worker.py:184-262 | a batch is empty exactly when the heads it looks at cannot be scheduled, the heads being those of the prefill queue while the contexts waiting to decode are within the threshold |
| `SimInvariant.StepSound` | simdistserve/base/worker.py:264-289 | each request looks right for the place it is in (remaining prompt, chunk, counter, context), over arrivals of any new request, batches and hand-offs |
| `SimRounds.BeginFormsRound` | simdistserve/base/worker.py:130-262 | the whole of a round's beginning without its loops: it prefills exactly when prompts wait and the context tokens waiting to decode are within the threshold; a first stage cuts off each request what remains, or with chunks what the limit leaves after counting earlier cuts twice; a later stage takes its head's chunk; decodes are taken up to the cap; and nobody more could have been taken |
| `SimRounds.PressesBackIff` | simdistserve/base/worker.py:111-114 | the decode queue presses back exactly when the prompts and decoded tokens of its requests sum to more than the threshold |
| `SimForwards.LastStageForwards` | simdistserve/base/worker.py:264-289 | when a batch ends on a last stage, prompts with something left go back to the first stage, those done with something to decode go to decode, those decoding go round with one token more, all in the order of the batch, and exactly the others exit; the target is the next worker where requests stay and otherwise the only decode head |
| `SimForwards.OtherStagesForward` | simdistserve/base/worker.py:264-289 | when a batch ends on any other stage, the whole of it goes to the next worker unchanged and in order |
| `SimTokens.DecodedOncePerToken` | simdistserve/base/request.py:122-132 | once nothing is left to do, each request has ended a trip through the decoding stages exactly once for every output token it wanted when it arrived |
| `SimTokens.TripsAddUp` | simdistserve/base/request.py:122-132 | at every moment of a run, trips ended and tokens still wanted add up to what the arrivals wanted |
| `SimRings.DisaggSeparates` | simdistserve/clusters/disagg.py:32-72 | in every run of a disaggregated cluster no prefill worker ever holds a request to decode and no decode worker one to prefill |
| `SimRings.HandsToLeastLoaded` | simdistserve/base/worker.py:264-279 | a request whose prompt is done leaves the last prefill stage for the back of the decode queue of the first head with the fewest requests ahead |
| `SimRings.ArrivesAtLeastLoaded` | simdistserve/base/scheduler.py:32-54 | a new request joins the back of the prefill queue of the first head with the fewest requests ahead, or the decode queue if it comes prefilled, and exits if it has nothing to decode |
| `SimRings.VllmKeepsRing` | simdistserve/clusters/vllm.py:25-54 | in every run of the other cluster no request comes into a ring after its arrival: it is prefilled and decoded where the scheduler put it |
| `SimRings.DisaggLayout` | simdistserve/clusters/disagg.py:32-72 | worker by worker: ring k of n prefill rings starts at worker k pp and forwards cyclically, only its last stage lets go, the decode rings follow, and each ring has its first worker as head |
| `SimRings.VllmLayout` | simdistserve/clusters/vllm.py:25-54 | the same for the cluster whose rings keep their requests |
| `SimChunks.ChunksSumToPrompt` | simdistserve/base/worker.py:219-259 | once a request no longer prefills, the sizes of its chunks over all rounds sum to its prompt |
| `SimChunks.ChunksAddUp` | simdistserve/base/worker.py:219-259 | at every moment chunks scheduled and prompt unscheduled add up to the prompt |
| `SimChunks.BatchesStayWhole` | simdistserve/base/worker.py:213-222 | every prefill batch in progress, at whatever stage, is request for request one that a first stage formed, and with its decode requests stays within prefill_max_tokens |
| `SimWorkers.EnterFirstSpec` | simdistserve/base/worker.py:219-259 | a first-stage batch is a prefix of the queue with a chunk cut off each request, within the token budget |
| `SimWorkers.EnterFirstIsGreedy` | simdistserve/base/worker.py:232-246 | it stops only for a full batch, an empty queue, a request with nothing to cut or a used-up allowance; with chunks the allowance can be used up at half the limit, because it is decremented twice |
| `SimWorkers.EnterDecodesIsGreedy` | simdistserve/base/worker.py:184-199 | a decode batch stays under the context cap and stops only when full, out of requests, or at the cap |
| `SimCluster.ClustersAreWellFormed` | simdistserve/clusters/disagg.py:32-72 | for all sizes both cluster constructors (see also simdistserve/clusters/vllm.py:25-54) wire cyclic pipelines whose forwarding follows the ranks and whose heads are first stages |
| `SimCluster.SchedulerPicksLeastLoaded` | simdistserve/base/scheduler.py:18-24 | the chosen head has the fewest requests ahead of a newcomer, those queued and those being prefilled, and every earlier one has more |
| `SimObjects.Request.FinishPrefill` | simdistserve/base/request.py:98-120 | on the object's fields: chunk data reset after the last stage, counter zeroed after the last chunk, exit logged exactly when nothing is to be decoded, nothing logged after an exit |
| `SimObjects.Request.FinishDecode` | simdistserve/base/request.py:122-129 | on the object: one more token after the last stage, exit logged exactly when finished, never twice |
| `SimObjects.Worker.EnterDecodes` | simdistserve/base/worker.py:184-202 | the popping loop takes what the specification takes and leaves the rest |
| `SimObjects.Worker.CutChunks` | simdistserve/base/worker.py:224-259 | the first-stage loop with its two decremented limits |
| `SimObjects.Worker.EnterChunk` | simdistserve/base/worker.py:213-222 | the later-stage loop that pops the head's chunk group |
| `SimObjects.Worker.StartRound` | simdistserve/base/worker.py:130-139 | one pass of run up to its timeout: on the fields exactly what SimRounds.BeginFormsRound says, cutting new chunks exactly on a first stage that prefills |
| `SimObjects.ClusterState.ScheduleNewReq` | simdistserve/base/scheduler.py:32-54 | an arrival goes to the least loaded head, or leaves at once |
| `SimObjects.ClusterState.BeginRound` | simdistserve/base/worker.py:291-295 | forming a batch on the objects is the begin event |
| `SimObjects.ClusterState.ExitPrefills` | simdistserve/base/worker.py:264-279 | the forwarding loop over mutable workers, item by item |
| `SimObjects.ClusterState.ExitDecodes` | simdistserve/base/worker.py:281-289 | the decode forwarding |
| `SimObjects.ClusterState.EndRound` | simdistserve/base/worker.py:325-331 | the end of a batch on the objects is the end event |

## Left out

Assumptions of the model:

- Block size is at least 1, max_tokens at least 1, and an arriving id is not in use (over a whole run for `Delivery`); a worker returns one token per request of its call.
- The number of CPU blocks is arbitrary; the source does not guarantee enough of them, so their want stays an exception of the model.
- Liveness of the engines is stated as the existence of a continuation, together with the bound on events that move anybody; fairness of the event loop over infinite runs is not modelled. `Drain.EnoughStep` and `RoomyDecoding.EveryRunCanDrain` give sufficient conditions on the CPU and the GPU, not necessary ones.
- `DecodeStuck.NeverAgainIff` is stated between two decoding steps with somebody in line; in the middle of a step, requests already on the bridge may still be accepted and block the head, and with nobody in line it depends on who arrives.
- The constructor at distserve/request.py:172-181 has a default parameter before a non-default one and does not parse; the intended record is modelled.
- The docstring at distserve/rom_decision.py:221-225 says that breakeven_prompt_len returns 0 when migration always wins; the code returns sys.maxsize, and the model follows the code.
- Costs are exact reals with infinity as a separate constructor, not floating point.
- Prompt and output lengths of simulated requests are counts, so not negative, and a request arrives as its constructor makes it.
- Simulated delays are arbitrary: any order of batch ends is a run. Chunk ids are fresh, where the source draws random 128-bit ids.
- The contents of a cache cell are some function of the tokens up to its position. Forward passes write when they are submitted, and copies between blocks take effect when they are issued; which blocks a copy may still be reading is treated at the allocator (`SwapHazards`).

Where the object layer is less than the source:

- Schedulers, engines and the simulator's queues hold requests as values, and pipeline entries as indices of batches: aliasing of one Request object between queues, and of a block list between the allocator and a MigratingRequest, is not modelled. Request and batch objects themselves are (RequestObjects, SimObjects.Request).
- generated_tokens and generated_token_ids are one list of pairs; process times, priorities, arrival times and lifetime events are not modelled. Log entries of simulated requests carry no time and no worker id.
- After an exception the state of an object is unspecified: the event loop that owned it is gone.

Not modelled:

- Ray actors, NCCL, CUDA events and streams, the forward pass, and the worker's side of swapping and migration (distserve/worker.py).
- Failure detection and recovery (distserve/single_stage_engine.py:518-712), which calls a method that is not defined, and the LocalScheduler's bandwidth estimate and choice of a target worker.
- Status printing (distserve/block_manager.py:189-209), which divides by the pool sizes, so a pool of size zero ends it.
- Queue-depth reporting (distserve/single_stage_engine.py:891-905), which uses undefined names inside a handler that swallows the exception.
- abort_request, which returns before doing anything (distserve/single_stage_engine.py:237-247).
- API server, tokenizer, model downloading and conversion, configuration search, profiles, plotting, benchmarks and datasets.
- Any scheduling policy other than fcfs: the source rejects them.
