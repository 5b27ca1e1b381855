/** The decoding engine's step protocol (distserve/single_stage_engine.py), cut at its awaits. */
module DecodeEngine {
  import opened Common
  import opened Sums
  import opened Requests
  import opened Blocks
  import opened DecodeScheduler

  /** The payload of one remote "step" call. */
  datatype StepCall = StepCall(ids: seq<int>, inputs: seq<seq<int>>, first: seq<int>, tables: seq<seq<nat>>)

  /** Where the step coroutine is suspended. */
  datatype Phase =
    | Idle                 // between two steps
    | Submitted            // waiting for the earliest batch to return
    | Accepting            // in the loop of post_process
    | Migrating(mig: Mig)  // waiting for a migration to finish

  /** The batches in the pipeline are references to the scheduler's batches: their indices. */
  datatype Dec = Dec(sched: Sched, pipeline: seq<int>, futures: seq<Option<StepCall>>, phase: Phase)

  function InitBatches(n: nat): seq<Batch> { seq(n, _ => Batch([], false)) }

  function InitDec(c: Config): Dec {
    Dec(Sched(InitBatches(c.pp), -1, [], [], [], InitState(c.maxGpu, c.maxCpu)), [], [], Idle)
  }

  // ---------------------------------------------------------------- steps

  function CallOf(bm: BlockState, rs: seq<Req>): (call: StepCall)
    ensures |call.tables| == |call.inputs| == |call.first| == |rs|
  {
    StepCall(Ids(rs),
             seq(|rs|, i requires 0 <= i < |rs| => InputTokenIds(rs[i])),
             seq(|rs|, i requires 0 <= i < |rs| => FirstNewTokenIndex(rs[i])),
             seq(|rs|, i requires 0 <= i < |rs| => TableOf(bm, rs[i].id)))
  }

  /** get_partial_block_table asserts that every request is allocated. */
  function MakeCall(bm: BlockState, rs: seq<Req>): Result<StepCall> {
    if forall r :: r in rs ==> r.id in bm.table then Ok(CallOf(bm, rs)) else Err(NotAllocated)
  }

  function Submit(c: Config, d: Dec): Result<Dec>
    requires Shape(c, d.sched)
  {
    var s :- GetNextBatch(c, d.sched);
    var b := s.batches[s.cur];
    if b.requests == [] then
      Ok(Dec(s, d.pipeline + [s.cur], d.futures + [None], Submitted))
    else
      var bm :- AllocateBatched(c.blockSize, s.bm, b.requests);
      if !AllOnGpu(bm, b.requests) then Err(NotAllOnGpu)
      else
        var b1 :- StartIteration(b);
        var call :- MakeCall(bm, b1.requests);
        Ok(Dec(s.(batches := s.batches[s.cur := b1], bm := bm),
               d.pipeline + [s.cur], d.futures + [Some(call)], Submitted))
  }

  predicate Full(c: Config, d: Dec) { |d.pipeline| == c.pp }

  predicate IndicesOk(c: Config, d: Dec) {
    && Shape(c, d.sched)
    && |d.futures| == |d.pipeline|
    && (forall i :: 0 <= i < |d.pipeline| ==> 0 <= d.pipeline[i] < c.pp)
  }

  function WithBatch(s: Sched, j: nat, rs: seq<Req>): Sched
    requires j < |s.batches|
  {
    s.(batches := s.batches[j := s.batches[j].(requests := rs)])
  }

  /** The part of the step after the earliest batch returned: the tokens are appended to the
      batch at the head of the pipeline, the finished requests leave the batch the scheduler
      calls the last stage, and their blocks are freed. */
  function Return(c: Config, d: Dec, tokens: seq<Token>): Result<Dec>
    requires IndicesOk(c, d)
  {
    if Full(c, d) && d.futures[0].Some? then
      var j := d.pipeline[0];
      var b :- FinishIteration(d.sched.batches[j], tokens);
      var s1 := d.sched.(batches := d.sched.batches[j := b]);
      var last := Next(s1.cur, c.pp);
      var rs := s1.batches[last].requests;
      var bm :- FreeBatched(s1.bm, Finished(rs));
      Ok(Dec(WithBatch(s1, last, Unfinished(rs)).(bm := bm), d.pipeline[1..], d.futures[1..], Accepting))
    else if Full(c, d) then
      Ok(d.(pipeline := d.pipeline[1..], futures := d.futures[1..], phase := Accepting))
    else
      Ok(d.(phase := Accepting))
  }

  /** The part of _migrate_blocks before its await: the output tokens are set aside so that
      only the prompt's blocks are allocated. */
  function MigrateBegin(c: Config, d: Dec): Result<Dec>
    requires c.Valid() && d.sched.unaccepted != []
  {
    var m := d.sched.unaccepted[0];
    var bm :- Allocate(c.blockSize, d.sched.bm, m.req.(output := []));
    if m.req.id !in bm.table then Err(NotAllocated)
    else if |bm.table[m.req.id]| != |m.blockIndexes| then Err(MigrationSizeMismatch)
    else Ok(d.(sched := d.sched.(unaccepted := d.sched.unaccepted[1..], bm := bm), phase := Migrating(m)))
  }

  function MigrateEnd(d: Dec): Dec
    requires d.phase.Migrating?
  {
    d.(sched := d.sched.(waiting := d.sched.waiting + [d.phase.mig.req]), phase := Accepting)
  }

  function AddMigrating(d: Dec, m: Mig): Dec {
    d.(sched := d.sched.(unaccepted := d.sched.unaccepted + [m]))
  }

  // ---------------------------------------------------------------- invariant

  function MigReqs(d: Dec): seq<Req> {
    if d.phase.Migrating? then [d.phase.mig.req] else []
  }

  /** x modulo pp, for x in [-pp, pp). */
  function Wrap(x: int, pp: nat): int { if x < 0 then x + pp else x }

  /** The pipeline lists the batches in the order of the rotation, ending at cur_index. */
  ghost predicate Rotation(c: Config, d: Dec) {
    && |d.pipeline| <= c.pp
    && (|d.pipeline| > 0 ==> d.sched.cur >= 0)
    && (forall i {:trigger d.pipeline[i]} :: 0 <= i < |d.pipeline| ==>
          d.pipeline[i] == Wrap(d.sched.cur - (|d.pipeline| - 1 - i), c.pp))
    && (d.phase.Submitted? ==> |d.pipeline| >= 1)
    && (!d.phase.Submitted? ==> |d.pipeline| < c.pp)
    && (|d.pipeline| < c.pp - 1 ==> |d.pipeline| == d.sched.cur + 1)
  }

  /** What the pipeline says about the batch it holds at position i: its requests and their
      block tables are exactly those of the call that was submitted. */
  ghost predicate InFlight(d: Dec, i: int)
    requires 0 <= i < |d.pipeline| == |d.futures|
    requires 0 <= d.pipeline[i] < |d.sched.batches|
  {
    var b := d.sched.batches[d.pipeline[i]];
    if b.requests == [] then d.futures[i] == None && !b.started
    else d.futures[i] == Some(CallOf(d.sched.bm, b.requests)) && b.started
  }

  ghost predicate Flights(c: Config, d: Dec)
    requires IndicesOk(c, d)
  {
    && (forall i :: 0 <= i < |d.pipeline| ==> InFlight(d, i))
    && (forall j :: 0 <= j < |d.sched.batches| && j !in d.pipeline ==> !d.sched.batches[j].started)
  }

  /** The one batch that may need more blocks than it holds: the next to be chosen, unless its
      tokens are still being computed. */
  function OpenIndex(c: Config, d: Dec): int {
    if d.phase.Submitted? then -1 else Next(d.sched.cur, c.pp)
  }

  ghost predicate DecInv(c: Config, d: Dec) {
    && SchedInv(c, d.sched, MigReqs(d), OpenIndex(c, d))
    && Partitioned(d.sched.bm, c.maxGpu, c.maxCpu)
    && IndicesOk(c, d)
    && Rotation(c, d)
    && Flights(c, d)
  }

  // ---------------------------------------------------------------- submitting

  lemma NextNotInPipeline(c: Config, d: Dec)
    requires IndicesOk(c, d) && Rotation(c, d) && |d.pipeline| < c.pp
    ensures Next(d.sched.cur, c.pp) !in d.pipeline
  {
  }

  lemma SameCall(bm: BlockState, bm1: BlockState, rs: seq<Req>)
    requires SameTables(bm, bm1, rs)
    ensures CallOf(bm1, rs) == CallOf(bm, rs)
  {
    assert CallOf(bm1, rs).tables == CallOf(bm, rs).tables;
  }

  /** Batches in flight are untouched by choosing and growing the next one. */
  lemma FlightsUndisturbed(c: Config, d: Dec, s1: Sched, i: nat)
    requires IndicesOk(c, d) && Flights(c, d) && Running(c, Rotate(c, d.sched))
    requires Undisturbed(c, Rotate(c, d.sched), s1)
    requires i < |d.pipeline| && d.pipeline[i] != Next(d.sched.cur, c.pp)
    ensures InFlight(d.(sched := s1), i)
  {
    assert InFlight(d, i);
    SameCall(d.sched.bm, s1.bm, d.sched.batches[d.pipeline[i]].requests);
  }

  lemma SubmitRotation(c: Config, d: Dec, s1: Sched, call: Option<StepCall>)
    requires IndicesOk(c, d) && Rotation(c, d) && d.phase.Idle?
    requires Shape(c, s1) && s1.cur == Next(d.sched.cur, c.pp)
    ensures Rotation(c, Dec(s1, d.pipeline + [s1.cur], d.futures + [call], Submitted))
  {
  }

  /** The scheduler state of a submitted batch. */
  function Launched(c: Config, s: Sched, bm: BlockState): Sched
    requires Running(c, s)
  {
    s.(batches := s.batches[s.cur := s.batches[s.cur].(started := true)], bm := bm)
  }

  lemma LaunchedSums(c: Config, s: Sched, bm: BlockState, f: Req -> nat)
    requires Running(c, s)
    ensures GpuSum(f, Launched(c, s, bm), []) == GpuSum(f, s, [])
    ensures AllSum(f, Launched(c, s, bm), []) == AllSum(f, s, [])
  {
    SumBatchesUpdate(f, s.batches, s.cur, s.batches[s.cur].(started := true));
  }

  lemma LaunchedInv(c: Config, s: Sched, bm: BlockState, open: int)
    requires Running(c, s) && SchedInv(c, s.(bm := bm), [], s.cur)
    requires BatchPlaced(c, bm, Current(c, s), true)
    ensures SchedInv(c, Launched(c, s, bm), [], open)
  {
    var s1 := s.(bm := bm);
    var l := Launched(c, s, bm);
    ExactEverywhere(c, s1, open);
    forall id ensures AllSum(IdF(id), l, []) == if id in bm.table then 1 else 0 {
      LaunchedSums(c, s1, bm, IdF(id));
      assert AllSum(IdF(id), s1, []) == if id in bm.table then 1 else 0;
    }
    LaunchedSums(c, s1, bm, HeldF(bm.table));
    forall j | 0 <= j < |l.batches| ensures BatchPlaced(c, bm, l.batches[j].requests, j != open) {
      assert BatchPlaced(c, bm, s1.batches[j].requests, j != open);
    }
  }

  lemma EmptyLaunch(c: Config, s: Sched, open: int)
    requires Running(c, s) && SchedInv(c, s, [], s.cur) && Current(c, s) == []
    ensures SchedInv(c, s, [], open)
  {
    ExactEverywhere(c, s, open);
  }

  /** The call that is submitted, with the batch it was made for. */
  lemma SubmitFlights(c: Config, d: Dec, s1: Sched, s2: Sched, call: Option<StepCall>)
    requires IndicesOk(c, d) && Flights(c, d) && Rotation(c, d) && |d.pipeline| < c.pp
    requires Undisturbed(c, Rotate(c, d.sched), s1) && Running(c, s1)
    requires if Current(c, s1) == [] then s2 == s1 && call == None
             else s2 == Launched(c, s1, s1.bm) && call == Some(CallOf(s1.bm, Current(c, s1)))
    ensures var d1 := Dec(s2, d.pipeline + [s1.cur], d.futures + [call], Submitted);
            IndicesOk(c, d1) && Flights(c, d1)
  {
    NextNotInPipeline(c, d);
    var d1 := Dec(s2, d.pipeline + [s1.cur], d.futures + [call], Submitted);
    assert !d.sched.batches[s1.cur].started;
    forall i | 0 <= i < |d1.pipeline| ensures InFlight(d1, i) {
      if i < |d.pipeline| {
        assert d.pipeline[i] in d.pipeline;
        FlightsUndisturbed(c, d, s1, i);
      }
    }
    forall j | 0 <= j < |s2.batches| && j !in d1.pipeline ensures !s2.batches[j].started {
      assert s1.cur in d1.pipeline;
      assert forall x :: x in d.pipeline ==> x in d1.pipeline;
    }
  }

  /** Submitting a step never raises except for want of CPU blocks: the pool covers every
      allocation, the batch is on the GPU, and it is not already running. */
  lemma SubmitSafe(c: Config, d: Dec)
    requires DecInv(c, d) && d.phase.Idle?
    ensures Submit(c, d).Err? ==> Submit(c, d).error == OutOfCpuBlocks
    ensures Submit(c, d).Ok? ==>
              var d1 := Submit(c, d).value;
              && DecInv(c, d1) && d1.phase.Submitted?
              && d1.sched.bm.table.Keys == d.sched.bm.table.Keys
              && d1.sched.unaccepted == d.sched.unaccepted
  {
    GetNextBatchSafe(c, d.sched);
    if GetNextBatch(c, d.sched).Ok? {
      var s := GetNextBatch(c, d.sched).value;
      GetNextBatchIntact(c, d.sched);
      NextNotInPipeline(c, d);
      if Current(c, s) == [] {
        EmptyLaunch(c, s, -1);
        SubmitRotation(c, d, s, None);
        SubmitFlights(c, d, s, s, None);
      } else {
        SubmitNonEmpty(c, d, s);
      }
    }
  }

  lemma SubmitNonEmpty(c: Config, d: Dec, s: Sched)
    requires DecInv(c, d) && d.phase.Idle? && GetNextBatch(c, d.sched) == Ok(s)
    requires SchedInv(c, s, [], s.cur) && !Overflow(c, s) && Intact(c, s.bm)
    requires Running(c, s) && s.cur == Next(d.sched.cur, c.pp) && Undisturbed(c, Rotate(c, d.sched), s)
    requires Current(c, s) != []
    ensures Submit(c, d).Ok?
    ensures var d1 := Submit(c, d).value;
            && DecInv(c, d1) && d1.phase.Submitted?
            && d1.sched.bm.table.Keys == d.sched.bm.table.Keys
            && d1.sched.unaccepted == d.sched.unaccepted
  {
    GrowBatch(c, s);
    AllocateBatchedIntact(c, s.bm, Current(c, s));
    var bm := AllocateBatched(c.blockSize, s.bm, Current(c, s)).value;
    UndisturbedTransitive(c, Rotate(c, d.sched), s, s.(bm := bm));
    assert !s.batches[s.cur].started by {
      NextNotInPipeline(c, d);
    }
    SubmitComputes(c, d, s, bm);
    LaunchDecInv(c, d, s, bm);
  }

  lemma LaunchDecInv(c: Config, d: Dec, s: Sched, bm: BlockState)
    requires DecInv(c, d) && d.phase.Idle? && Intact(c, bm)
    requires Running(c, s) && s.cur == Next(d.sched.cur, c.pp)
    requires SchedInv(c, s.(bm := bm), [], s.cur) && Undisturbed(c, Rotate(c, d.sched), s.(bm := bm))
    requires BatchPlaced(c, bm, Current(c, s), true) && Current(c, s) != []
    ensures DecInv(c, Dec(Launched(c, s, bm), d.pipeline + [s.cur],
                          d.futures + [Some(CallOf(bm, Current(c, s)))], Submitted))
  {
    var call := CallOf(bm, Current(c, s));
    LaunchedInv(c, s, bm, -1);
    SubmitRotation(c, d, Launched(c, s, bm), Some(call));
    SubmitFlights(c, d, s.(bm := bm), Launched(c, s, bm), Some(call));
  }

  lemma SubmitComputes(c: Config, d: Dec, s: Sched, bm: BlockState)
    requires Shape(c, d.sched) && GetNextBatch(c, d.sched) == Ok(s) && Running(c, s)
    requires Current(c, s) != [] && !s.batches[s.cur].started
    requires AllocateBatched(c.blockSize, s.bm, Current(c, s)) == Ok(bm) && AllOnGpu(bm, Current(c, s))
    ensures Submit(c, d) == Ok(Dec(Launched(c, s, bm), d.pipeline + [s.cur],
                                   d.futures + [Some(CallOf(bm, Current(c, s)))], Submitted))
  {
  }

  // ---------------------------------------------------------------- returning

  /** When the pipeline is full, the batch at its head is the one the scheduler calls the last
      stage: pop_finished_requests acts on the batch that just returned. */
  lemma HeadIsLastStage(c: Config, d: Dec)
    requires IndicesOk(c, d) && Rotation(c, d) && Full(c, d)
    ensures d.pipeline[0] == Next(d.sched.cur, c.pp)
    ensures d.pipeline[0] !in d.pipeline[1..]
  {
    forall i | 0 <= i < |d.pipeline[1..]| ensures d.pipeline[1..][i] != d.pipeline[0] {
      assert d.pipeline[1..][i] == d.pipeline[i + 1];
    }
  }

  /** The scheduler after the returned batch j got its tokens and lost its finished requests,
      before their blocks are freed. */
  function Settled(s: Sched, j: nat, rs: seq<Req>): Sched
    requires j < |s.batches|
  {
    s.(batches := s.batches[j := Batch(Unfinished(rs), false)])
  }

  lemma SettledSums(s: Sched, j: nat, rs: seq<Req>, f: Req -> nat)
    requires j < |s.batches| && |rs| == |s.batches[j].requests|
    requires forall i :: 0 <= i < |rs| ==> f(rs[i]) == f(s.batches[j].requests[i])
    ensures GpuSum(f, Settled(s, j, rs), Finished(rs)) == GpuSum(f, s, [])
    ensures AllSum(f, Settled(s, j, rs), Finished(rs)) == AllSum(f, s, [])
  {
    SumPointwise(f, s.batches[j].requests, rs);
    SplitSums(f, rs);
    SumBatchesUpdate(f, s.batches, j, Batch(Unfinished(rs), false));
  }

  /** A request that fits still fits after one more token, unless that token finished it. */
  lemma ExtendedFits(c: Config, bm: BlockState, r: Req, r2: Req, t: Token)
    requires c.Valid() && Fits(c, bm, r) && Extended(r, r2, t)
    ensures bm.OnGpu(r2.id) && r2.id == r.id && (!r2.finished ==> Fits(c, bm, r2))
  {
    BlocksForMonotone(|r.prompt| + |r.output|, |r2.prompt| + |r2.output|, c.blockSize);
  }

  lemma ReturnedRequests(c: Config, bm: BlockState, before: seq<Req>, tokens: seq<Token>)
    requires c.Valid() && BatchPlaced(c, bm, before, false) && |tokens| == |before|
    ensures AddTokens(before, tokens).Ok?
    ensures var rs := AddTokens(before, tokens).value;
            && BatchPlaced(c, bm, Unfinished(rs), false)
            && (forall r :: r in rs ==> bm.OnGpu(r.id))
  {
    AddTokensSpec(before, tokens);
    var rs := AddTokens(before, tokens).value;
    forall r | r in rs ensures bm.OnGpu(r.id) && (!r.finished ==> Fits(c, bm, r)) {
      var i :| 0 <= i < |rs| && rs[i] == r;
      assert Extended(before[i], rs[i], tokens[i]) && before[i] in before;
      ExtendedFits(c, bm, before[i], r, tokens[i]);
    }
  }

  lemma SettledPlaced(c: Config, s: Sched, j: nat, tokens: seq<Token>)
    requires Shape(c, s) && Placed(c, s, [], j) && j < |s.batches|
    requires |tokens| == |s.batches[j].requests|
    ensures AddTokens(s.batches[j].requests, tokens).Ok?
    ensures var rs := AddTokens(s.batches[j].requests, tokens).value;
            && Placed(c, Settled(s, j, rs), [], j)
            && (forall r :: r in Finished(rs) ==> s.bm.OnGpu(r.id))
  {
    assert BatchPlaced(c, s.bm, s.batches[j].requests, false);
    ReturnedRequests(c, s.bm, s.batches[j].requests, tokens);
    var rs := AddTokens(s.batches[j].requests, tokens).value;
    var s1 := Settled(s, j, rs);
    forall k | 0 <= k < |s1.batches| ensures BatchPlaced(c, s1.bm, s1.batches[k].requests, k != j) {
      assert BatchPlaced(c, s.bm, s.batches[k].requests, k != j);
    }
  }

  lemma SettledSame(c: Config, s: Sched, j: nat, rs: seq<Req>)
    requires Counted(s, []) && Balanced(c, s, []) && j < |s.batches| && |rs| == |s.batches[j].requests|
    requires forall i :: 0 <= i < |rs| ==> rs[i].id == s.batches[j].requests[i].id
    ensures Counted(Settled(s, j, rs), Finished(rs)) && Balanced(c, Settled(s, j, rs), Finished(rs))
  {
    var s1 := Settled(s, j, rs);
    forall id ensures AllSum(IdF(id), s1, Finished(rs)) == if id in s.bm.table then 1 else 0 {
      SettledSums(s, j, rs, IdF(id));
      assert AllSum(IdF(id), s, []) == if id in s.bm.table then 1 else 0;
    }
    SettledSums(s, j, rs, HeldF(s.bm.table));
  }

  lemma SettledCounted(c: Config, s: Sched, j: nat, tokens: seq<Token>)
    requires SchedInv(c, s, [], j) && j < |s.batches|
    requires |tokens| == |s.batches[j].requests|
    requires AddTokens(s.batches[j].requests, tokens).Ok?
    ensures var rs := AddTokens(s.batches[j].requests, tokens).value;
            Counted(Settled(s, j, rs), Finished(rs)) && Balanced(c, Settled(s, j, rs), Finished(rs))
  {
    var before := s.batches[j].requests;
    assert BatchPlaced(c, s.bm, before, false);
    AddTokensSpec(before, tokens);
    var rs := AddTokens(before, tokens).value;
    assert forall i :: 0 <= i < |rs| ==> Extended(before[i], rs[i], tokens[i]);
    SettledSame(c, s, j, rs);
  }

  /** The engine after a batch returned with these requests and the finished ones were freed. */
  function Returned(d: Dec, rs: seq<Req>, bm: BlockState): Dec
    requires d.pipeline != [] && d.futures != [] && 0 <= d.pipeline[0] < |d.sched.batches|
  {
    Dec(Settled(d.sched, d.pipeline[0], rs).(bm := bm), d.pipeline[1..], d.futures[1..], Accepting)
  }

  lemma ReturnedFlights(c: Config, d: Dec, rs: seq<Req>, bm: BlockState)
    requires IndicesOk(c, d) && Rotation(c, d) && Flights(c, d) && Full(c, d)
    requires Placed(c, Settled(d.sched, d.pipeline[0], rs).(bm := bm), [], d.pipeline[0])
    requires forall x :: x in bm.table ==> x in d.sched.bm.table && bm.table[x] == d.sched.bm.table[x]
    ensures IndicesOk(c, Returned(d, rs, bm)) && Flights(c, Returned(d, rs, bm))
    ensures Rotation(c, Returned(d, rs, bm))
  {
    HeadIsLastStage(c, d);
    var d1 := Returned(d, rs, bm);
    forall i | 0 <= i < |d1.pipeline| ensures InFlight(d1, i) {
      assert d1.pipeline[i] == d.pipeline[i + 1] && d1.futures[i] == d.futures[i + 1];
      assert d1.pipeline[i] in d.pipeline[1..];
      assert InFlight(d, i + 1);
      var k := d1.pipeline[i];
      assert BatchPlaced(c, bm, d1.sched.batches[k].requests, true);
      SameCall(d.sched.bm, bm, d.sched.batches[k].requests);
    }
    forall j | 0 <= j < |d1.sched.batches| && j !in d1.pipeline ensures !d1.sched.batches[j].started {
      if j != d.pipeline[0] {
        assert d.pipeline == [d.pipeline[0]] + d.pipeline[1..];
      }
    }
  }

  lemma ReturnComputes(c: Config, d: Dec, tokens: seq<Token>, rs: seq<Req>, bm: BlockState)
    requires IndicesOk(c, d) && Rotation(c, d) && Full(c, d) && d.futures[0].Some?
    requires d.sched.batches[d.pipeline[0]].started
    requires AddTokens(d.sched.batches[d.pipeline[0]].requests, tokens) == Ok(rs)
    requires FreeBatched(d.sched.bm, Finished(rs)) == Ok(bm)
    ensures Return(c, d, tokens) == Ok(Returned(d, rs, bm))
  {
    HeadIsLastStage(c, d);
    var j := d.pipeline[0];
    var s1 := d.sched.(batches := d.sched.batches[j := Batch(rs, false)]);
    assert WithBatch(s1, j, Unfinished(rs)).batches == Settled(d.sched, j, rs).batches;
  }

  /** The worker's contract: one token per request of the call that returned. */
  predicate TokensFor(c: Config, d: Dec, tokens: seq<Token>) {
    |d.futures| > 0 && Full(c, d) && d.futures[0].Some? ==> |tokens| == |d.futures[0].value.ids|
  }

  lemma AnyOpen(c: Config, s: Sched, open: int)
    requires SchedInv(c, s, [], -1)
    ensures SchedInv(c, s, [], open)
  {
    forall j | 0 <= j < |s.batches| ensures BatchPlaced(c, s.bm, s.batches[j].requests, j != open) {
      assert BatchPlaced(c, s.bm, s.batches[j].requests, true);
    }
  }

  lemma ReturnBatchSafe(c: Config, d: Dec, tokens: seq<Token>)
    requires DecInv(c, d) && d.phase.Submitted? && TokensFor(c, d, tokens)
    requires Full(c, d) && d.futures[0].Some?
    ensures Return(c, d, tokens).Ok?
    ensures var d1 := Return(c, d, tokens).value;
            && DecInv(c, d1) && d1.phase.Accepting?
            && d1.sched.bm.table.Keys <= d.sched.bm.table.Keys
            && d1.sched.unaccepted == d.sched.unaccepted
  {
    var j := d.pipeline[0];
    HeadIsLastStage(c, d);
    assert InFlight(d, 0);
    AnyOpen(c, d.sched, j);
    SettledPlaced(c, d.sched, j, tokens);
    SettledCounted(c, d.sched, j, tokens);
    var rs := AddTokens(d.sched.batches[j].requests, tokens).value;
    FreeAll(c, Settled(d.sched, j, rs), Finished(rs), j);
    var bm := FreeBatched(d.sched.bm, Finished(rs)).value;
    FreeBatchedIntact(c, d.sched.bm, Finished(rs));
    ReturnComputes(c, d, tokens, rs, bm);
    ReturnedFlights(c, d, rs, bm);
  }

  lemma PhaseFlights(c: Config, d: Dec, phase: Phase)
    requires IndicesOk(c, d) && Flights(c, d)
    ensures Flights(c, d.(phase := phase))
  {
    forall i | 0 <= i < |d.pipeline| ensures InFlight(d.(phase := phase), i) {
      assert InFlight(d, i);
    }
  }

  lemma ReturnSafe(c: Config, d: Dec, tokens: seq<Token>)
    requires DecInv(c, d) && d.phase.Submitted? && TokensFor(c, d, tokens)
    ensures Return(c, d, tokens).Ok?
    ensures var d1 := Return(c, d, tokens).value;
            && DecInv(c, d1) && d1.phase.Accepting?
            && d1.sched.bm.table.Keys <= d.sched.bm.table.Keys
            && d1.sched.unaccepted == d.sched.unaccepted
  {
    AnyOpen(c, d.sched, Next(d.sched.cur, c.pp));
    if Full(c, d) && d.futures[0].Some? {
      ReturnBatchSafe(c, d, tokens);
    } else if Full(c, d) {
      HeadIsLastStage(c, d);
      assert InFlight(d, 0);
      EmptyReturnFlights(c, d);
    } else {
      PhaseFlights(c, d, Accepting);
    }
  }

  lemma EmptyReturnFlights(c: Config, d: Dec)
    requires IndicesOk(c, d) && Rotation(c, d) && Flights(c, d) && Full(c, d) && d.futures[0].None?
    ensures var d1 := d.(pipeline := d.pipeline[1..], futures := d.futures[1..], phase := Accepting);
            IndicesOk(c, d1) && Rotation(c, d1) && Flights(c, d1)
  {
    HeadIsLastStage(c, d);
    var d1 := d.(pipeline := d.pipeline[1..], futures := d.futures[1..], phase := Accepting);
    assert InFlight(d, 0);
    forall i | 0 <= i < |d1.pipeline| ensures InFlight(d1, i) {
      assert InFlight(d, i + 1);
    }
    forall j | 0 <= j < |d1.sched.batches| && j !in d1.pipeline ensures !d1.sched.batches[j].started {
      if j != d.pipeline[0] {
        assert d.pipeline == [d.pipeline[0]] + d.pipeline[1..];
      }
    }
  }

  // ---------------------------------------------------------------- migrating in

  /** What the decoding side relies on when it takes a request from the bridge. */
  predicate Acceptable(c: Config, d: Dec, m: Mig)
    requires c.Valid()
  {
    && Live(m.req)
    && m.req.id !in d.sched.bm.table
    && |m.blockIndexes| == InNeed(m.req, c.blockSize)
  }

  lemma SumOne(f: Req -> nat, r: Req)
    ensures Sum(f, [r]) == f(r)
  {
    assert [r][1..] == [];
  }

  lemma MigratedCounted(s: Sched, r: Req, bm: BlockState, taken: seq<nat>)
    requires Counted(s, []) && r.id !in s.bm.table && Extends(s.bm, bm, r.id, taken)
    ensures Counted(s.(bm := bm), [r])
    ensures AllSum(IdF(r.id), s, []) == 0
  {
    assert AllSum(IdF(r.id), s, []) == 0;
    forall id ensures AllSum(IdF(id), s.(bm := bm), [r]) == if id in bm.table then 1 else 0 {
      SumOne(IdF(id), r);
      assert AllSum(IdF(id), s, []) == if id in s.bm.table then 1 else 0;
    }
  }

  lemma ExtendsOnlyChanges(bm: BlockState, bm2: BlockState, id: int, taken: seq<nat>)
    requires Extends(bm, bm2, id, taken)
    ensures OnlyChanges(bm, bm2, id) && AgreeExcept(bm.table, bm2.table, id)
  {
  }

  lemma MigratedPlaced(c: Config, s: Sched, r: Req, bm: BlockState, open: int)
    requires c.Valid() && Placed(c, s, [], open) && OnlyChanges(s.bm, bm, r.id)
    requires AllSum(IdF(r.id), s, []) == 0 && PromptSized(c, bm, r)
    ensures Placed(c, s.(bm := bm), [r], open)
  {
    PlacedUntouched(c, s, bm, r.id, [], open);
  }

  lemma MigratedBalanced(c: Config, s: Sched, r: Req, bm: BlockState, taken: seq<nat>)
    requires Balanced(c, s, []) && AllSum(IdF(r.id), s, []) == 0
    requires r.id !in s.bm.table && Extends(s.bm, bm, r.id, taken)
    ensures Balanced(c, s.(bm := bm), [r])
  {
    ExtendsOnlyChanges(s.bm, bm, r.id, taken);
    GpuHeldUntouched(s, bm.table, r.id, []);
    SumOne(HeldF(bm.table), r);
    assert bm.table[r.id] == [] + taken;
  }

  lemma MigratedInv(c: Config, s: Sched, r: Req, bm: BlockState, taken: seq<nat>, open: int)
    requires SchedInv(c, s, [], open) && r.id !in s.bm.table && Live(r)
    requires Extends(s.bm, bm, r.id, taken) && |taken| == InNeed(r, c.blockSize)
    ensures SchedInv(c, s.(bm := bm), [r], open)
  {
    MigratedCounted(s, r, bm, taken);
    ExtendsOnlyChanges(s.bm, bm, r.id, taken);
    assert |[] + taken| == |taken|;
    MigratedPlaced(c, s, r, bm, open);
    MigratedBalanced(c, s, r, bm, taken);
  }

  /** Tables of other requests survive an allocation, so do the calls in flight. */
  lemma FlightsKept(c: Config, d: Dec, bm: BlockState, phase: Phase, rest: seq<Mig>)
    requires DecInv(c, d)
    requires forall x :: x in d.sched.bm.table ==> x in bm.table && bm.table[x] == d.sched.bm.table[x]
    ensures var d1 := d.(sched := d.sched.(unaccepted := rest, bm := bm), phase := phase);
            IndicesOk(c, d1) && Flights(c, d1)
  {
    var d1 := d.(sched := d.sched.(unaccepted := rest, bm := bm), phase := phase);
    forall i | 0 <= i < |d.pipeline| ensures InFlight(d1, i) {
      assert InFlight(d, i);
      var k := d.pipeline[i];
      assert BatchPlaced(c, d.sched.bm, d.sched.batches[k].requests, k != OpenIndex(c, d));
      SameCall(d.sched.bm, bm, d.sched.batches[k].requests);
    }
  }

  /** A migration that should_accept let through finds its blocks and its two block lists
      have one length. */
  lemma MigrateBeginSafe(c: Config, d: Dec)
    requires DecInv(c, d) && d.phase.Accepting? && d.sched.unaccepted != []
    requires ShouldAccept(c, d.sched, d.sched.unaccepted[0]) && Acceptable(c, d, d.sched.unaccepted[0])
    ensures MigrateBegin(c, d).Ok?
    ensures var m, d1 := d.sched.unaccepted[0], MigrateBegin(c, d).value;
            && DecInv(c, d1) && d1.phase == Migrating(m)
            && d1.sched.bm.table.Keys == d.sched.bm.table.Keys + {m.req.id}
            && d1.sched.unaccepted == d.sched.unaccepted[1..]
  {
    var m := d.sched.unaccepted[0];
    var bare := m.req.(output := []);
    var taken := MigrateAllocates(c, d.sched.bm, m.req);
    var bm := Allocate(c.blockSize, d.sched.bm, bare).value;
    AllocatePartitioned(c.blockSize, d.sched.bm, bare, c.maxGpu, c.maxCpu);
    MigrateInv(c, d, m, bm, taken);
    ExtendsKeeps(d.sched.bm, bm, m.req.id, taken);
    MigrateComputes(c, d, bm);
  }

  lemma MigrateComputes(c: Config, d: Dec, bm: BlockState)
    requires c.Valid() && d.sched.unaccepted != []
    requires Allocate(c.blockSize, d.sched.bm, d.sched.unaccepted[0].req.(output := [])) == Ok(bm)
    requires d.sched.unaccepted[0].req.id in bm.table
    requires |bm.table[d.sched.unaccepted[0].req.id]| == |d.sched.unaccepted[0].blockIndexes|
    ensures MigrateBegin(c, d) == Ok(d.(sched := d.sched.(unaccepted := d.sched.unaccepted[1..], bm := bm),
                                        phase := Migrating(d.sched.unaccepted[0])))
  {
  }

  lemma ExtendsKeeps(bm: BlockState, bm2: BlockState, id: int, taken: seq<nat>)
    requires Extends(bm, bm2, id, taken) && id !in bm.table
    ensures forall x :: x in bm.table ==> x in bm2.table && bm2.table[x] == bm.table[x]
    ensures bm2.table.Keys == bm.table.Keys + {id} && |bm2.table[id]| == |taken|
  {
    assert [] + taken == taken;
  }

  lemma RotationKept(c: Config, d: Dec, s: Sched, phase: Phase)
    requires Rotation(c, d) && s.cur == d.sched.cur && !d.phase.Submitted? && !phase.Submitted?
    ensures Rotation(c, d.(sched := s, phase := phase))
  {
  }

  lemma MigrateInv(c: Config, d: Dec, m: Mig, bm: BlockState, taken: seq<nat>)
    requires DecInv(c, d) && d.phase.Accepting? && d.sched.unaccepted != []
    requires m.req.id !in d.sched.bm.table && Live(m.req)
    requires Extends(d.sched.bm, bm, m.req.id, taken) && |taken| == InNeed(m.req, c.blockSize)
    requires Intact(c, bm)
    ensures DecInv(c, d.(sched := d.sched.(unaccepted := d.sched.unaccepted[1..], bm := bm), phase := Migrating(m)))
  {
    var open := Next(d.sched.cur, c.pp);
    MigratedInv(c, d.sched, m.req, bm, taken, open);
    UnacceptedIrrelevant(c, d.sched.(bm := bm), d.sched.unaccepted[1..], [m.req], open);
    ExtendsKeeps(d.sched.bm, bm, m.req.id, taken);
    FlightsKept(c, d, bm, Migrating(m), d.sched.unaccepted[1..]);
    RotationKept(c, d, d.sched.(unaccepted := d.sched.unaccepted[1..], bm := bm), Migrating(m));
  }

  lemma MigrateAllocates(c: Config, bm: BlockState, r: Req) returns (taken: seq<nat>)
    requires c.Valid() && r.id !in bm.table && bm.table.Keys == bm.location.Keys
    requires InNeed(r, c.blockSize) <= bm.gpu.Avail()
    ensures Allocate(c.blockSize, bm, r.(output := [])).Ok?
    ensures Extends(bm, Allocate(c.blockSize, bm, r.(output := [])).value, r.id, taken)
    ensures |taken| == InNeed(r, c.blockSize)
  {
    var bare := r.(output := []);
    AllocateFails(c.blockSize, bm, bare);
    taken := AllocateExtends(c.blockSize, bm, bare);
  }

  lemma UnacceptedIrrelevant(c: Config, s: Sched, q: seq<Mig>, mig: seq<Req>, open: int)
    requires SchedInv(c, s, mig, open)
    ensures SchedInv(c, s.(unaccepted := q), mig, open)
  {
    var s1 := s.(unaccepted := q);
    forall id ensures AllSum(IdF(id), s1, mig) == if id in s1.bm.table then 1 else 0 {
      assert AllSum(IdF(id), s, mig) == if id in s.bm.table then 1 else 0;
    }
  }

  lemma MigrateEndSafe(c: Config, d: Dec)
    requires DecInv(c, d) && d.phase.Migrating?
    ensures DecInv(c, MigrateEnd(d)) && MigrateEnd(d).phase.Accepting?
  {
    EnqueuedInv(c, d.sched, d.phase.mig.req, Next(d.sched.cur, c.pp));
    forall i | 0 <= i < |d.pipeline| ensures InFlight(MigrateEnd(d), i) {
      assert InFlight(d, i);
    }
  }

  lemma EnqueuedSums(s: Sched, r: Req, f: Req -> nat)
    ensures GpuSum(f, s.(waiting := s.waiting + [r]), []) == GpuSum(f, s, [r])
    ensures AllSum(f, s.(waiting := s.waiting + [r]), []) == AllSum(f, s, [r])
  {
    SumSnoc(f, s.waiting, r);
    SumOne(f, r);
  }

  /** The migrated request joins the waiting queue with the blocks it got. */
  lemma EnqueuedInv(c: Config, s: Sched, r: Req, open: int)
    requires SchedInv(c, s, [r], open)
    ensures SchedInv(c, s.(waiting := s.waiting + [r]), [], open)
  {
    var s1 := s.(waiting := s.waiting + [r]);
    forall id ensures AllSum(IdF(id), s1, []) == if id in s1.bm.table then 1 else 0 {
      EnqueuedSums(s, r, IdF(id));
      assert AllSum(IdF(id), s, [r]) == if id in s.bm.table then 1 else 0;
    }
    EnqueuedSums(s, r, HeldF(s.bm.table));
    assert r in [r];
    forall j | 0 <= j < |s1.batches| ensures BatchPlaced(c, s1.bm, s1.batches[j].requests, j != open) {
      assert BatchPlaced(c, s.bm, s.batches[j].requests, j != open);
    }
  }

  lemma AddMigratingSafe(c: Config, d: Dec, m: Mig)
    requires DecInv(c, d)
    ensures DecInv(c, AddMigrating(d, m))
  {
    UnacceptedIrrelevant(c, d.sched, d.sched.unaccepted + [m], MigReqs(d), OpenIndex(c, d));
    FlightsKept(c, d, d.sched.bm, d.phase, d.sched.unaccepted + [m]);
  }

  lemma PhaseSafe(c: Config, d: Dec)
    requires DecInv(c, d) && d.phase.Accepting?
    ensures DecInv(c, d.(phase := Idle))
  {
    PhaseFlights(c, d, Idle);
  }

  lemma InitDecInv(c: Config)
    requires c.Valid()
    ensures DecInv(c, InitDec(c))
  {
    var d := InitDec(c);
    InitPartitioned(c.maxGpu, c.maxCpu);
    forall f: Req -> nat ensures AllSum(f, d.sched, []) == 0 && GpuSum(f, d.sched, []) == 0 {
      EmptyBatchesSum(f, c.pp);
    }
  }

  lemma {:induction false} EmptyBatchesSum(f: Req -> nat, n: nat)
    ensures SumBatches(f, InitBatches(n)) == 0
  {
    if n > 0 {
      assert InitBatches(n)[1..] == InitBatches(n - 1);
      EmptyBatchesSum(f, n - 1);
    }
  }
}
