/** Chunked prefill: the chunks of a prompt add up to the prompt, a batch stays within the token
    limit, and later stages run exactly the batches the first stage formed. */
module SimChunks {
  import opened Common
  import opened Sums
  import opened SimRequests
  import opened SimWorkers
  import opened SimCluster
  import opened SimMoves
  import opened SimInvariant

  // ---------------------------------------------------------------- batches stay together

  /** The batch is, request for request, one that a first stage formed. */
  ghost predicate IsBatch(chunks: seq<seq<SReq>>, b: seq<SReq>) {
    b != [] && b[0].chunk.Some? && 0 <= b[0].chunk.value < |chunks| && chunks[b[0].chunk.value] == b
  }

  /** A later stage's queue is a row of whole first-stage batches, no two alike. */
  ghost predicate Grouped(chunks: seq<seq<SReq>>, q: seq<SReq>)
    decreases |q|
  {
    q == [] ||
    (q[0].chunk.Some? && 0 <= q[0].chunk.value < |chunks| &&
     var b := chunks[q[0].chunk.value];
     && b != [] && b <= q
     && (forall r :: r in q[|b|..] ==> r.chunk != q[0].chunk)
     && Grouped(chunks, q[|b|..]))
  }

  ghost predicate LoggedOk(l: Limits, chunks: seq<seq<SReq>>) {
    forall k :: 0 <= k < |chunks| ==>
      && |chunks[k]| <= l.prefillMaxBatch && CurrentSum(chunks[k]) <= l.prefillMaxTokens
      && forall r :: r in chunks[k] ==> r.chunk == Some(k)
  }

  ghost predicate BatchOk(l: Limits, chunks: seq<seq<SReq>>, job: Option<Job>) {
    job.Some? && job.value.prefill != [] ==>
      && IsBatch(chunks, job.value.prefill)
      && CurrentSum(job.value.prefill) + |job.value.decode| <= l.prefillMaxTokens
  }

  ghost predicate WorkersGrouped(c: Cluster, s: Sim)
    requires Sized(c, s)
  {
    forall i :: 0 <= i < |s.workers| ==>
      && BatchOk(c.limits, s.chunks, s.workers[i].job)
      && (!c.nodes[i].First() ==> Grouped(s.chunks, s.workers[i].prefillQ))
  }

  /** Counts the requests under chunk id k. */
  ghost function Under(k: int): Weight {
    (p: Place, r: SReq) => if p.In? && (p.kind == PrefillQ || p.kind == PrefillJob) && r.chunk == Some(k) then 1 else 0
  }

  ghost function LoggedSize(chunks: seq<seq<SReq>>, k: int): nat {
    if 0 <= k < |chunks| then |chunks[k]| else 0
  }

  ghost predicate NoExtra(s: Sim) { forall k: int :: Total(Under(k), s) <= LoggedSize(s.chunks, k) }

  ghost predicate Regrouped(c: Cluster, s: Sim) {
    Sized(c, s) && LoggedOk(c.limits, s.chunks) && WorkersGrouped(c, s) && NoExtra(s)
  }

  // ---------------------------------------------------------------- groups in a queue

  lemma {:induction false} GroupedExtends(chunks: seq<seq<SReq>>, more: seq<seq<SReq>>, q: seq<SReq>)
    requires Grouped(chunks, q) && chunks <= more
    ensures Grouped(more, q)
    decreases |q|
  {
    if q != [] {
      GroupedExtends(chunks, more, q[|chunks[q[0].chunk.value]|..]);
    }
  }

  lemma {:induction false} GroupedAppend(chunks: seq<seq<SReq>>, q: seq<SReq>, b: seq<SReq>)
    requires Grouped(chunks, q) && IsBatch(chunks, b)
    requires forall r :: r in b ==> r.chunk == b[0].chunk
    requires forall r :: r in q ==> r.chunk != b[0].chunk
    ensures Grouped(chunks, q + b)
    decreases |q|
  {
    if q == [] {
      assert q + b == b;
      assert b[|b|..] == [];
    } else {
      var g := chunks[q[0].chunk.value];
      GroupedAppend(chunks, q[|g|..], b);
      assert (q + b)[|g|..] == q[|g|..] + b;
      assert q[0] in q;
    }
  }

  /** A later stage takes its first group, whole, and nothing else. */
  lemma {:induction false} EnterLaterTakesGroup(q: seq<SReq>, n: nat, b: seq<SReq>, chunk: Option<int>)
    requires b <= q && |b| <= n
    requires forall r :: r in b ==> r.chunk == chunk
    requires forall r :: r in q[|b|..] ==> r.chunk != chunk
    ensures EnterLater(q, n, chunk) == Split(b, q[|b|..])
    decreases |b|
  {
    if b == [] {
      if q != [] { assert q[0] in q[|b|..]; }
    } else {
      assert q[0] == b[0] && q[0] in b;
      EnterLaterTakesGroup(q[1..], n - 1, b[1..], chunk);
      assert b == [q[0]] + b[1..];
    }
  }

  // ---------------------------------------------------------------- counting under a chunk id

  lemma {:induction false} NoneUnder(k: int, p: Place, q: seq<SReq>)
    requires p.In? && p.kind == PrefillQ && Sum(At(Under(k), p), q) == 0
    ensures forall r :: r in q ==> r.chunk != Some(k)
  {
    forall r | r in q ensures r.chunk != Some(k) {
      SumMember(At(Under(k), p), q, r);
    }
  }

  lemma {:induction false} AllUnder(k: int, p: Place, q: seq<SReq>)
    requires p.In? && p.kind == PrefillJob && forall r :: r in q ==> r.chunk == Some(k)
    ensures Sum(At(Under(k), p), q) == |q|
  {
    if q != [] {
      AllUnder(k, p, q[1..]);
    }
  }

  lemma {:induction false} AtMostUnder(k: int, p: Place, q: seq<SReq>)
    ensures Sum(At(Under(k), p), q) <= |q|
    ensures !(p.In? && (p.kind == PrefillQ || p.kind == PrefillJob)) ==> Sum(At(Under(k), p), q) == 0
  {
    if q != [] {
      AtMostUnder(k, p, q[1..]);
    }
  }

  /** No request waiting at worker j is under the chunk id of the batch running at worker i. */
  lemma RunningBatchIsNotQueued(c: Cluster, s: Sim, i: nat, j: nat)
    requires Regrouped(c, s) && CanFinish(s, i) && j < |s.workers| && s.workers[i].job.value.prefill != []
    ensures var b := s.workers[i].job.value.prefill;
            && (forall r :: r in b ==> r.chunk == b[0].chunk)
            && (forall r :: r in s.workers[j].prefillQ ==> r.chunk != b[0].chunk)
  {
    var b := s.workers[i].job.value.prefill;
    assert BatchOk(c.limits, s.chunks, s.workers[i].job);
    var k := b[0].chunk.value;
    AllUnder(k, In(PrefillJob, i), b);
    WorkerWithin(Under(k), s.workers, |s.workers|, i);
    if i != j {
      TwoWithin(Under(k), s.workers, |s.workers|, i, j);
    }
    assert Total(Under(k), s) <= LoggedSize(s.chunks, k);
    NoneUnder(k, In(PrefillQ, j), s.workers[j].prefillQ);
  }

  lemma {:induction false} MovesUnder(c: Cluster, k: int, ms: seq<Move>, chunk: nat)
    requires k != chunk && forall m :: m in ms ==> Legal(c, m, chunk) && PlaceOk(c, m.from, m.before)
    ensures Sum(Entering(Under(k)), ms) <= Sum(Leaving(Under(k)), ms)
  {
    if ms != [] {
      assert Legal(c, ms[0], chunk) && PlaceOk(c, ms[0].from, ms[0].before);
      MovesUnder(c, k, ms[1..], chunk);
    }
  }

  lemma StartUnder(c: Cluster, s: Sim, i: nat, k: int)
    requires WellFormed(c) && Sound(c, s) && NoExtra(s) && CanStart(s, i)
    ensures Total(Under(k), Start(c, s, i)) <= LoggedSize(Start(c, s, i).chunks, k)
  {
    var e := Begins(i);
    RoundMoves(c, s, e);
    RoundTotal(Under(k), c, s, e);
    assert Total(Under(k), s) <= LoggedSize(s.chunks, k);
    if k != |s.chunks| {
      MovesUnder(c, k, StartMoves(c, s, i), |s.chunks|);
    } else if StartsPrefill(c, s, i) && c.nodes[i].First() {
      FreshUnder(c, s, i);
    } else {
      NoFreshUnder(c, s, i);
    }
  }

  lemma FreshUnder(c: Cluster, s: Sim, i: nat)
    requires WellFormed(c) && Sound(c, s) && CanStart(s, i) && StartsPrefill(c, s, i) && c.nodes[i].First()
    ensures Sum(Entering(Under(|s.chunks|)), StartMoves(c, s, i)) <= |Start(c, s, i).workers[i].job.value.prefill|
  {
    StartEntering(c, s, i, |s.chunks|);
    AtMostUnder(|s.chunks|, In(PrefillJob, i), Start(c, s, i).workers[i].job.value.prefill);
  }

  lemma NoFreshUnder(c: Cluster, s: Sim, i: nat)
    requires WellFormed(c) && Sound(c, s) && NoExtra(s) && CanStart(s, i)
    requires !(StartsPrefill(c, s, i) && c.nodes[i].First())
    ensures Sum(Entering(Under(|s.chunks|)), StartMoves(c, s, i)) == 0
  {
    var k := |s.chunks|;
    StartEntering(c, s, i, k);
    var p := Start(c, s, i).workers[i].job.value.prefill;
    if p != [] {
      assert Total(Under(k), s) == 0;
      WorkerWithin(Under(k), s.workers, |s.workers|, i);
      NoneUnder(k, In(PrefillQ, i), s.workers[i].prefillQ);
      FirstQueueRemains(c, s, i);
      BeginTakes(c.limits, false, s.workers[i], k);
      assert p == s.workers[i].prefillQ[..|p|];
      SumZero(At(Under(k), In(PrefillJob, i)), p);
    }
  }

  lemma StartEntering(c: Cluster, s: Sim, i: nat, k: int)
    requires WellFormed(c) && Sound(c, s) && CanStart(s, i)
    ensures Sum(Entering(Under(k)), StartMoves(c, s, i))
         == Sum(At(Under(k), In(PrefillJob, i)), Start(c, s, i).workers[i].job.value.prefill)
  {
    var w := s.workers[i];
    var job := Start(c, s, i).workers[i].job.value;
    FirstQueueRemains(c, s, i);
    BeginTakes(c.limits, c.nodes[i].First(), w, |s.chunks|);
    ZipSums(Under(k), In(PrefillQ, i), w.prefillQ, In(PrefillJob, i), job.prefill);
    ZipSums(Under(k), In(DecodeQ, i), w.decodeQ, In(DecodeJob, i), job.decode);
    SumAppend(Entering(Under(k)), Zip(In(PrefillQ, i), w.prefillQ, In(PrefillJob, i), job.prefill),
              Zip(In(DecodeQ, i), w.decodeQ, In(DecodeJob, i), job.decode));
    AtMostUnder(k, In(DecodeJob, i), job.decode);
  }

  // ---------------------------------------------------------------- a round begins

  /** The first stage's batch respects every limit, although both the budget and the running
      chunk size shrink the allowance. */
  lemma FirstBatch(l: Limits, w: Worker, chunk: nat)
    requires l.Valid() && AllRemain(w.prefillQ) && w.prefillQ != [] && !HasBackPressure(l, w.decodeQ)
    ensures var job := Begin(l, true, w, chunk).job.value;
            && |job.prefill| <= l.prefillMaxBatch
            && (forall r :: r in job.prefill ==> r.chunk == Some(chunk))
            && CurrentSum(job.prefill) <= l.prefillMaxTokens
            && CurrentSum(job.prefill) + |job.decode| <= l.prefillMaxTokens
  {
    EnterFirstSpec(l, w.prefillQ, l.prefillMaxBatch, chunk, l.prefillMaxTokens, 0);
    var p := EnterPrefill(l, true, w.prefillQ, chunk).picked;
    EnterDecodesSpec(w.decodeQ, l.prefillMaxTokens - CurrentSum(p), CONTEXT_CAP);
    forall r | r in p ensures r.chunk == Some(chunk) {
      var k :| 0 <= k < |p| && p[k] == r;
      assert CutFrom(l, w.prefillQ[k], p[k], chunk);
    }
  }

  /** A later stage's batch is the first-stage batch at the head of its queue. */
  lemma LaterBatch(l: Limits, chunks: seq<seq<SReq>>, w: Worker, chunk: nat)
    requires l.Valid() && LoggedOk(l, chunks) && Grouped(chunks, w.prefillQ)
    requires w.prefillQ != [] && !HasBackPressure(l, w.decodeQ)
    ensures BatchOk(l, chunks, Begin(l, false, w, chunk).job)
    ensures Grouped(chunks, Begin(l, false, w, chunk).prefillQ)
  {
    var b := chunks[w.prefillQ[0].chunk.value];
    EnterLaterTakesGroup(w.prefillQ, l.prefillMaxBatch, b, w.prefillQ[0].chunk);
    EnterDecodesSpec(w.decodeQ, l.prefillMaxTokens - CurrentSum(b), CONTEXT_CAP);
  }

  /** A batch just formed joins the log. */
  lemma FirstLogged(l: Limits, chunks: seq<seq<SReq>>, w: Worker)
    requires l.Valid() && AllRemain(w.prefillQ) && w.prefillQ != [] && !HasBackPressure(l, w.decodeQ)
    requires LoggedOk(l, chunks)
    ensures var job := Begin(l, true, w, |chunks|).job;
            LoggedOk(l, chunks + [job.value.prefill]) && BatchOk(l, chunks + [job.value.prefill], job)
  {
    FirstBatch(l, w, |chunks|);
    FreshIsBatch(chunks, Begin(l, true, w, |chunks|).job.value.prefill);
  }

  lemma StartFirst(c: Cluster, s: Sim, i: nat)
    requires WellFormed(c) && Sound(c, s) && Regrouped(c, s) && CanStart(s, i)
    requires StartsPrefill(c, s, i) && c.nodes[i].First()
    ensures LoggedOk(c.limits, Start(c, s, i).chunks)
    ensures BatchOk(c.limits, Start(c, s, i).chunks, Start(c, s, i).workers[i].job)
  {
    FirstQueueRemains(c, s, i);
    FirstLogged(c.limits, s.chunks, s.workers[i]);
  }

  lemma StartLater(c: Cluster, s: Sim, i: nat)
    requires WellFormed(c) && Regrouped(c, s) && CanStart(s, i)
    requires StartsPrefill(c, s, i) && !c.nodes[i].First()
    ensures BatchOk(c.limits, Start(c, s, i).chunks, Start(c, s, i).workers[i].job)
    ensures Grouped(Start(c, s, i).chunks, Start(c, s, i).workers[i].prefillQ)
  {
    LaterBatch(c.limits, s.chunks, s.workers[i], |s.chunks|);
  }

  lemma StartBatch(c: Cluster, s: Sim, i: nat)
    requires WellFormed(c) && Sound(c, s) && Regrouped(c, s) && CanStart(s, i)
    ensures LoggedOk(c.limits, Start(c, s, i).chunks)
    ensures BatchOk(c.limits, Start(c, s, i).chunks, Start(c, s, i).workers[i].job)
    ensures !c.nodes[i].First() ==> Grouped(Start(c, s, i).chunks, Start(c, s, i).workers[i].prefillQ)
  {
    if StartsPrefill(c, s, i) {
      if c.nodes[i].First() {
        StartFirst(c, s, i);
      } else {
        StartLater(c, s, i);
      }
    }
  }

  lemma FreshIsBatch(chunks: seq<seq<SReq>>, b: seq<SReq>)
    requires b != [] ==> b[0].chunk == Some(|chunks|)
    ensures b != [] ==> IsBatch(chunks + [b], b)
  {
  }

  lemma StartRegrouped(c: Cluster, s: Sim, i: nat)
    requires WellFormed(c) && Sound(c, s) && Regrouped(c, s) && CanStart(s, i)
    ensures Regrouped(c, Start(c, s, i))
  {
    var t := Start(c, s, i);
    StartBatch(c, s, i);
    forall j | 0 <= j < |t.workers|
      ensures BatchOk(c.limits, t.chunks, t.workers[j].job)
      ensures !c.nodes[j].First() ==> Grouped(t.chunks, t.workers[j].prefillQ)
    {
      if j != i {
        assert BatchOk(c.limits, s.chunks, s.workers[j].job);
        if !c.nodes[j].First() {
          GroupedExtends(s.chunks, t.chunks, s.workers[j].prefillQ);
        }
      }
    }
    forall k: int ensures Total(Under(k), t) <= LoggedSize(t.chunks, k) {
      StartUnder(c, s, i, k);
    }
  }

  // ---------------------------------------------------------------- a round ends

  /** A stage that is not the last hands its whole batch to the next queue. */
  lemma {:induction false} ForwardBatch(c: Cluster, s: Sim, i: nat, items: seq<SReq>)
    requires WellFormed(c) && Sized(c, s) && i < |c.nodes| && !c.nodes[i].Last()
    ensures c.nodes[i].next < |s.workers|
    ensures forall k :: 0 <= k < |s.workers| ==>
              ExitPrefill(c, s, i, items).workers[k].prefillQ
              == (if k == c.nodes[i].next then s.workers[k].prefillQ + items else s.workers[k].prefillQ)
    decreases |items|
  {
    assert Linked(c.nodes, i);
    if items != [] {
      ForwardBatch(c, ExitOnePrefill(c, s, i, items[0]), i, items[1..]);
      assert items == [items[0]] + items[1..];
    }
  }

  /** The last stage only feeds first stages. */
  lemma {:induction false} LastFeedsFirst(c: Cluster, s: Sim, i: nat, items: seq<SReq>)
    requires WellFormed(c) && Sized(c, s) && i < |c.nodes| && c.nodes[i].Last()
    ensures forall k :: 0 <= k < |s.workers| && !c.nodes[k].First() ==>
              ExitPrefill(c, s, i, items).workers[k].prefillQ == s.workers[k].prefillQ
    decreases |items|
  {
    assert Linked(c.nodes, i);
    if items != [] {
      LastFeedsFirst(c, ExitOnePrefill(c, s, i, items[0]), i, items[1..]);
    }
  }

  lemma {:induction false} ExitKeepsChunks(c: Cluster, s: Sim, i: nat, p: seq<SReq>, d: seq<SReq>)
    requires WellFormed(c) && Sized(c, s) && i < |c.nodes|
    ensures ExitDecode(c, ExitPrefill(c, s, i, p), i, d).chunks == s.chunks
    decreases |p|, |d|
  {
    if p != [] {
      ExitKeepsChunks(c, ExitOnePrefill(c, s, i, p[0]), i, p[1..], d);
    } else if d != [] {
      assert Linked(c.nodes, i);
      var after := FinishDecode(d[0], c.nodes[i].Last());
      var t := Deliver(s, DecodeOnPlace(c, i, after), after);
      assert ExitPrefill(c, t, i, []) == t;
      ExitKeepsChunks(c, t, i, [], d[1..]);
    }
  }

  lemma FinishQueues(c: Cluster, s: Sim, i: nat)
    requires WellFormed(c) && Regrouped(c, s) && CanFinish(s, i)
    ensures forall j :: 0 <= j < |s.workers| && !c.nodes[j].First() ==>
              Grouped(s.chunks, Finish(c, s, i).workers[j].prefillQ)
  {
    var job := s.workers[i].job.value;
    var s1 := s.(workers := s.workers[i := s.workers[i].(job := None)]);
    DecodeExitJobs(c, ExitPrefill(c, s1, i, job.prefill), i, job.decode);
    if c.nodes[i].Last() {
      LastFeedsFirst(c, s1, i, job.prefill);
    } else {
      ForwardBatch(c, s1, i, job.prefill);
      var j := c.nodes[i].next;
      assert Linked(c.nodes, i);
      if job.prefill != [] {
        RunningBatchIsNotQueued(c, s, i, j);
        assert BatchOk(c.limits, s.chunks, s.workers[i].job);
        assert Grouped(s.chunks, s.workers[j].prefillQ);
        GroupedAppend(s.chunks, s.workers[j].prefillQ, job.prefill);
      } else {
        assert s.workers[j].prefillQ + [] == s.workers[j].prefillQ;
      }
    }
  }

  lemma FinishRegrouped(c: Cluster, s: Sim, i: nat)
    requires WellFormed(c) && Sound(c, s) && Regrouped(c, s) && CanFinish(s, i)
    ensures Regrouped(c, Finish(c, s, i))
  {
    var t := Finish(c, s, i);
    FinishQueues(c, s, i);
    FinishJobs(c, s, i);
    ExitKeepsChunks(c, s.(workers := s.workers[i := s.workers[i].(job := None)]), i,
                    s.workers[i].job.value.prefill, s.workers[i].job.value.decode);
    forall k: int ensures Total(Under(k), t) <= LoggedSize(t.chunks, k) {
      RoundMoves(c, s, Ends(i));
      RoundTotal(Under(k), c, s, Ends(i));
      FinishLegal(c, s, i, |s.chunks| + 1 + if k >= 0 then k else 0);
      MovesUnder(c, k, FinishMoves(c, s, i), |s.chunks| + 1 + if k >= 0 then k else 0);
      assert Total(Under(k), s) <= LoggedSize(s.chunks, k);
    }
  }

  // ---------------------------------------------------------------- over a run

  lemma ArrivalRegrouped(c: Cluster, s: Sim, r: SReq)
    requires WellFormed(c) && Regrouped(c, s) && IsNew(r)
    ensures Regrouped(c, Arrive(c, s, r))
  {
    var t := Arrive(c, s, r);
    BestHeadIsHead(s, true, c.decodeHeads);
    BestHeadIsHead(s, false, c.prefillHeads);
    forall k: int ensures Total(Under(k), t) <= LoggedSize(t.chunks, k) {
      ArrivalTotal(Under(k), c, s, r);
      assert Total(Under(k), s) <= LoggedSize(s.chunks, k);
    }
  }

  lemma StepRegrouped(c: Cluster, s: Sim, e: Event)
    requires WellFormed(c) && Sound(c, s) && Regrouped(c, s) && Enabled(s, e)
    requires e.Arrival? ==> IsNew(e.r)
    ensures Regrouped(c, Step(c, s, e))
  {
    match e
    case Arrival(r) => ArrivalRegrouped(c, s, r);
    case Begins(i) => StartRegrouped(c, s, i);
    case Ends(i) => FinishRegrouped(c, s, i);
  }

  lemma {:induction false} RunRegrouped(c: Cluster, s: Sim, es: seq<Event>)
    requires WellFormed(c) && Sound(c, s) && Regrouped(c, s) && Possible(c, s, es)
    requires AllNew(Arrivals(es))
    ensures Regrouped(c, Run(c, s, es))
    decreases |es|
  {
    if es != [] {
      assert es[0].Arrival? ==> Arrivals(es)[0] == es[0].r;
      StepRegrouped(c, s, es[0]);
      StepSound(c, s, es[0]);
      RunRegrouped(c, Step(c, s, es[0]), es[1..]);
    }
  }

  lemma EmptyRegrouped(c: Cluster)
    ensures Regrouped(c, EmptySim(c))
  {
    forall k: int ensures Total(Under(k), EmptySim(c)) <= LoggedSize([], k) {
      EmptyTotal(Under(k), c, |c.nodes|);
    }
  }

  /** In every reachable state, every prefill batch in progress, at whatever stage, is exactly a
      batch that a first stage formed, and with the decode requests that ride along it stays
      within prefill_max_tokens. */
  lemma BatchesStayWhole(c: Cluster, es: seq<Event>, i: nat)
    requires WellFormed(c) && Possible(c, EmptySim(c), es) && AllNew(Arrivals(es)) && i < |c.nodes|
    ensures var s := Run(c, EmptySim(c), es);
            s.workers[i].job.Some? && s.workers[i].job.value.prefill != [] ==>
              && s.workers[i].job.value.prefill in s.chunks
              && CurrentSum(s.workers[i].job.value.prefill) + |s.workers[i].job.value.decode|
                 <= c.limits.prefillMaxTokens
  {
    SoundStart(c);
    EmptyRegrouped(c);
    RunRegrouped(c, EmptySim(c), es);
    assert BatchOk(c.limits, Run(c, EmptySim(c), es).chunks, Run(c, EmptySim(c), es).workers[i].job);
  }

  // ---------------------------------------------------------------- chunks add up

  /** Prompt tokens of the request not yet scheduled, counted while it prefills. */
  ghost function Unscheduled(id: int): Weight {
    (p: Place, r: SReq) =>
      if p.In? && (p.kind == PrefillQ || p.kind == PrefillJob) && r.id == id && r.remain > 0 then r.remain else 0
  }

  /** Sizes of the chunks cut for the request in one batch, and in all of them. */
  function CutOf(id: int, b: seq<SReq>): int {
    if b == [] then 0 else (if b[0].id == id then b[0].current else 0) + CutOf(id, b[1..])
  }

  function ChunkTokens(id: int, chunks: seq<seq<SReq>>): int {
    if chunks == [] then 0
    else ChunkTokens(id, chunks[..|chunks| - 1]) + CutOf(id, chunks[|chunks| - 1])
  }

  function PromptTokens(id: int, rs: seq<SReq>): int {
    if rs == [] then 0
    else (if rs[0].id == id && rs[0].counter < 0 then rs[0].prefillLens else 0) + PromptTokens(id, rs[1..])
  }

  lemma {:induction false} CutsAccount(l: Limits, id: int, i: nat, q: seq<SReq>, p: seq<SReq>, chunk: nat)
    requires AllRemain(q) && |p| <= |q| && forall k :: 0 <= k < |p| ==> CutFrom(l, q[k], p[k], chunk)
    ensures var ms := Zip(In(PrefillQ, i), q, In(PrefillJob, i), p);
            Sum(Entering(Unscheduled(id)), ms) + CutOf(id, p) == Sum(Leaving(Unscheduled(id)), ms)
    decreases |p|
  {
    if p != [] {
      assert CutFrom(l, q[0], p[0], chunk);
      assert q[0] in q;
      assert forall k :: 0 <= k < |p[1..]| ==> p[1..][k] == p[k + 1] && q[1..][k] == q[k + 1];
      CutsAccount(l, id, i, q[1..], p[1..], chunk);
    }
  }

  ghost predicate Cuts(c: Cluster, m: Move) {
    m.from.In? && m.from.kind == PrefillQ && m.from.node < |c.nodes| && c.nodes[m.from.node].First()
  }

  lemma {:induction false} OtherMovesKeep(c: Cluster, id: int, ms: seq<Move>, chunk: nat)
    requires forall m :: m in ms ==> Legal(c, m, chunk) && PlaceOk(c, m.from, m.before)
    requires forall m :: m in ms ==> !Cuts(c, m)
    ensures Sum(Entering(Unscheduled(id)), ms) == Sum(Leaving(Unscheduled(id)), ms)
  {
    if ms != [] {
      assert Legal(c, ms[0], chunk) && PlaceOk(c, ms[0].from, ms[0].before);
      OtherMovesKeep(c, id, ms[1..], chunk);
    }
  }

  lemma {:induction false} DecodesKeep(id: int, i: nat, q: seq<SReq>, d: seq<SReq>)
    ensures var ms := Zip(In(DecodeQ, i), q, In(DecodeJob, i), d);
            Sum(Entering(Unscheduled(id)), ms) == 0 && Sum(Leaving(Unscheduled(id)), ms) == 0
  {
    if q != [] && d != [] {
      DecodesKeep(id, i, q[1..], d[1..]);
    }
  }

  lemma FirstStartAccounts(c: Cluster, s: Sim, i: nat, id: int)
    requires WellFormed(c) && Sound(c, s) && CanStart(s, i) && c.nodes[i].First()
    ensures var p := Start(c, s, i).workers[i].job.value.prefill;
            Sum(Entering(Unscheduled(id)), StartMoves(c, s, i)) + CutOf(id, p)
            == Sum(Leaving(Unscheduled(id)), StartMoves(c, s, i))
  {
    var w := s.workers[i];
    FirstQueueRemains(c, s, i);
    BeginTakes(c.limits, true, w, |s.chunks|);
    var job := Start(c, s, i).workers[i].job.value;
    CutsAccount(c.limits, id, i, w.prefillQ, job.prefill, |s.chunks|);
    DecodesKeep(id, i, w.decodeQ, job.decode);
    var a := Zip(In(PrefillQ, i), w.prefillQ, In(PrefillJob, i), job.prefill);
    var b := Zip(In(DecodeQ, i), w.decodeQ, In(DecodeJob, i), job.decode);
    SumAppend(Entering(Unscheduled(id)), a, b);
    SumAppend(Leaving(Unscheduled(id)), a, b);
  }

  lemma StartMovesAccount(c: Cluster, s: Sim, i: nat, id: int)
    requires WellFormed(c) && Sound(c, s) && CanStart(s, i)
    ensures Sum(Entering(Unscheduled(id)), StartMoves(c, s, i)) + ChunkTokens(id, Start(c, s, i).chunks)
         == Sum(Leaving(Unscheduled(id)), StartMoves(c, s, i)) + ChunkTokens(id, s.chunks)
  {
    if c.nodes[i].First() {
      FirstStartAccounts(c, s, i, id);
      var p := Start(c, s, i).workers[i].job.value.prefill;
      assert (s.chunks + [p])[..|s.chunks|] == s.chunks;
    } else {
      RoundMoves(c, s, Begins(i));
      FirstQueueRemains(c, s, i);
      StartLegal(c, s, i);
      OtherMovesKeep(c, id, StartMoves(c, s, i), |s.chunks|);
    }
  }

  lemma FinishMovesAccount(c: Cluster, s: Sim, i: nat, id: int)
    requires WellFormed(c) && Sound(c, s) && CanFinish(s, i)
    ensures Sum(Entering(Unscheduled(id)), FinishMoves(c, s, i)) == Sum(Leaving(Unscheduled(id)), FinishMoves(c, s, i))
    ensures Finish(c, s, i).chunks == s.chunks
  {
    RoundMoves(c, s, Ends(i));
    FinishLegal(c, s, i, |s.chunks|);
    OtherMovesKeep(c, id, FinishMoves(c, s, i), |s.chunks|);
    ExitKeepsChunks(c, s.(workers := s.workers[i := s.workers[i].(job := None)]), i,
                    s.workers[i].job.value.prefill, s.workers[i].job.value.decode);
  }

  lemma RoundAccounts(c: Cluster, s: Sim, e: Event, id: int)
    requires WellFormed(c) && Sound(c, s) && Enabled(s, e) && !e.Arrival?
    ensures Total(Unscheduled(id), Step(c, s, e)) + ChunkTokens(id, Step(c, s, e).chunks)
         == Total(Unscheduled(id), s) + ChunkTokens(id, s.chunks)
  {
    RoundTotal(Unscheduled(id), c, s, e);
    match e
    case Begins(i) => StartMovesAccount(c, s, i, id);
    case Ends(i) => FinishMovesAccount(c, s, i, id);
  }

  lemma {:induction false} RunAccounts(c: Cluster, s: Sim, es: seq<Event>, id: int)
    requires WellFormed(c) && Sound(c, s) && Possible(c, s, es) && AllNew(Arrivals(es))
    ensures Total(Unscheduled(id), Run(c, s, es)) + ChunkTokens(id, Run(c, s, es).chunks)
         == Total(Unscheduled(id), s) + ChunkTokens(id, s.chunks) + PromptTokens(id, Arrivals(es))
    decreases |es|
  {
    if es != [] {
      var rest := Arrivals(es[1..]);
      if es[0].Arrival? {
        assert Arrivals(es) == [es[0].r] + rest;
        ArrivalTotal(Unscheduled(id), c, s, es[0].r);
      } else {
        assert Arrivals(es) == rest;
        RoundAccounts(c, s, es[0], id);
      }
      StepSound(c, s, es[0]);
      RunAccounts(c, Step(c, s, es[0]), es[1..], id);
    }
  }

  /** In every reachable state, what has been scheduled of a prompt in chunks and what is still
      unscheduled make up the prompt. */
  lemma ChunksAddUp(c: Cluster, es: seq<Event>, id: int)
    requires WellFormed(c) && Possible(c, EmptySim(c), es) && AllNew(Arrivals(es))
    ensures var s := Run(c, EmptySim(c), es);
            ChunkTokens(id, s.chunks) + Total(Unscheduled(id), s) == PromptTokens(id, Arrivals(es))
  {
    SoundStart(c);
    EmptyTotal(Unscheduled(id), c, |c.nodes|);
    RunAccounts(c, EmptySim(c), es, id);
  }

  /** Once a request no longer prefills anywhere, its chunks sum to its prompt. */
  lemma ChunksSumToPrompt(c: Cluster, es: seq<Event>, id: int)
    requires WellFormed(c) && Possible(c, EmptySim(c), es) && AllNew(Arrivals(es))
    requires var s := Run(c, EmptySim(c), es);
             forall i :: 0 <= i < |s.workers| ==> NotPrefilling(id, s.workers[i])
    ensures ChunkTokens(id, Run(c, EmptySim(c), es).chunks) == PromptTokens(id, Arrivals(es))
  {
    var s := Run(c, EmptySim(c), es);
    ChunksAddUp(c, es, id);
    NothingUnscheduled(id, s, |s.workers|);
    SumZero(At(Unscheduled(id), Exited), s.exited);
  }

  predicate NotPrefilling(id: int, w: Worker) {
    && (forall r :: r in w.prefillQ ==> r.id != id)
    && (w.job.Some? ==> forall r :: r in w.job.value.prefill ==> r.id != id)
  }

  lemma {:induction false} NothingUnscheduled(id: int, s: Sim, k: nat)
    requires k <= |s.workers| && forall i :: 0 <= i < |s.workers| ==> NotPrefilling(id, s.workers[i])
    ensures OfWorkers(Unscheduled(id), s.workers, k) == 0
  {
    if k > 0 {
      NothingUnscheduled(id, s, k - 1);
      var w := s.workers[k - 1];
      assert NotPrefilling(id, w);
      SumZero(At(Unscheduled(id), In(PrefillQ, k - 1)), w.prefillQ);
      SumZero(At(Unscheduled(id), In(DecodeQ, k - 1)), w.decodeQ);
      if w.job.Some? {
        SumZero(At(Unscheduled(id), In(PrefillJob, k - 1)), w.job.value.prefill);
        SumZero(At(Unscheduled(id), In(DecodeJob, k - 1)), w.job.value.decode);
      }
    }
  }
}
