/** What every reachable state of the simulation keeps: each request looks right where it is, those
    that can never finish stay, and while there are none no batch in progress is empty. */
module SimInvariant {
  import opened Common
  import opened Sums
  import opened SimRequests
  import opened SimWorkers
  import opened SimCluster
  import opened SimMoves
  import opened SimRounds

  // ---------------------------------------------------------------- what a request looks like where

  /** A request as its constructor makes it: nothing of the prompt is scheduled yet. */
  predicate IsNew(r: SReq) { r.remain == r.prefillLens && r.current == 0 && r.chunk.None? }

  predicate AllNew(rs: seq<SReq>) { forall r :: r in rs ==> IsNew(r) }

  /** A prompt a first stage is able to schedule. */
  predicate PromptFits(l: Limits, r: SReq) {
    if l.chunked then r.prefillLens >= 1 else r.prefillLens <= l.prefillMaxTokens
  }

  /** A context that stays under the cap of a decode batch up to the last token. */
  predicate ContextFits(r: SReq) { r.prefillLens + r.outputLens <= CONTEXT_CAP }

  /** Whether the simulator can ever finish an arriving request: if it is to be prefilled its
      prompt fits, and if it is to be decoded at all its context fits. */
  predicate Servable(l: Limits, r: SReq) {
    && (r.counter < 0 ==> PromptFits(l, r))
    && ((if r.counter > 0 then r.counter else 0) < r.outputLens ==> ContextFits(r))
  }

  predicate AllServable(l: Limits, rs: seq<SReq>) { forall r :: r in rs ==> Servable(l, r) }

  /** In the queue of a first stage: all of the prompt is left, or some of it after a chunk. */
  ghost predicate Waiting(l: Limits, r: SReq) {
    && r.counter < 0 && r.current == 0 && r.chunk.None?
    && (r.remain == r.prefillLens || (l.chunked && 1 <= r.remain < r.prefillLens))
  }

  ghost predicate InChunk(l: Limits, r: SReq) {
    && r.counter < 0 && r.chunk.Some? && PromptFits(l, r)
    && 0 <= r.remain && 0 <= r.current && r.remain + r.current <= r.prefillLens
    && (!l.chunked ==> r.remain == 0)
  }

  ghost predicate Decoding(r: SReq) { 0 <= r.counter < r.outputLens }

  ghost predicate PlaceOk(c: Cluster, p: Place, r: SReq) {
    match p
    case Exited => ShouldFinish(r)
    case In(PrefillQ, i) =>
      i < |c.nodes| && if c.nodes[i].First() then Waiting(c.limits, r) else InChunk(c.limits, r)
    case In(PrefillJob, i) => i < |c.nodes| && InChunk(c.limits, r)
    case In(DecodeQ, i) => i < |c.nodes| && Decoding(r)
    case In(DecodeJob, i) => i < |c.nodes| && Decoding(r) && ContextLen(r) + 1 <= CONTEXT_CAP
  }

  /** A legal move of a request that looks right leaves it looking right. */
  lemma LegalKeepsOk(c: Cluster, m: Move, chunk: nat)
    requires WellFormed(c) && Legal(c, m, chunk) && PlaceOk(c, m.from, m.before)
    ensures PlaceOk(c, m.to, m.after)
  {
    assert Linked(c.nodes, m.from.node);
  }

  // ---------------------------------------------------------------- the invariant

  ghost function Bad(c: Cluster): Weight { (p, r) => if PlaceOk(c, p, r) then 0 else 1 }

  /** Every request looks right where it is. */
  ghost predicate Sound(c: Cluster, s: Sim) { Sized(c, s) && Total(Bad(c), s) == 0 }

  lemma {:induction false} NothingBad(c: Cluster, p: Place, q: seq<SReq>)
    requires Sum(At(Bad(c), p), q) == 0
    ensures forall r :: r in q ==> PlaceOk(c, p, r)
  {
    forall r | r in q ensures PlaceOk(c, p, r) {
      SumMember(At(Bad(c), p), q, r);
    }
  }

  lemma QueuesOk(c: Cluster, s: Sim, i: nat)
    requires Sound(c, s) && i < |s.workers|
    ensures forall r :: r in s.workers[i].prefillQ ==> PlaceOk(c, In(PrefillQ, i), r)
    ensures forall r :: r in s.workers[i].decodeQ ==> PlaceOk(c, In(DecodeQ, i), r)
    ensures s.workers[i].job.Some? ==>
              && (forall r :: r in s.workers[i].job.value.prefill ==> PlaceOk(c, In(PrefillJob, i), r))
              && (forall r :: r in s.workers[i].job.value.decode ==> PlaceOk(c, In(DecodeJob, i), r))
  {
    WorkerWithin(Bad(c), s.workers, |s.workers|, i);
    NothingBad(c, In(PrefillQ, i), s.workers[i].prefillQ);
    NothingBad(c, In(DecodeQ, i), s.workers[i].decodeQ);
    if s.workers[i].job.Some? {
      NothingBad(c, In(PrefillJob, i), s.workers[i].job.value.prefill);
      NothingBad(c, In(DecodeJob, i), s.workers[i].job.value.decode);
    }
  }

  lemma FirstQueueRemains(c: Cluster, s: Sim, i: nat)
    requires Sound(c, s) && i < |s.workers|
    ensures c.nodes[i].First() ==> AllRemain(s.workers[i].prefillQ)
  {
    QueuesOk(c, s, i);
  }

  // ---------------------------------------------------------------- rounds

  /** A round is a list of legal moves of requests that look right, and every system-wide sum
      changes by exactly what the moves say. */
  lemma RoundMoves(c: Cluster, s: Sim, e: Event)
    requires WellFormed(c) && Sound(c, s) && Enabled(s, e) && !e.Arrival?
    ensures forall m :: m in Moves(c, s, e) ==> Legal(c, m, |s.chunks|) && PlaceOk(c, m.from, m.before)
  {
    match e
    case Begins(i) =>
      FirstQueueRemains(c, s, i);
      QueuesOk(c, s, i);
      StartLegal(c, s, i);
    case Ends(i) =>
      QueuesOk(c, s, i);
      FinishLegal(c, s, i, |s.chunks|);
  }

  lemma RoundTotal(W: Weight, c: Cluster, s: Sim, e: Event)
    requires WellFormed(c) && Sound(c, s) && Enabled(s, e) && !e.Arrival?
    ensures Total(W, Step(c, s, e)) + Sum(Leaving(W), Moves(c, s, e))
         == Total(W, s) + Sum(Entering(W), Moves(c, s, e))
  {
    match e
    case Begins(i) =>
      FirstQueueRemains(c, s, i);
      StartTotal(W, c, s, i);
    case Ends(i) => FinishTotal(W, c, s, i);
  }

  lemma ArrivalTotal(W: Weight, c: Cluster, s: Sim, r: SReq)
    requires WellFormed(c) && Sized(c, s)
    ensures Total(W, Arrive(c, s, r)) == Total(W, s) + W(ArrivalPlace(c, s, r), r)
  {
    ArrivalInRange(c, s, r);
    DeliverTotal(W, s, ArrivalPlace(c, s, r), r);
  }

  // ---------------------------------------------------------------- when a batch is empty

  /** Nobody waits to decode, or the first one's context is over the cap. */
  predicate NoDecode(q: seq<SReq>) { q == [] || ContextLen(q[0]) + 1 > CONTEXT_CAP }

  /** A batch takes something exactly when the head it looks at can be scheduled: something of the
      prompt is left to cut, or all of it fits the token limit, or the context of the first decode
      request is under the cap. */
  lemma BatchIsEmptyIff(l: Limits, first: bool, w: Worker, chunk: int)
    requires l.Valid() && (w.prefillQ != [] || w.decodeQ != [])
    requires first ==> AllRemain(w.prefillQ)
    ensures var job := Begin(l, first, w, chunk).job.value;
            (job.prefill == [] && job.decode == []) <==>
            if Prefills(l, w)
            then first && if l.chunked then w.prefillQ[0].remain <= 0 && NoDecode(w.decodeQ)
                          else w.prefillQ[0].remain > l.prefillMaxTokens
            else NoDecode(w.decodeQ)
  {
    if w.prefillQ != [] && !HasBackPressure(l, w.decodeQ) && first {
      assert w.prefillQ[0] in w.prefillQ;
    }
    PressesBackIff(l, w.decodeQ);
  }

  // ---------------------------------------------------------------- jobs through an exit

  lemma {:induction false} PrefillExitJobs(c: Cluster, s: Sim, i: nat, items: seq<SReq>)
    requires WellFormed(c) && Sized(c, s) && i < |c.nodes|
    ensures forall k :: 0 <= k < |s.workers| ==> ExitPrefill(c, s, i, items).workers[k].job == s.workers[k].job
    decreases |items|
  {
    if items != [] {
      PrefillExitJobs(c, ExitOnePrefill(c, s, i, items[0]), i, items[1..]);
    }
  }

  lemma {:induction false} DecodeExitJobs(c: Cluster, s: Sim, i: nat, items: seq<SReq>)
    requires WellFormed(c) && Sized(c, s) && i < |c.nodes|
    ensures forall k :: 0 <= k < |s.workers| ==>
              && ExitDecode(c, s, i, items).workers[k].job == s.workers[k].job
              && ExitDecode(c, s, i, items).workers[k].prefillQ == s.workers[k].prefillQ
    decreases |items|
  {
    if items != [] {
      assert Linked(c.nodes, i);
      var after := FinishDecode(items[0], c.nodes[i].Last());
      DecodeExitJobs(c, Deliver(s, DecodeOnPlace(c, i, after), after), i, items[1..]);
    }
  }

  /** A round that ends frees its worker and touches no other batch. */
  lemma FinishJobs(c: Cluster, s: Sim, i: nat)
    requires WellFormed(c) && Sized(c, s) && CanFinish(s, i)
    ensures forall k :: 0 <= k < |s.workers| ==>
              Finish(c, s, i).workers[k].job == if k == i then None else s.workers[k].job
  {
    var job := s.workers[i].job.value;
    var s1 := s.(workers := s.workers[i := s.workers[i].(job := None)]);
    PrefillExitJobs(c, s1, i, job.prefill);
    DecodeExitJobs(c, ExitPrefill(c, s1, i, job.prefill), i, job.decode);
  }

  // ---------------------------------------------------------------- the invariant is kept

  lemma {:induction false} BadMoves(c: Cluster, ms: seq<Move>, chunk: nat)
    requires WellFormed(c)
    requires forall m :: m in ms ==> Legal(c, m, chunk) && PlaceOk(c, m.from, m.before)
    ensures Sum(Entering(Bad(c)), ms) == 0
  {
    if ms != [] {
      LegalKeepsOk(c, ms[0], chunk);
      BadMoves(c, ms[1..], chunk);
    }
  }

  lemma SoundStart(c: Cluster)
    ensures Sound(c, EmptySim(c))
  {
    EmptyTotal(Bad(c), c, |c.nodes|);
  }

  lemma {:induction false} EmptyTotal(W: Weight, c: Cluster, k: nat)
    requires k <= |c.nodes|
    ensures OfWorkers(W, EmptySim(c).workers, k) == 0
  {
    if k > 0 {
      EmptyTotal(W, c, k - 1);
    }
  }

  lemma ArrivalSound(c: Cluster, s: Sim, r: SReq)
    requires WellFormed(c) && Sound(c, s) && IsNew(r)
    ensures Sound(c, Arrive(c, s, r))
  {
    ArrivalTotal(Bad(c), c, s, r);
    BestHeadIsHead(s, true, c.decodeHeads);
    BestHeadIsHead(s, false, c.prefillHeads);
    assert PlaceOk(c, ArrivalPlace(c, s, r), r);
  }

  lemma RoundSound(c: Cluster, s: Sim, e: Event)
    requires WellFormed(c) && Sound(c, s) && Enabled(s, e) && !e.Arrival?
    ensures Sound(c, Step(c, s, e))
  {
    RoundMoves(c, s, e);
    RoundTotal(Bad(c), c, s, e);
    BadMoves(c, Moves(c, s, e), |s.chunks|);
  }

  lemma StepSound(c: Cluster, s: Sim, e: Event)
    requires WellFormed(c) && Sound(c, s) && Enabled(s, e)
    requires e.Arrival? ==> IsNew(e.r)
    ensures Sound(c, Step(c, s, e))
  {
    if e.Arrival? {
      ArrivalSound(c, s, e.r);
    } else {
      RoundSound(c, s, e);
    }
  }

  lemma {:induction false} RunSound(c: Cluster, s: Sim, es: seq<Event>)
    requires WellFormed(c) && Sound(c, s) && Possible(c, s, es) && AllNew(Arrivals(es))
    ensures Sound(c, Run(c, s, es))
    decreases |es|
  {
    if es != [] {
      assert es[0].Arrival? ==> Arrivals(es)[0] == es[0].r;
      StepSound(c, s, es[0]);
      RunSound(c, Step(c, s, es[0]), es[1..]);
    }
  }

  // ---------------------------------------------------------------- who can never finish

  /** A request that will never get through, seen where it is. */
  predicate Hopeless(l: Limits, p: Place, r: SReq) {
    match p
    case Exited => false
    case In(kind, _) =>
      if kind == PrefillQ || kind == PrefillJob then !PromptFits(l, r) || (r.outputLens > 0 && !ContextFits(r))
      else !ContextFits(r)
  }

  ghost function Lost(c: Cluster): Weight { (p: Place, r: SReq) => if Hopeless(c.limits, p, r) then 1 else 0 }

  /** No move changes whether the request can get through. */
  lemma MoveKeepsHope(c: Cluster, m: Move, chunk: nat)
    requires WellFormed(c) && Legal(c, m, chunk) && PlaceOk(c, m.from, m.before)
    ensures Hopeless(c.limits, m.to, m.after) == Hopeless(c.limits, m.from, m.before)
  {
    assert Linked(c.nodes, m.from.node);
  }

  lemma {:induction false} MovesKeepHope(c: Cluster, ms: seq<Move>, chunk: nat)
    requires WellFormed(c)
    requires forall m :: m in ms ==> Legal(c, m, chunk) && PlaceOk(c, m.from, m.before)
    ensures Sum(Entering(Lost(c)), ms) == Sum(Leaving(Lost(c)), ms)
  {
    if ms != [] {
      MoveKeepsHope(c, ms[0], chunk);
      MovesKeepHope(c, ms[1..], chunk);
    }
  }

  lemma ArrivalHope(c: Cluster, s: Sim, r: SReq)
    requires WellFormed(c) && Sized(c, s)
    ensures Hopeless(c.limits, ArrivalPlace(c, s, r), r) == !Servable(c.limits, r)
  {
  }

  function CountUnservable(l: Limits, rs: seq<SReq>): nat {
    if rs == [] then 0 else (if Servable(l, rs[0]) then 0 else 1) + CountUnservable(l, rs[1..])
  }

  /** Of the requests in the system, as many can never get through as unservable ones arrived:
      no event saves one, and none makes another. */
  lemma {:induction false} UnservableStay(c: Cluster, s: Sim, es: seq<Event>)
    requires WellFormed(c) && Sound(c, s) && Possible(c, s, es) && AllNew(Arrivals(es))
    ensures Total(Lost(c), Run(c, s, es)) == Total(Lost(c), s) + CountUnservable(c.limits, Arrivals(es))
    decreases |es|
  {
    if es != [] {
      var rest := Arrivals(es[1..]);
      if es[0].Arrival? {
        assert Arrivals(es) == [es[0].r] + rest;
        ArrivalTotal(Lost(c), c, s, es[0].r);
        ArrivalHope(c, s, es[0].r);
      } else {
        assert Arrivals(es) == rest;
        RoundHope(c, s, es[0]);
      }
      StepSound(c, s, es[0]);
      UnservableStay(c, Step(c, s, es[0]), es[1..]);
    }
  }

  lemma RoundHope(c: Cluster, s: Sim, e: Event)
    requires WellFormed(c) && Sound(c, s) && Enabled(s, e) && !e.Arrival?
    ensures Total(Lost(c), Step(c, s, e)) == Total(Lost(c), s)
  {
    RoundMoves(c, s, e);
    RoundTotal(Lost(c), c, s, e);
    MovesKeepHope(c, Moves(c, s, e), |s.chunks|);
  }

  // ---------------------------------------------------------------- no empty batches

  ghost predicate NonEmptyJob(job: Option<Job>) {
    job.Some? ==> job.value.prefill != [] || job.value.decode != []
  }

  /** Everybody in the system can get through, and no batch in progress is empty. */
  ghost predicate Lively(c: Cluster, s: Sim) {
    && Sound(c, s) && Total(Lost(c), s) == 0
    && forall i :: 0 <= i < |s.workers| ==> NonEmptyJob(s.workers[i].job)
  }

  /** The heads of the queues can get through. */
  lemma HeadsHopeful(c: Cluster, s: Sim, i: nat)
    requires Lively(c, s) && i < |s.workers|
    ensures s.workers[i].prefillQ != [] ==> !Hopeless(c.limits, In(PrefillQ, i), s.workers[i].prefillQ[0])
    ensures s.workers[i].decodeQ != [] ==> !Hopeless(c.limits, In(DecodeQ, i), s.workers[i].decodeQ[0])
  {
    var w := s.workers[i];
    WorkerWithin(Lost(c), s.workers, |s.workers|, i);
    if w.prefillQ != [] {
      SumMember(At(Lost(c), In(PrefillQ, i)), w.prefillQ, w.prefillQ[0]);
    }
    if w.decodeQ != [] {
      SumMember(At(Lost(c), In(DecodeQ, i)), w.decodeQ, w.decodeQ[0]);
    }
  }

  /** A head that looks right and can get through can be scheduled. */
  lemma HopefulHeadsGo(c: Cluster, s: Sim, i: nat)
    requires Lively(c, s) && CanStart(s, i)
    ensures var w := s.workers[i];
            if Prefills(c.limits, w)
            then c.nodes[i].First() ==>
                   if c.limits.chunked then w.prefillQ[0].remain > 0
                   else w.prefillQ[0].remain <= c.limits.prefillMaxTokens
            else w.decodeQ != [] ==> ContextLen(w.decodeQ[0]) + 1 <= CONTEXT_CAP
  {
    var w := s.workers[i];
    QueuesOk(c, s, i);
    HeadsHopeful(c, s, i);
    if w.prefillQ != [] {
      assert PlaceOk(c, In(PrefillQ, i), w.prefillQ[0]);
    }
    if w.decodeQ != [] {
      assert PlaceOk(c, In(DecodeQ, i), w.decodeQ[0]);
    }
  }

  lemma StartTakesSomething(c: Cluster, s: Sim, i: nat)
    requires WellFormed(c) && Lively(c, s) && CanStart(s, i)
    ensures NonEmptyJob(Start(c, s, i).workers[i].job)
    ensures |StartMoves(c, s, i)| >= 1
  {
    var w := s.workers[i];
    var first := c.nodes[i].First();
    FirstQueueRemains(c, s, i);
    HopefulHeadsGo(c, s, i);
    BatchIsEmptyIff(c.limits, first, w, |s.chunks|);
    BeginTakes(c.limits, first, w, |s.chunks|);
    var job := Begin(c.limits, first, w, |s.chunks|).job.value;
    ZipAt(In(PrefillQ, i), w.prefillQ, In(PrefillJob, i), job.prefill);
    ZipAt(In(DecodeQ, i), w.decodeQ, In(DecodeJob, i), job.decode);
  }

  lemma RoundMovesSomething(c: Cluster, s: Sim, e: Event)
    requires WellFormed(c) && Lively(c, s) && Enabled(s, e) && !e.Arrival?
    ensures |Moves(c, s, e)| >= 1
  {
    match e
    case Begins(i) => StartTakesSomething(c, s, i);
    case Ends(i) =>
      FinishLegal(c, s, i, |s.chunks|);
      assert NonEmptyJob(s.workers[i].job);
  }

  lemma LivelyStart(c: Cluster)
    ensures Lively(c, EmptySim(c))
  {
    SoundStart(c);
    EmptyTotal(Lost(c), c, |c.nodes|);
  }

  lemma RoundLively(c: Cluster, s: Sim, e: Event)
    requires WellFormed(c) && Lively(c, s) && Enabled(s, e) && !e.Arrival?
    ensures Lively(c, Step(c, s, e))
  {
    RoundSound(c, s, e);
    RoundHope(c, s, e);
    match e
    case Begins(i) => StartTakesSomething(c, s, i);
    case Ends(i) => FinishJobs(c, s, i);
  }

  lemma StepLively(c: Cluster, s: Sim, e: Event)
    requires WellFormed(c) && Lively(c, s) && Enabled(s, e)
    requires e.Arrival? ==> IsNew(e.r) && Servable(c.limits, e.r)
    ensures Lively(c, Step(c, s, e))
  {
    if e.Arrival? {
      ArrivalSound(c, s, e.r);
      ArrivalTotal(Lost(c), c, s, e.r);
      ArrivalHope(c, s, e.r);
    } else {
      RoundLively(c, s, e);
    }
  }
}
