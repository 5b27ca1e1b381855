/** How often the simulated cluster decodes a request: once for each output token it had left when
    it arrived, no more and no less. */
module SimTokens {
  import opened Common
  import opened Sums
  import opened SimRequests
  import opened SimCluster
  import opened SimMoves
  import opened SimInvariant
  import opened SimTermination

  /** Output tokens the request still wants. */
  function ToDecode(r: SReq): nat {
    var done := if r.counter > 0 then r.counter else 0;
    if r.outputLens > done then r.outputLens - done else 0
  }

  /** What the arrivals under an id want together. */
  function Wanted(id: int, rs: seq<SReq>): nat {
    if rs == [] then 0 else (if rs[0].id == id then ToDecode(rs[0]) else 0) + Wanted(id, rs[1..])
  }

  /** Trips through the decoding stages that the request ends in this event: it is in the decode part
      of a batch that ends on a last stage. */
  function TripsEnded(c: Cluster, s: Sim, e: Event, id: int): nat
    requires Sized(c, s) && Enabled(s, e)
  {
    if e.Ends? && c.nodes[e.i].Last() then Count(id, s.workers[e.i].job.value.decode) else 0
  }

  function TripsOf(c: Cluster, s: Sim, es: seq<Event>, id: int): nat
    requires WellFormed(c) && Sized(c, s) && Possible(c, s, es)
    decreases |es|
  {
    if es == [] then 0 else TripsEnded(c, s, es[0], id) + TripsOf(c, Step(c, s, es[0]), es[1..], id)
  }

  // ---------------------------------------------------------------- move by move

  ghost function Left(id: int): Weight {
    (p: Place, r: SReq) => var k: nat := ToDecode(r); if p.In? && r.id == id then k else 0
  }

  /** The last stage is done with the request's decode. */
  ghost function AtEnd(c: Cluster, id: int): Weight {
    (p: Place, r: SReq) =>
      if p.In? && p.kind == DecodeJob && p.node < |c.nodes| && c.nodes[p.node].Last() && r.id == id then 1 else 0
  }

  lemma MoveDecodes(c: Cluster, m: Move, chunk: nat, id: int)
    requires WellFormed(c) && Legal(c, m, chunk) && PlaceOk(c, m.from, m.before)
    ensures Left(id)(m.to, m.after) + AtEnd(c, id)(m.from, m.before) == Left(id)(m.from, m.before)
  {
  }

  lemma {:induction false} MovesDecode(c: Cluster, ms: seq<Move>, chunk: nat, id: int)
    requires WellFormed(c)
    requires forall m :: m in ms ==> Legal(c, m, chunk) && PlaceOk(c, m.from, m.before)
    ensures Sum(Entering(Left(id)), ms) + Sum(Leaving(AtEnd(c, id)), ms) == Sum(Leaving(Left(id)), ms)
  {
    if ms != [] {
      MoveDecodes(c, ms[0], chunk, id);
      MovesDecode(c, ms[1..], chunk, id);
    }
  }

  lemma {:induction false} CountAtEnd(c: Cluster, i: nat, q: seq<SReq>, id: int)
    requires i < |c.nodes| && c.nodes[i].Last()
    ensures Sum(At(AtEnd(c, id), In(DecodeJob, i)), q) == Count(id, q)
  {
    if q != [] {
      CountAtEnd(c, i, q[1..], id);
    }
  }

  lemma EndTrips(c: Cluster, s: Sim, i: nat, id: int)
    requires WellFormed(c) && Sized(c, s) && CanFinish(s, i)
    ensures Sum(Leaving(AtEnd(c, id)), FinishMoves(c, s, i)) == TripsEnded(c, s, Ends(i), id)
  {
    var W := AtEnd(c, id);
    var job := s.workers[i].job.value;
    var s1 := s.(workers := s.workers[i := s.workers[i].(job := None)]);
    PrefillExitTotal(W, c, s1, i, job.prefill);
    DecodeExitTotal(W, c, s1, i, job.decode);
    SumAppend(Leaving(W), PrefillMoves(c, s1, i, job.prefill), DecodeMoves(c, i, job.decode));
    SumZero(At(W, In(PrefillJob, i)), job.prefill);
    if c.nodes[i].Last() {
      CountAtEnd(c, i, job.decode, id);
    } else {
      SumZero(At(W, In(DecodeJob, i)), job.decode);
    }
  }

  lemma RoundTrips(c: Cluster, s: Sim, e: Event, id: int)
    requires WellFormed(c) && Sound(c, s) && Enabled(s, e) && !e.Arrival?
    ensures Sum(Leaving(AtEnd(c, id)), Moves(c, s, e)) == TripsEnded(c, s, e, id)
  {
    match e
    case Begins(i) =>
      FirstQueueRemains(c, s, i);
      StartLegal(c, s, i);
      SumZero(Leaving(AtEnd(c, id)), StartMoves(c, s, i));
    case Ends(i) => EndTrips(c, s, i, id);
  }

  lemma RoundDecodes(c: Cluster, s: Sim, e: Event, id: int)
    requires WellFormed(c) && Sound(c, s) && Enabled(s, e) && !e.Arrival?
    ensures Total(Left(id), Step(c, s, e)) + TripsEnded(c, s, e, id) == Total(Left(id), s)
  {
    RoundMoves(c, s, e);
    RoundTotal(Left(id), c, s, e);
    MovesDecode(c, Moves(c, s, e), |s.chunks|, id);
    RoundTrips(c, s, e, id);
  }

  lemma ArrivalLeft(c: Cluster, s: Sim, r: SReq, id: int)
    requires WellFormed(c) && Sized(c, s)
    ensures Total(Left(id), Arrive(c, s, r)) == Total(Left(id), s) + if r.id == id then ToDecode(r) else 0
  {
    ArrivalTotal(Left(id), c, s, r);
  }

  // ---------------------------------------------------------------- over a run

  /** At every moment of a run the trips ended and the output tokens still wanted make up what the
      arrivals wanted. */
  lemma {:induction false} TripsAddUp(c: Cluster, s: Sim, es: seq<Event>, id: int)
    requires WellFormed(c) && Sound(c, s) && Possible(c, s, es) && AllNew(Arrivals(es))
    ensures TripsOf(c, s, es, id) + Total(Left(id), Run(c, s, es)) == Total(Left(id), s) + Wanted(id, Arrivals(es))
    decreases |es|
  {
    if es != [] {
      var rest := Arrivals(es[1..]);
      if es[0].Arrival? {
        assert Arrivals(es) == [es[0].r] + rest;
        ArrivalLeft(c, s, es[0].r, id);
      } else {
        assert Arrivals(es) == rest;
        RoundDecodes(c, s, es[0], id);
      }
      StepSound(c, s, es[0]);
      TripsAddUp(c, Step(c, s, es[0]), es[1..], id);
    }
  }

  /** Once nothing is left to do, each request has been decoded once for each output token it wanted. */
  lemma DecodedOncePerToken(c: Cluster, es: seq<Event>, id: int)
    requires WellFormed(c) && Possible(c, EmptySim(c), es) && AllNew(Arrivals(es))
    requires Quiescent(Run(c, EmptySim(c), es))
    ensures TripsOf(c, EmptySim(c), es, id) == Wanted(id, Arrivals(es))
  {
    var t := Run(c, EmptySim(c), es);
    SoundStart(c);
    EmptyTotal(Left(id), c, |c.nodes|);
    TripsAddUp(c, EmptySim(c), es, id);
    QuiescentTotal(Left(id), t, |t.workers|);
    SumZero(At(Left(id), Exited), t.exited);
  }
}
