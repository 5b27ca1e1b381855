/** Every simulation of servable requests ends, with every request out exactly once. */
module SimTermination {
  import opened Sums
  import opened SimRequests
  import opened SimCluster
  import opened SimMoves
  import opened SimInvariant

  // ---------------------------------------------------------------- the measure

  function LongestRing(nodes: seq<Node>): nat {
    if nodes == [] then 1
    else
      var m := LongestRing(nodes[1..]);
      if nodes[0].size > m then nodes[0].size else m
  }

  lemma {:induction false} RingWithin(nodes: seq<Node>, i: nat)
    requires i < |nodes|
    ensures nodes[i].size <= LongestRing(nodes)
  {
    if i > 0 {
      assert nodes[1..][i - 1] == nodes[i];
      RingWithin(nodes[1..], i - 1);
    }
  }

  function Pos(x: int): nat { if x >= 0 then x else 0 }

  function HopsLeft(c: Cluster, i: nat): nat {
    if i < |c.nodes| then Pos(c.nodes[i].size - c.nodes[i].rank) else 0
  }

  /** Stages still to visit while prefilling: one trip of at most p stages for each prompt token
      not yet scheduled and for each output token, and the rest of the current trip. */
  function PrefillHops(p: nat, r: SReq): nat { (Pos(r.remain) + r.outputLens) * p }

  /** The same in the queue of a first stage, where even an empty prompt has a trip to make. */
  function QueuedHops(p: nat, r: SReq): nat { ((if r.remain > 1 then r.remain else 1) + r.outputLens) * p }

  function DecodeHops(p: nat, r: SReq): nat { Pos(r.outputLens - r.counter - 1) * p }

  function Hops(c: Cluster, p: nat, kind: Kind, i: nat, r: SReq): nat {
    match kind
    case PrefillQ =>
      if i < |c.nodes| && c.nodes[i].First() then QueuedHops(p, r) else PrefillHops(p, r) + HopsLeft(c, i)
    case PrefillJob => PrefillHops(p, r) + HopsLeft(c, i)
    case _ => DecodeHops(p, r) + HopsLeft(c, i)
  }

  /** Two units per stage left, and one more for a request that is still queued. */
  ghost function Cost(c: Cluster, p: nat): Weight {
    (at: Place, r: SReq) =>
      match at
      case Exited => 0
      case In(k, i) => 2 * Hops(c, p, k, i, r) + (if k == PrefillQ || k == DecodeQ then 1 else 0)
  }

  lemma OneTripLess(p: nat, a: nat, b: nat)
    requires a < b
    ensures a * p + p <= b * p
  {
    assert b * p == a * p + (b - a) * p;
    assert (b - a) * p >= p by {
      assert (b - a) * p == p + (b - a - 1) * p;
    }
  }

  lemma CutIsCheaper(c: Cluster, p: nat, m: Move, chunk: nat)
    requires WellFormed(c) && LongestRing(c.nodes) <= p
    requires Legal(c, m, chunk) && PlaceOk(c, m.from, m.before) && m.from.kind == PrefillQ
    ensures Cost(c, p)(m.to, m.after) + 1 <= Cost(c, p)(m.from, m.before)
  {
    var i := m.from.node;
    RingWithin(c.nodes, i);
    if c.nodes[i].First() {
      OneTripLess(p, Pos(m.after.remain) + m.after.outputLens,
                  (if m.before.remain > 1 then m.before.remain else 1) + m.before.outputLens);
    }
  }

  lemma PrefillStageIsCheaper(c: Cluster, p: nat, m: Move, chunk: nat)
    requires WellFormed(c) && LongestRing(c.nodes) <= p
    requires Legal(c, m, chunk) && PlaceOk(c, m.from, m.before) && m.from.kind == PrefillJob
    ensures Cost(c, p)(m.to, m.after) + 1 <= Cost(c, p)(m.from, m.before)
  {
    var i := m.from.node;
    assert Linked(c.nodes, i);
    if m.to.In? && m.to.kind == DecodeQ {
      RingWithin(c.nodes, m.to.node);
      OneTripLess(p, Pos(m.after.outputLens - m.after.counter - 1), Pos(m.before.remain) + m.before.outputLens);
    }
  }

  lemma DecodeStageIsCheaper(c: Cluster, p: nat, m: Move, chunk: nat)
    requires WellFormed(c) && LongestRing(c.nodes) <= p
    requires Legal(c, m, chunk) && PlaceOk(c, m.from, m.before) && m.from.kind == DecodeJob
    ensures Cost(c, p)(m.to, m.after) + 1 <= Cost(c, p)(m.from, m.before)
  {
    var i := m.from.node;
    assert Linked(c.nodes, i);
    if m.to.In? && c.nodes[i].Last() {
      RingWithin(c.nodes, m.to.node);
      OneTripLess(p, Pos(m.after.outputLens - m.after.counter - 1), Pos(m.before.outputLens - m.before.counter - 1));
    }
  }

  lemma {:induction false} MovesAreCheaper(c: Cluster, p: nat, ms: seq<Move>, chunk: nat)
    requires WellFormed(c) && LongestRing(c.nodes) <= p
    requires forall m :: m in ms ==> Legal(c, m, chunk) && PlaceOk(c, m.from, m.before)
    ensures Sum(Entering(Cost(c, p)), ms) + |ms| <= Sum(Leaving(Cost(c, p)), ms)
  {
    forall m | m in ms ensures Entering(Cost(c, p))(m) + 1 <= Leaving(Cost(c, p))(m) {
      match m.from.kind
      case PrefillQ => CutIsCheaper(c, p, m, chunk);
      case PrefillJob => PrefillStageIsCheaper(c, p, m, chunk);
      case DecodeJob => DecodeStageIsCheaper(c, p, m, chunk);
      case DecodeQ =>
    }
    MovesBelow(Entering(Cost(c, p)), Leaving(Cost(c, p)), ms);
  }

  /** Every round that begins and every round that ends strictly decreases the measure. */
  lemma RoundIsCheaper(c: Cluster, p: nat, s: Sim, e: Event)
    requires WellFormed(c) && LongestRing(c.nodes) <= p
    requires Lively(c, s) && Enabled(s, e) && !e.Arrival?
    ensures Total(Cost(c, p), Step(c, s, e)) < Total(Cost(c, p), s)
  {
    RoundMoves(c, s, e);
    RoundTotal(Cost(c, p), c, s, e);
    MovesAreCheaper(c, p, Moves(c, s, e), |s.chunks|);
    RoundMovesSomething(c, s, e);
  }

  /** The most rounds one request can take part in, counting begin and end separately. */
  function Allowance(p: nat, r: SReq): nat {
    if r.counter < 0 then 2 * QueuedHops(p, r) + 1 else 2 * (Pos(r.outputLens - r.counter) * p) + 1
  }

  function Allowances(p: nat, rs: seq<SReq>): nat {
    if rs == [] then 0 else Allowance(p, rs[0]) + Allowances(p, rs[1..])
  }

  lemma ArrivalCost(c: Cluster, s: Sim, r: SReq)
    requires WellFormed(c) && Sized(c, s)
    ensures var p := LongestRing(c.nodes);
            Cost(c, p)(ArrivalPlace(c, s, r), r) <= Allowance(p, r)
  {
    var p := LongestRing(c.nodes);
    BestHeadIsHead(s, true, c.decodeHeads);
    BestHeadIsHead(s, false, c.prefillHeads);
    if r.counter >= 0 && !ShouldFinish(r) {
      RingWithin(c.nodes, ArrivalPlace(c, s, r).node);
      OneTripLess(p, Pos(r.outputLens - r.counter - 1), Pos(r.outputLens - r.counter));
    }
  }

  lemma {:induction false} RunCost(c: Cluster, s: Sim, es: seq<Event>)
    requires WellFormed(c) && Lively(c, s) && Possible(c, s, es)
    requires AllNew(Arrivals(es)) && AllServable(c.limits, Arrivals(es))
    ensures var p := LongestRing(c.nodes);
            |es| + Total(Cost(c, p), Run(c, s, es))
            <= |Arrivals(es)| + Total(Cost(c, p), s) + Allowances(p, Arrivals(es))
    decreases |es|
  {
    if es != [] {
      var p := LongestRing(c.nodes);
      var rest := Arrivals(es[1..]);
      if es[0].Arrival? {
        assert Arrivals(es) == [es[0].r] + rest;
        ArrivalTotal(Cost(c, p), c, s, es[0].r);
        ArrivalCost(c, s, es[0].r);
      } else {
        assert Arrivals(es) == rest;
        RoundIsCheaper(c, p, s, es[0]);
      }
      StepLively(c, s, es[0]);
      RunCost(c, Step(c, s, es[0]), es[1..]);
    }
  }

  // ---------------------------------------------------------------- nobody is lost or doubled

  ghost function IsId(id: int): Weight { (p: Place, r: SReq) => if r.id == id then 1 else 0 }

  function Count(id: int, rs: seq<SReq>): nat {
    if rs == [] then 0 else (if rs[0].id == id then 1 else 0) + Count(id, rs[1..])
  }

  lemma {:induction false} CountIsSum(id: int, p: Place, rs: seq<SReq>)
    ensures Count(id, rs) == Sum(At(IsId(id), p), rs)
  {
    if rs != [] {
      CountIsSum(id, p, rs[1..]);
    }
  }

  lemma {:induction false} MovesKeepIds(c: Cluster, id: int, ms: seq<Move>, chunk: nat)
    requires forall m :: m in ms ==> Legal(c, m, chunk)
    ensures Sum(Entering(IsId(id)), ms) == Sum(Leaving(IsId(id)), ms)
  {
    if ms != [] {
      assert Legal(c, ms[0], chunk);
      MovesKeepIds(c, id, ms[1..], chunk);
    }
  }

  /** In every reachable state, a request is in exactly as many places as it arrived times. */
  lemma {:induction false} NobodyIsLost(c: Cluster, s: Sim, es: seq<Event>, id: int)
    requires WellFormed(c) && Sound(c, s) && Possible(c, s, es) && AllNew(Arrivals(es))
    ensures Total(IsId(id), Run(c, s, es)) == Total(IsId(id), s) + Count(id, Arrivals(es))
    decreases |es|
  {
    if es != [] {
      var rest := Arrivals(es[1..]);
      if es[0].Arrival? {
        assert Arrivals(es) == [es[0].r] + rest;
        ArrivalTotal(IsId(id), c, s, es[0].r);
      } else {
        assert Arrivals(es) == rest;
        RoundMoves(c, s, es[0]);
        RoundTotal(IsId(id), c, s, es[0]);
        MovesKeepIds(c, id, Moves(c, s, es[0]), |s.chunks|);
      }
      StepSound(c, s, es[0]);
      NobodyIsLost(c, Step(c, s, es[0]), es[1..], id);
    }
  }

  lemma {:induction false} QuiescentTotal(W: Weight, s: Sim, k: nat)
    requires Quiescent(s) && k <= |s.workers|
    ensures OfWorkers(W, s.workers, k) == 0
  {
    if k > 0 {
      QuiescentTotal(W, s, k - 1);
      assert !CanStart(s, k - 1) && !CanFinish(s, k - 1);
    }
  }

  // ---------------------------------------------------------------- the theorems

  /** No run is longer than a bound fixed by the requests that arrive, whatever the delays and
      whatever the order of events. */
  lemma EveryRunIsBounded(c: Cluster, es: seq<Event>)
    requires WellFormed(c) && Possible(c, EmptySim(c), es)
    requires AllNew(Arrivals(es)) && AllServable(c.limits, Arrivals(es))
    ensures |es| <= |Arrivals(es)| + Allowances(LongestRing(c.nodes), Arrivals(es))
  {
    LivelyStart(c);
    EmptyTotal(Cost(c, LongestRing(c.nodes)), c, |c.nodes|);
    RunCost(c, EmptySim(c), es);
  }

  /** When nothing is left to do, every arrival has exited as often as it arrived (exactly once
      when ids are unique), and every request that exited is finished. */
  lemma EveryoneExits(c: Cluster, es: seq<Event>)
    requires WellFormed(c) && Possible(c, EmptySim(c), es) && AllNew(Arrivals(es))
    requires Quiescent(Run(c, EmptySim(c), es))
    ensures forall id :: Count(id, Run(c, EmptySim(c), es).exited) == Count(id, Arrivals(es))
    ensures forall r :: r in Run(c, EmptySim(c), es).exited ==> ShouldFinish(r)
  {
    var t := Run(c, EmptySim(c), es);
    SoundStart(c);
    RunSound(c, EmptySim(c), es);
    NothingBad(c, Exited, t.exited);
    forall r | r in t.exited ensures ShouldFinish(r) {
      assert PlaceOk(c, Exited, r);
    }
    forall id ensures Count(id, t.exited) == Count(id, Arrivals(es)) {
      NobodyIsLost(c, EmptySim(c), es, id);
      EmptyTotal(IsId(id), c, |c.nodes|);
      QuiescentTotal(IsId(id), t, |t.workers|);
      CountIsSum(id, Exited, t.exited);
    }
  }

  /** From every state in which everybody can get through some continuation drains the system, so with the bound above
      every maximal run ends with everyone out. */
  lemma {:induction false} EveryRunCanDrain(c: Cluster, s: Sim) returns (es: seq<Event>)
    requires WellFormed(c) && Lively(c, s)
    ensures Possible(c, s, es) && Arrivals(es) == [] && Quiescent(Run(c, s, es))
    decreases Total(Cost(c, LongestRing(c.nodes)), s)
  {
    if Quiescent(s) {
      es := [];
    } else {
      var i :| 0 <= i < |s.workers| && (CanStart(s, i) || CanFinish(s, i));
      var e := if CanStart(s, i) then Begins(i) else Ends(i);
      RoundIsCheaper(c, LongestRing(c.nodes), s, e);
      RoundLively(c, s, e);
      var rest := EveryRunCanDrain(c, Step(c, s, e));
      es := [e] + rest;
      assert es[1..] == rest;
    }
  }
}
