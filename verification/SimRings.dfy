/** Where the simulated clusters let a request go: a disaggregated cluster never mixes prefill and
    decode workers and hands over to the decode head with the fewest requests ahead; the other one
    keeps a request in the ring it was dispatched to. */
module SimRings {
  import opened Common
  import opened Sums
  import opened SimRequests
  import opened SimWorkers
  import opened SimCluster
  import opened SimMoves
  import opened SimInvariant

  // ---------------------------------------------------------------- how the rings lie

  /** From worker lo on, forwarding stays from lo on. */
  ghost predicate Closed(nodes: seq<Node>, lo: nat) {
    forall i :: lo <= i < |nodes| ==> lo <= nodes[i].next < |nodes|
  }

  /** The last stages leave the choice of what follows to the scheduler. */
  ghost predicate LastsLeave(nodes: seq<Node>) { forall i :: 0 <= i < |nodes| && nodes[i].Last() ==> !nodes[i].stay }

  ghost predicate AllStay(nodes: seq<Node>) { forall i :: 0 <= i < |nodes| ==> nodes[i].stay }

  /** The first worker of the ring that worker i is in. */
  ghost function Base(nodes: seq<Node>, i: nat): int
    requires i < |nodes|
  {
    i - nodes[i].rank
  }

  ghost predicate SameRing(nodes: seq<Node>) {
    forall i :: 0 <= i < |nodes| ==> nodes[i].next < |nodes| && Base(nodes, nodes[i].next) == Base(nodes, i)
  }

  lemma RingClosed(nodes: seq<Node>, size: nat, stay: bool, lo: nat)
    requires Closed(nodes, lo) && lo <= |nodes| && size >= 1
    ensures Closed(nodes + Ring(|nodes|, size, stay), lo)
  {
    var ring := Ring(|nodes|, size, stay);
    var more := nodes + ring;
    forall i | lo <= i < |more| ensures lo <= more[i].next < |more| {
      if i < |nodes| {
        assert more[i] == nodes[i];
      } else {
        assert more[i] == ring[i - |nodes|];
      }
    }
  }

  lemma RingSame(nodes: seq<Node>, size: nat, stay: bool)
    requires SameRing(nodes) && size >= 1
    ensures SameRing(nodes + Ring(|nodes|, size, stay))
  {
    var ring := Ring(|nodes|, size, stay);
    var more := nodes + ring;
    forall i | 0 <= i < |more| ensures more[i].next < |more| && Base(more, more[i].next) == Base(more, i) {
      if i < |nodes| {
        assert more[i] == nodes[i] && more[nodes[i].next] == nodes[nodes[i].next];
        assert Base(nodes, nodes[i].next) == Base(nodes, i);
      } else {
        var k := i - |nodes|;
        assert more[i] == ring[k];
        assert more[ring[k].next] == ring[if k == size - 1 then 0 else k + 1];
      }
    }
  }

  lemma {:induction false} RingsClosed(nodes: seq<Node>, count: nat, size: nat, stay: bool, lo: nat)
    requires Closed(nodes, lo) && lo <= |nodes| && size >= 1
    ensures Closed(AddRings(nodes, count, size, stay), lo)
    decreases count
  {
    if count > 0 {
      RingClosed(nodes, size, stay, lo);
      RingsClosed(nodes + Ring(|nodes|, size, stay), count - 1, size, stay, lo);
    }
  }

  lemma {:induction false} RingsSame(nodes: seq<Node>, count: nat, size: nat, stay: bool)
    requires SameRing(nodes) && size >= 1
    ensures SameRing(AddRings(nodes, count, size, stay))
    decreases count
  {
    if count > 0 {
      RingSame(nodes, size, stay);
      RingsSame(nodes + Ring(|nodes|, size, stay), count - 1, size, stay);
    }
  }

  lemma {:induction false} RingsLeave(nodes: seq<Node>, count: nat, size: nat)
    requires LastsLeave(nodes)
    ensures LastsLeave(AddRings(nodes, count, size, false))
    decreases count
  {
    if count > 0 {
      RingsLeave(nodes + Ring(|nodes|, size, false), count - 1, size);
    }
  }

  lemma {:induction false} RingsStay(nodes: seq<Node>, count: nat, size: nat)
    requires AllStay(nodes)
    ensures AllStay(AddRings(nodes, count, size, true))
    decreases count
  {
    if count > 0 {
      RingsStay(nodes + Ring(|nodes|, size, true), count - 1, size);
    }
  }

  lemma {:induction false} HeadsWithin(base: nat, count: nat, size: nat)
    requires size >= 1
    ensures forall h :: h in RingHeads(base, count, size) ==> base <= h < base + count * size
    decreases count
  {
    if count > 0 {
      HeadsWithin(base + size, count - 1, size);
      assert count * size == size + (count - 1) * size;
    }
  }

  // ---------------------------------------------------------------- the wiring, worker by worker

  /** The workers from base on are `count` rings of `size` stages, one after the other: each stage
      forwards to the one after it and the last to the first, and only the last may let go. */
  ghost predicate LaidOut(nodes: seq<Node>, base: nat, count: nat, size: nat, stay: bool) {
    && base + count * size <= |nodes|
    && forall k, j :: 0 <= k < count && 0 <= j < size ==> StageAt(nodes, base, k, j, size, stay)
  }

  ghost predicate StageAt(nodes: seq<Node>, base: nat, k: nat, j: nat, size: nat, stay: bool) {
    var first := base + k * size;
    && first + j < |nodes|
    && nodes[first + j] == Node(j, size, if j + 1 < size then first + j + 1 else first, stay || j + 1 < size)
  }

  lemma {:induction false} RingsLaidOut(nodes: seq<Node>, count: nat, size: nat, stay: bool)
    requires size >= 1
    ensures LaidOut(AddRings(nodes, count, size, stay), |nodes|, count, size, stay)
    ensures nodes <= AddRings(nodes, count, size, stay)
    decreases count
  {
    if count > 0 {
      var ring := Ring(|nodes|, size, stay);
      var all := AddRings(nodes, count, size, stay);
      RingsLaidOut(nodes + ring, count - 1, size, stay);
      assert count * size == size + (count - 1) * size;
      forall k, j | 0 <= k < count && 0 <= j < size ensures StageAt(all, |nodes|, k, j, size, stay) {
        if k == 0 {
          assert all[|nodes| + j] == (nodes + ring)[|nodes| + j] == ring[j];
        } else {
          assert k * size == size + (k - 1) * size;
          assert StageAt(all, |nodes + ring|, k - 1, j, size, stay);
        }
      }
    }
  }

  lemma {:induction false} HeadsLaidOut(base: nat, count: nat, size: nat)
    ensures |RingHeads(base, count, size)| == count
    ensures forall k :: 0 <= k < count ==> RingHeads(base, count, size)[k] == base + k * size
    decreases count
  {
    if count > 0 {
      HeadsLaidOut(base + size, count - 1, size);
      forall k | 0 < k < count ensures k * size == size + (k - 1) * size {
      }
    }
  }

  /** The disaggregated cluster: prefill rings whose last stages let go, then decode rings, with one
      head for each ring. */
  lemma DisaggLayout(n: nat, m: nat, pp: nat, dd: nat, l: Limits)
    requires pp >= 1 && dd >= 1
    ensures var c := Disagg(n, m, pp, dd, l);
            && |c.nodes| == n * pp + m * dd
            && LaidOut(c.nodes, 0, n, pp, false) && LaidOut(c.nodes, n * pp, m, dd, true)
            && |c.prefillHeads| == n && (forall k :: 0 <= k < n ==> c.prefillHeads[k] == k * pp)
            && |c.decodeHeads| == m && (forall k :: 0 <= k < m ==> c.decodeHeads[k] == n * pp + k * dd)
  {
    var nodes := AddRings([], n, pp, false);
    AddRingsWired([], n, pp, false);
    RingsLaidOut([], n, pp, false);
    AddRingsWired(nodes, m, dd, true);
    RingsLaidOut(nodes, m, dd, true);
    HeadsLaidOut(0, n, pp);
    HeadsLaidOut(n * pp, m, dd);
    var all := AddRings(nodes, m, dd, true);
    forall k, j | 0 <= k < n && 0 <= j < pp ensures StageAt(all, 0, k, j, pp, false) {
      assert StageAt(nodes, 0, k, j, pp, false);
    }
  }

  /** The other one: rings that keep their requests, with one head each. */
  lemma VllmLayout(n: nat, pp: nat, l: Limits)
    requires pp >= 1
    ensures var c := Vllm(n, pp, l);
            && |c.nodes| == n * pp && LaidOut(c.nodes, 0, n, pp, true)
            && c.prefillHeads == c.decodeHeads && |c.decodeHeads| == n
            && forall k :: 0 <= k < n ==> c.decodeHeads[k] == k * pp
  {
    AddRingsWired([], n, pp, true);
    RingsLaidOut([], n, pp, true);
    HeadsLaidOut(0, n, pp);
  }

  // ---------------------------------------------------------------- two parts

  /** The workers below `border` prefill, the others decode, and only the scheduler leads across. */
  ghost predicate TwoParts(c: Cluster, border: nat) {
    && border <= |c.nodes|
    && (forall i :: 0 <= i < border ==> c.nodes[i].next < border && (c.nodes[i].Last() ==> !c.nodes[i].stay))
    && Closed(c.nodes, border)
    && (forall h :: h in c.prefillHeads ==> h < border)
    && (forall h :: h in c.decodeHeads ==> border <= h < |c.nodes|)
  }

  lemma DisaggHasTwoParts(n: nat, m: nat, pp: nat, dd: nat, l: Limits)
    requires n >= 1 && m >= 1 && pp >= 1 && dd >= 1
    ensures TwoParts(Disagg(n, m, pp, dd, l), n * pp)
  {
    var nodes := AddRings([], n, pp, false);
    AddRingsWired([], n, pp, false);
    AddRingsWired(nodes, m, dd, true);
    RingsClosed([], n, pp, false, 0);
    RingsLeave([], n, pp);
    RingsClosed(nodes, m, dd, true, |nodes|);
    HeadsWithin(0, n, pp);
    HeadsWithin(|nodes|, m, dd);
    var all := AddRings(nodes, m, dd, true);
    assert forall i :: 0 <= i < |nodes| ==> all[i] == nodes[i];
  }

  /** A request for decoding on a prefill worker, or for prefill on a decode worker. */
  ghost function Misplaced(border: nat): Weight {
    (p: Place, r: SReq) =>
      if p.In? && (p.node < border <==> p.kind == DecodeQ || p.kind == DecodeJob) then 1 else 0
  }

  lemma MoveStaysPlaced(c: Cluster, border: nat, m: Move, chunk: nat)
    requires WellFormed(c) && TwoParts(c, border) && Legal(c, m, chunk) && Misplaced(border)(m.from, m.before) == 0
    ensures Misplaced(border)(m.to, m.after) == 0
  {
    assert Linked(c.nodes, m.from.node);
  }

  /** Whoever moves counted for what it was before. */
  lemma MoverWithin(W: Weight, c: Cluster, s: Sim, e: Event, m: Move)
    requires WellFormed(c) && Sound(c, s) && Enabled(s, e) && !e.Arrival? && m in Moves(c, s, e)
    ensures W(m.from, m.before) <= Total(W, s)
  {
    match e
    case Begins(i) =>
      FirstQueueRemains(c, s, i);
      StartLegal(c, s, i);
      WorkerWithin(W, s.workers, |s.workers|, i);
      SumMember(At(W, m.from), if m.from.kind == PrefillQ then s.workers[i].prefillQ else s.workers[i].decodeQ,
                m.before);
    case Ends(i) =>
      FinishLegal(c, s, i, |s.chunks|);
      WorkerWithin(W, s.workers, |s.workers|, i);
      var job := s.workers[i].job.value;
      SumMember(At(W, m.from), if m.from.kind == PrefillJob then job.prefill else job.decode, m.before);
  }

  ghost predicate Placed(border: nat, s: Sim) { Total(Misplaced(border), s) == 0 }

  lemma RoundPlaced(c: Cluster, border: nat, s: Sim, e: Event)
    requires WellFormed(c) && TwoParts(c, border) && Sound(c, s) && Placed(border, s)
    requires Enabled(s, e) && !e.Arrival?
    ensures Placed(border, Step(c, s, e))
  {
    var W := Misplaced(border);
    RoundMoves(c, s, e);
    RoundTotal(W, c, s, e);
    forall m | m in Moves(c, s, e) ensures Entering(W)(m) == 0 {
      MoverWithin(W, c, s, e, m);
      MoveStaysPlaced(c, border, m, |s.chunks|);
    }
    SumZero(Entering(W), Moves(c, s, e));
  }

  lemma ArrivalPlaced(c: Cluster, border: nat, s: Sim, r: SReq)
    requires WellFormed(c) && TwoParts(c, border) && Sized(c, s) && Placed(border, s)
    ensures Placed(border, Arrive(c, s, r))
  {
    BestHeadIsHead(s, false, c.prefillHeads);
    BestHeadIsHead(s, true, c.decodeHeads);
    ArrivalTotal(Misplaced(border), c, s, r);
  }

  lemma {:induction false} RunPlaced(c: Cluster, border: nat, s: Sim, es: seq<Event>)
    requires WellFormed(c) && TwoParts(c, border) && Sound(c, s) && Placed(border, s)
    requires Possible(c, s, es) && AllNew(Arrivals(es))
    ensures Placed(border, Run(c, s, es))
    decreases |es|
  {
    if es != [] {
      assert es[0].Arrival? ==> Arrivals(es)[0] == es[0].r;
      if es[0].Arrival? {
        ArrivalPlaced(c, border, s, es[0].r);
      } else {
        RoundPlaced(c, border, s, es[0]);
      }
      StepSound(c, s, es[0]);
      RunPlaced(c, border, Step(c, s, es[0]), es[1..]);
    }
  }

  ghost predicate NothingPrefills(w: Worker) {
    w.prefillQ == [] && (w.job.Some? ==> w.job.value.prefill == [])
  }

  ghost predicate NothingDecodes(w: Worker) {
    w.decodeQ == [] && (w.job.Some? ==> w.job.value.decode == [])
  }

  lemma NobodyMisplaced(border: nat, s: Sim, i: nat)
    requires Placed(border, s) && i < |s.workers|
    ensures if i < border then NothingDecodes(s.workers[i]) else NothingPrefills(s.workers[i])
  {
    WorkerWithin(Misplaced(border), s.workers, |s.workers|, i);
  }

  /** In every run of a disaggregated cluster no prefill worker ever holds a request to decode, and
      no decode worker one to prefill. */
  lemma DisaggSeparates(n: nat, m: nat, pp: nat, dd: nat, l: Limits, es: seq<Event>, i: nat)
    requires n >= 1 && m >= 1 && pp >= 1 && dd >= 1 && l.Valid()
    requires var c := Disagg(n, m, pp, dd, l);
             WellFormed(c) && i < |c.nodes| && Possible(c, EmptySim(c), es) && AllNew(Arrivals(es))
    ensures var c := Disagg(n, m, pp, dd, l);
            var w := Run(c, EmptySim(c), es).workers[i];
            if i < n * pp then NothingDecodes(w) else NothingPrefills(w)
  {
    var c := Disagg(n, m, pp, dd, l);
    DisaggHasTwoParts(n, m, pp, dd, l);
    SoundStart(c);
    EmptyTotal(Misplaced(n * pp), c, |c.nodes|);
    RunPlaced(c, n * pp, EmptySim(c), es);
    NobodyMisplaced(n * pp, Run(c, EmptySim(c), es), i);
  }

  // ---------------------------------------------------------------- who is handed to whom

  /** A request whose prompt is done and that has something to decode leaves the last prefill stage
      for the back of the decode queue of the first head with the fewest requests ahead. */
  lemma HandsToLeastLoaded(c: Cluster, s: Sim, i: nat, r: SReq) returns (k: nat)
    requires WellFormed(c) && Sized(c, s) && i < |c.nodes| && c.nodes[i].Last() && !c.nodes[i].stay
    requires r.remain <= 0 && r.outputLens > 0
    ensures IsLeast(s, true, c.decodeHeads, k)
    ensures var h := c.decodeHeads[k];
            && h < |s.workers|
            && ExitOnePrefill(c, s, i, r)
            == s.(workers := s.workers[h := s.workers[h].(decodeQ := s.workers[h].decodeQ
                                                        + [r.(chunk := None, current := 0, counter := 0)])])
  {
    k := BestHeadSpec(s, true, c.decodeHeads);
    assert c.decodeHeads[k] in c.decodeHeads;
  }

  /** A new request joins the back of the queue of the first head with the fewest requests ahead:
      for prefill, or for decoding if it comes prefilled; one that has nothing to decode exits. */
  lemma ArrivesAtLeastLoaded(c: Cluster, s: Sim, r: SReq) returns (k: nat)
    requires WellFormed(c) && Sized(c, s)
    ensures if 0 <= r.counter && r.outputLens <= r.counter then Arrive(c, s, r) == s.(exited := s.exited + [r])
            else
              var heads := if r.counter < 0 then c.prefillHeads else c.decodeHeads;
              && IsLeast(s, r.counter >= 0, heads, k) && heads[k] < |s.workers|
              && var w := s.workers[heads[k]];
                 Arrive(c, s, r) == s.(workers := s.workers[heads[k] :=
                   if r.counter < 0 then w.(prefillQ := w.prefillQ + [r]) else w.(decodeQ := w.decodeQ + [r])])
  {
    var heads := if r.counter < 0 then c.prefillHeads else c.decodeHeads;
    k := BestHeadSpec(s, r.counter >= 0, heads);
    assert heads[k] in heads;
  }

  // ---------------------------------------------------------------- one ring for a request's life

  /** The request, while it is in the ring that begins with worker b. */
  ghost function InRing(nodes: seq<Node>, b: int, id: int): Weight {
    (p: Place, r: SReq) => if p.In? && p.node < |nodes| && Base(nodes, p.node) == b && r.id == id then 1 else 0
  }

  lemma MoveKeepsRing(c: Cluster, m: Move, chunk: nat, b: int, id: int)
    requires WellFormed(c) && SameRing(c.nodes) && AllStay(c.nodes) && Legal(c, m, chunk)
    ensures InRing(c.nodes, b, id)(m.to, m.after)
         == if m.to.Exited? then 0 else InRing(c.nodes, b, id)(m.from, m.before)
  {
    assert Linked(c.nodes, m.from.node);
  }

  lemma RoundKeepsRing(c: Cluster, s: Sim, e: Event, b: int, id: int)
    requires WellFormed(c) && SameRing(c.nodes) && AllStay(c.nodes) && Sound(c, s)
    requires Enabled(s, e) && !e.Arrival?
    ensures Total(InRing(c.nodes, b, id), Step(c, s, e)) <= Total(InRing(c.nodes, b, id), s)
  {
    var W := InRing(c.nodes, b, id);
    RoundMoves(c, s, e);
    RoundTotal(W, c, s, e);
    forall m | m in Moves(c, s, e) ensures Entering(W)(m) <= Leaving(W)(m) {
      MoveKeepsRing(c, m, |s.chunks|, b, id);
    }
    SumBelow(Entering(W), Leaving(W), Moves(c, s, e));
  }

  lemma {:induction false} RunKeepsRing(c: Cluster, s: Sim, es: seq<Event>, b: int, id: int)
    requires WellFormed(c) && SameRing(c.nodes) && AllStay(c.nodes) && Sound(c, s)
    requires Possible(c, s, es) && AllNew(Arrivals(es)) && forall r :: r in Arrivals(es) ==> r.id != id
    ensures Total(InRing(c.nodes, b, id), Run(c, s, es)) <= Total(InRing(c.nodes, b, id), s)
    decreases |es|
  {
    if es != [] {
      assert es[0].Arrival? ==> Arrivals(es)[0] == es[0].r;
      if es[0].Arrival? {
        ArrivalTotal(InRing(c.nodes, b, id), c, s, es[0].r);
      } else {
        RoundKeepsRing(c, s, es[0], b, id);
      }
      StepSound(c, s, es[0]);
      RunKeepsRing(c, Step(c, s, es[0]), es[1..], b, id);
    }
  }

  /** In every run of the other cluster no request ever comes into a ring after its arrival: it is
      prefilled and decoded where the scheduler put it. */
  lemma VllmKeepsRing(n: nat, pp: nat, l: Limits, before: seq<Event>, es: seq<Event>, b: int, id: int)
    requires n >= 1 && pp >= 1 && l.Valid() && WellFormed(Vllm(n, pp, l))
    requires var c := Vllm(n, pp, l);
             Possible(c, EmptySim(c), before) && Possible(c, Run(c, EmptySim(c), before), es)
    requires AllNew(Arrivals(before)) && AllNew(Arrivals(es)) && forall r :: r in Arrivals(es) ==> r.id != id
    ensures var c := Vllm(n, pp, l);
            var s := Run(c, EmptySim(c), before);
            Total(InRing(c.nodes, b, id), Run(c, s, es)) <= Total(InRing(c.nodes, b, id), s)
  {
    var c := Vllm(n, pp, l);
    RingsSame([], n, pp, true);
    RingsStay([], n, pp);
    SoundStart(c);
    RunSound(c, EmptySim(c), before);
    RunKeepsRing(c, Run(c, EmptySim(c), before), es, b, id);
  }
}
