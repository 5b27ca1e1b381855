/** The simulated cluster: workers in cyclic pipelines, the scheduler that feeds them, and the
    three things that can happen (simdistserve/base/worker.py, scheduler.py, clusters/). */
module SimCluster {
  import opened Common
  import opened SimRequests
  import opened SimWorkers

  // ---------------------------------------------------------------- wiring

  /** One worker of the cluster: its rank in its ring, the ring's size, its next worker, and
      whether requests leaving the last stage stay in the ring. */
  datatype Node = Node(rank: nat, size: nat, next: nat, stay: bool) {
    predicate First() { rank == 0 }
    predicate Last() { rank == size - 1 }
  }

  datatype Cluster = Cluster(nodes: seq<Node>, prefillHeads: seq<nat>, decodeHeads: seq<nat>, limits: Limits)

  /** Forwarding goes to the following rank of a ring of the same size, and from the last back to
      rank 0; the scheduler only feeds first stages. */
  predicate Linked(nodes: seq<Node>, i: nat)
    requires i < |nodes|
  {
    var n := nodes[i];
    && n.rank < n.size && n.next < |nodes| && nodes[n.next].size == n.size
    && nodes[n.next].rank == (if n.Last() then 0 else n.rank + 1)
  }

  predicate Wired(nodes: seq<Node>) { forall i :: 0 <= i < |nodes| ==> Linked(nodes, i) }

  predicate Heads(nodes: seq<Node>, heads: seq<nat>) {
    heads != [] && forall h :: h in heads ==> h < |nodes| && nodes[h].First()
  }

  predicate WellFormed(c: Cluster) {
    Wired(c.nodes) && Heads(c.nodes, c.prefillHeads) && Heads(c.nodes, c.decodeHeads) && c.limits.Valid()
  }

  /** reduce(set_next_worker, chain(instance, (instance[0],))) for one instance. */
  function Ring(base: nat, size: nat, stay: bool): seq<Node> {
    seq(size, i requires 0 <= i < size =>
      Node(i, size, if i == size - 1 then base else base + i + 1, stay || i != size - 1))
  }

  function AddRings(nodes: seq<Node>, count: nat, size: nat, stay: bool): seq<Node>
    decreases count
  {
    if count == 0 then nodes else AddRings(nodes + Ring(|nodes|, size, stay), count - 1, size, stay)
  }

  function RingHeads(base: nat, count: nat, size: nat): seq<nat>
    decreases count
  {
    if count == 0 then [] else [base] + RingHeads(base + size, count - 1, size)
  }

  /** DisaggCluster and VLLMCluster. */
  function Disagg(prefills: nat, decodes: nat, ppPrefill: nat, ppDecode: nat, l: Limits): Cluster {
    var nodes := AddRings([], prefills, ppPrefill, false);
    Cluster(AddRings(nodes, decodes, ppDecode, true),
            RingHeads(0, prefills, ppPrefill), RingHeads(|nodes|, decodes, ppDecode), l)
  }

  function Vllm(instances: nat, pp: nat, l: Limits): Cluster {
    Cluster(AddRings([], instances, pp, true), RingHeads(0, instances, pp), RingHeads(0, instances, pp), l)
  }

  lemma RingWired(nodes: seq<Node>, size: nat, stay: bool)
    requires Wired(nodes) && size >= 1
    ensures Wired(nodes + Ring(|nodes|, size, stay))
  {
    var ring := Ring(|nodes|, size, stay);
    var more := nodes + ring;
    forall i | 0 <= i < |more| ensures Linked(more, i) {
      if i < |nodes| {
        assert Linked(nodes, i);
      } else {
        var k := i - |nodes|;
        assert more[i] == ring[k];
        assert more[ring[k].next] == ring[if k == size - 1 then 0 else k + 1];
      }
    }
  }

  lemma {:induction false} AddRingsWired(nodes: seq<Node>, count: nat, size: nat, stay: bool)
    requires Wired(nodes) && size >= 1
    ensures Wired(AddRings(nodes, count, size, stay))
    ensures |nodes| + count * size == |AddRings(nodes, count, size, stay)|
    ensures nodes <= AddRings(nodes, count, size, stay)
    decreases count
  {
    if count > 0 {
      RingWired(nodes, size, stay);
      AddRingsWired(nodes + Ring(|nodes|, size, stay), count - 1, size, stay);
      assert count * size == size + (count - 1) * size;
    }
  }

  lemma {:induction false} RingHeadsFirst(nodes: seq<Node>, count: nat, size: nat, stay: bool)
    requires Wired(nodes) && size >= 1 && count >= 1
    ensures Heads(AddRings(nodes, count, size, stay), RingHeads(|nodes|, count, size))
    decreases count
  {
    var more := nodes + Ring(|nodes|, size, stay);
    RingWired(nodes, size, stay);
    AddRingsWired(more, count - 1, size, stay);
    assert more[|nodes|].First();
    if count > 1 {
      RingHeadsFirst(more, count - 1, size, stay);
    }
  }

  lemma {:induction false} HeadsStay(nodes: seq<Node>, more: seq<Node>, heads: seq<nat>)
    requires Heads(nodes, heads) && nodes <= more
    ensures Heads(more, heads)
  {
    forall h | h in heads ensures h < |more| && more[h].First() {
      assert more[h] == nodes[h];
    }
  }

  /** The cluster constructors wire every pipeline correctly, whatever the sizes. */
  lemma ClustersAreWellFormed(n: nat, m: nat, pp: nat, dd: nat, l: Limits)
    requires n >= 1 && m >= 1 && pp >= 1 && dd >= 1 && l.Valid()
    ensures WellFormed(Disagg(n, m, pp, dd, l)) && WellFormed(Vllm(n, pp, l))
  {
    AddRingsWired([], n, pp, true);
    AddRingsWired([], n, pp, false);
    var nodes := AddRings([], n, pp, false);
    AddRingsWired(nodes, m, dd, true);
    RingHeadsFirst([], n, pp, true);
    RingHeadsFirst([], n, pp, false);
    RingHeadsFirst(nodes, m, dd, true);
    HeadsStay(nodes, AddRings(nodes, m, dd, true), RingHeads(0, n, pp));
  }

  // ---------------------------------------------------------------- state

  /** Worker queues and running batches, the requests that left, and a log of the chunk batches
      formed by first stages: the k-th one has chunk id k. */
  datatype Sim = Sim(workers: seq<Worker>, exited: seq<SReq>, chunks: seq<seq<SReq>>)

  function EmptySim(c: Cluster): Sim {
    Sim(seq(|c.nodes|, _ => Worker([], [], None)), [], [])
  }

  predicate Sized(c: Cluster, s: Sim) { |s.workers| == |c.nodes| }

  datatype Kind = PrefillQ | DecodeQ | PrefillJob | DecodeJob

  /** Where a request can be: in a queue or running batch of a worker, or out of the system. */
  datatype Place = In(kind: Kind, node: nat) | Exited

  /** A request joins the back of a queue, or exits. */
  function Deliver(s: Sim, p: Place, r: SReq): (t: Sim)
    requires p.In? ==> p.node < |s.workers|
    ensures |t.workers| == |s.workers|
  {
    match p
    case Exited => s.(exited := s.exited + [r])
    case In(PrefillQ, i) =>
      s.(workers := s.workers[i := s.workers[i].(prefillQ := s.workers[i].prefillQ + [r])])
    case In(DecodeQ, i) =>
      s.(workers := s.workers[i := s.workers[i].(decodeQ := s.workers[i].decodeQ + [r])])
    case In(_, _) => s
  }

  // ---------------------------------------------------------------- scheduler

  /** _prefill_ips: prefill requests in progress. */
  function InProgress(w: Worker): nat { if w.job.Some? then |w.job.value.prefill| else 0 }

  function Load(s: Sim, decode: bool, h: nat): nat {
    if h < |s.workers| then
      InProgress(s.workers[h]) + (if decode then |s.workers[h].decodeQ| else |s.workers[h].prefillQ|)
    else 0
  }

  /** min(zip(workers, queues), key=...): the first head of least load. */
  function BestHead(s: Sim, decode: bool, heads: seq<nat>): nat
    requires heads != []
  {
    if |heads| == 1 then heads[0]
    else
      var best := BestHead(s, decode, heads[1..]);
      if Load(s, decode, heads[0]) <= Load(s, decode, best) then heads[0] else best
  }

  /** Whom a newcomer to worker h finds there: the prefill part of the batch in progress, and the
      queue it would join. */
  ghost function Ahead(s: Sim, decode: bool, h: nat): nat {
    if h >= |s.workers| then 0
    else
      var w := s.workers[h];
      (match w.job case Some(job) => |job.prefill| case None => 0) + |if decode then w.decodeQ else w.prefillQ|
  }

  /** At head k a newcomer finds no more than at any, and fewer than at each earlier one. */
  ghost predicate IsLeast(s: Sim, decode: bool, heads: seq<nat>, k: int) {
    && 0 <= k < |heads|
    && (forall j :: 0 <= j < |heads| ==> Ahead(s, decode, heads[k]) <= Ahead(s, decode, heads[j]))
    && (forall j :: 0 <= j < k ==> Ahead(s, decode, heads[k]) < Ahead(s, decode, heads[j]))
  }

  lemma LoadIsAhead(s: Sim, decode: bool, h: nat)
    ensures Load(s, decode, h) == Ahead(s, decode, h)
  {
  }

  lemma {:induction false} BestHeadSpec(s: Sim, decode: bool, heads: seq<nat>) returns (k: nat)
    requires heads != []
    ensures IsLeast(s, decode, heads, k) && heads[k] == BestHead(s, decode, heads)
  {
    if |heads| == 1 {
      k := 0;
    } else {
      var t := heads[1..];
      var m := BestHeadSpec(s, decode, t);
      LoadIsAhead(s, decode, heads[0]);
      LoadIsAhead(s, decode, t[m]);
      forall j | 0 < j < |heads| ensures heads[j] == t[j - 1] {
      }
      k := if Ahead(s, decode, heads[0]) <= Ahead(s, decode, t[m]) then 0 else m + 1;
    }
  }

  /** The scheduler's choice is a head, none is less loaded, and every earlier one is more loaded. */
  lemma SchedulerPicksLeastLoaded(s: Sim, decode: bool, heads: seq<nat>)
    requires heads != []
    ensures exists k :: 0 <= k < |heads| && IsLeast(s, decode, heads, k) && heads[k] == BestHead(s, decode, heads)
  {
    var k := BestHeadSpec(s, decode, heads);
  }

  lemma BestHeadIsHead(s: Sim, decode: bool, heads: seq<nat>)
    requires heads != []
    ensures BestHead(s, decode, heads) in heads
  {
    var k := BestHeadSpec(s, decode, heads);
  }

  /** schedule_decode: a request that should finish leaves at once. */
  function DecodePlace(c: Cluster, s: Sim, r: SReq): Place
    requires WellFormed(c)
  {
    if ShouldFinish(r) then Exited else In(DecodeQ, BestHead(s, true, c.decodeHeads))
  }

  /** schedule_new_req. */
  function ArrivalPlace(c: Cluster, s: Sim, r: SReq): Place
    requires WellFormed(c)
  {
    if r.counter < 0 then In(PrefillQ, BestHead(s, false, c.prefillHeads)) else DecodePlace(c, s, r)
  }

  function Arrive(c: Cluster, s: Sim, r: SReq): Sim
    requires WellFormed(c) && Sized(c, s)
  {
    ArrivalInRange(c, s, r);
    Deliver(s, ArrivalPlace(c, s, r), r)
  }

  lemma ArrivalInRange(c: Cluster, s: Sim, r: SReq)
    requires WellFormed(c) && Sized(c, s)
    ensures ArrivalPlace(c, s, r).In? ==> ArrivalPlace(c, s, r).node < |s.workers|
  {
    BestHeadIsHead(s, true, c.decodeHeads);
    BestHeadIsHead(s, false, c.prefillHeads);
  }

  // ---------------------------------------------------------------- a round begins

  predicate CanStart(s: Sim, i: nat) {
    i < |s.workers| && s.workers[i].job.None? && (s.workers[i].prefillQ != [] || s.workers[i].decodeQ != [])
  }

  predicate StartsPrefill(c: Cluster, s: Sim, i: nat)
    requires i < |s.workers|
  {
    s.workers[i].prefillQ != [] && !HasBackPressure(c.limits, s.workers[i].decodeQ)
  }

  function Start(c: Cluster, s: Sim, i: nat): Sim
    requires Sized(c, s) && CanStart(s, i)
  {
    var w := Begin(c.limits, c.nodes[i].First(), s.workers[i], |s.chunks|);
    Sim(s.workers[i := w], s.exited,
        if StartsPrefill(c, s, i) && c.nodes[i].First() then s.chunks + [w.job.value.prefill] else s.chunks)
  }

  // ---------------------------------------------------------------- a round ends

  predicate CanFinish(s: Sim, i: nat) { i < |s.workers| && s.workers[i].job.Some? }

  /** Where _exit_prefill forwards a request, given the request after finish_prefill. */
  function PrefillPlace(c: Cluster, s: Sim, i: nat, r: SReq): Place
    requires WellFormed(c) && i < |c.nodes|
  {
    var n := c.nodes[i];
    if !n.Last() || r.remain > 0 then In(PrefillQ, n.next)
    else if ShouldFinish(r) then Exited
    else if n.stay then In(DecodeQ, n.next)
    else DecodePlace(c, s, r)
  }

  /** Where _exit_decode forwards a request, given the request after finish_decode. */
  function DecodeOnPlace(c: Cluster, i: nat, r: SReq): Place
    requires i < |c.nodes|
  {
    if ShouldFinish(r) then Exited else In(DecodeQ, c.nodes[i].next)
  }

  lemma PrefillInRange(c: Cluster, s: Sim, i: nat, r: SReq)
    requires WellFormed(c) && i < |c.nodes|
    ensures PrefillPlace(c, s, i, r).In? ==> PrefillPlace(c, s, i, r).node < |c.nodes|
  {
    BestHeadIsHead(s, true, c.decodeHeads);
    assert Linked(c.nodes, i);
  }

  function ExitOnePrefill(c: Cluster, s: Sim, i: nat, r: SReq): (t: Sim)
    requires WellFormed(c) && Sized(c, s) && i < |c.nodes|
  {
    var after := FinishPrefill(r, c.nodes[i].Last());
    PrefillInRange(c, s, i, after);
    Deliver(s, PrefillPlace(c, s, i, after), after)
  }

  function ExitPrefill(c: Cluster, s: Sim, i: nat, items: seq<SReq>): (t: Sim)
    requires WellFormed(c) && Sized(c, s) && i < |c.nodes|
    ensures Sized(c, t)
    decreases |items|
  {
    if items == [] then s else ExitPrefill(c, ExitOnePrefill(c, s, i, items[0]), i, items[1..])
  }

  function ExitDecode(c: Cluster, s: Sim, i: nat, items: seq<SReq>): (t: Sim)
    requires WellFormed(c) && Sized(c, s) && i < |c.nodes|
    ensures Sized(c, t)
    decreases |items|
  {
    if items == [] then s
    else
      var after := FinishDecode(items[0], c.nodes[i].Last());
      assert Linked(c.nodes, i);
      ExitDecode(c, Deliver(s, DecodeOnPlace(c, i, after), after), i, items[1..])
  }

  /** The batch in progress at worker i is over: forward its prefill part, then its decode part. */
  function Finish(c: Cluster, s: Sim, i: nat): Sim
    requires WellFormed(c) && Sized(c, s) && CanFinish(s, i)
  {
    var job := s.workers[i].job.value;
    var s1 := s.(workers := s.workers[i := s.workers[i].(job := None)]);
    ExitDecode(c, ExitPrefill(c, s1, i, job.prefill), i, job.decode)
  }

  // ---------------------------------------------------------------- runs

  datatype Event = Arrival(r: SReq) | Begins(i: nat) | Ends(i: nat)

  predicate Enabled(s: Sim, e: Event) {
    match e
    case Arrival(_) => true
    case Begins(i) => CanStart(s, i)
    case Ends(i) => CanFinish(s, i)
  }

  function Step(c: Cluster, s: Sim, e: Event): (t: Sim)
    requires WellFormed(c) && Sized(c, s) && Enabled(s, e)
    ensures Sized(c, t)
  {
    match e
    case Arrival(r) => Arrive(c, s, r)
    case Begins(i) => Start(c, s, i)
    case Ends(i) => Finish(c, s, i)
  }

  predicate Possible(c: Cluster, s: Sim, es: seq<Event>)
    requires WellFormed(c) && Sized(c, s)
    decreases |es|
  {
    es == [] || (Enabled(s, es[0]) && Possible(c, Step(c, s, es[0]), es[1..]))
  }

  function Run(c: Cluster, s: Sim, es: seq<Event>): (t: Sim)
    requires WellFormed(c) && Sized(c, s) && Possible(c, s, es)
    ensures Sized(c, t)
    decreases |es|
  {
    if es == [] then s else Run(c, Step(c, s, es[0]), es[1..])
  }

  function Arrivals(es: seq<Event>): seq<SReq>
    decreases |es|
  {
    if es == [] then []
    else (if es[0].Arrival? then [es[0].r] else []) + Arrivals(es[1..])
  }

  /** Nothing is queued and nothing runs. */
  predicate Quiescent(s: Sim) {
    forall i :: 0 <= i < |s.workers| ==> !CanStart(s, i) && !CanFinish(s, i)
  }
}
