/** What becomes of a batch when its time is over: who goes to which queue, in what order, and who
    exits. */
module SimForwards {
  import opened Common
  import opened SimRequests
  import opened SimWorkers
  import opened SimCluster
  import opened SimInvariant

  // ---------------------------------------------------------------- who goes on, and as what

  /** Those of a batch that satisfy `who`, in order, as `after` makes them. */
  function Going(who: SReq -> bool, after: SReq -> SReq, rs: seq<SReq>): seq<SReq> {
    if rs == [] then [] else (if who(rs[0]) then [after(rs[0])] else []) + Going(who, after, rs[1..])
  }

  function MorePrompt(): SReq -> bool { (r: SReq) => r.remain > 0 }
  function MustDecode(): SReq -> bool { (r: SReq) => r.remain <= 0 && r.outputLens > 0 }
  function NothingToDecode(): SReq -> bool { (r: SReq) => r.remain <= 0 && r.outputLens == 0 }
  function WantsMore(): SReq -> bool { (r: SReq) => r.counter + 1 < r.outputLens }
  function HasAll(): SReq -> bool { (r: SReq) => r.counter + 1 >= r.outputLens }

  function ChunkOver(): SReq -> SReq { (r: SReq) => r.(chunk := None, current := 0) }
  function PromptOver(): SReq -> SReq { (r: SReq) => r.(chunk := None, current := 0, counter := 0) }
  function OneToken(): SReq -> SReq { (r: SReq) => r.(counter := r.counter + 1) }

  // ---------------------------------------------------------------- what the queues become

  /** Prefill requests join the queue of worker a, decode requests that of worker b, others exit. */
  function Forwarded(s: Sim, a: nat, b: nat, p: seq<SReq>, d: seq<SReq>, out: seq<SReq>): Sim {
    Sim(seq(|s.workers|, k requires 0 <= k < |s.workers| => Queued(s.workers[k], k == a, k == b, p, d)),
        s.exited + out, s.chunks)
  }

  function Queued(w: Worker, a: bool, b: bool, p: seq<SReq>, d: seq<SReq>): Worker {
    w.(prefillQ := if a then w.prefillQ + p else w.prefillQ, decodeQ := if b then w.decodeQ + d else w.decodeQ)
  }

  lemma QueuedTwice(w: Worker, a: bool, b: bool, p: seq<SReq>, d: seq<SReq>, p2: seq<SReq>, d2: seq<SReq>)
    ensures Queued(Queued(w, a, b, p, d), a, b, p2, d2) == Queued(w, a, b, p + p2, d + d2)
  {
    assert w.prefillQ + p + p2 == w.prefillQ + (p + p2);
    assert w.decodeQ + d + d2 == w.decodeQ + (d + d2);
  }

  lemma ForwardedTwice(s: Sim, a: nat, b: nat, p: seq<SReq>, d: seq<SReq>, out: seq<SReq>,
                       p2: seq<SReq>, d2: seq<SReq>, out2: seq<SReq>)
    ensures Forwarded(Forwarded(s, a, b, p, d, out), a, b, p2, d2, out2)
         == Forwarded(s, a, b, p + p2, d + d2, out + out2)
  {
    var t := Forwarded(Forwarded(s, a, b, p, d, out), a, b, p2, d2, out2);
    var u := Forwarded(s, a, b, p + p2, d + d2, out + out2);
    forall k | 0 <= k < |s.workers| ensures t.workers[k] == u.workers[k] {
      QueuedTwice(s.workers[k], k == a, k == b, p, d, p2, d2);
    }
    assert t.workers == u.workers;
    assert s.exited + out + out2 == s.exited + (out + out2);
  }

  lemma NobodyForwarded(s: Sim, a: nat, b: nat)
    ensures Forwarded(s, a, b, [], [], []) == s
  {
    forall k | 0 <= k < |s.workers| ensures Forwarded(s, a, b, [], [], []).workers[k] == s.workers[k] {
      assert s.workers[k].prefillQ + [] == s.workers[k].prefillQ && s.workers[k].decodeQ + [] == s.workers[k].decodeQ;
    }
    assert Forwarded(s, a, b, [], [], []).workers == s.workers;
  }

  /** One delivery, seen as forwarding. */
  lemma DeliveryForwards(s: Sim, p: Place, r: SReq, a: nat, b: nat)
    requires p == Exited || p == In(PrefillQ, a) || p == In(DecodeQ, b)
    requires p.In? ==> p.node < |s.workers|
    ensures Deliver(s, p, r)
         == Forwarded(s, a, b, if p == In(PrefillQ, a) then [r] else [], if p == In(DecodeQ, b) then [r] else [],
                      if p == Exited then [r] else [])
  {
    var t := Forwarded(s, a, b, if p == In(PrefillQ, a) then [r] else [], if p == In(DecodeQ, b) then [r] else [],
                       if p == Exited then [r] else []);
    forall k | 0 <= k < |s.workers| ensures Deliver(s, p, r).workers[k] == t.workers[k] {
      assert s.workers[k].prefillQ + [] == s.workers[k].prefillQ && s.workers[k].decodeQ + [] == s.workers[k].decodeQ;
    }
    assert Deliver(s, p, r).workers == t.workers;
    assert s.exited + [] == s.exited;
  }

  // ---------------------------------------------------------------- the last stage

  /** Where the last stage sends those who must decode: the next worker if they stay in the ring, and
      the scheduler's only head if there is but one. */
  ghost predicate DecodesAt(c: Cluster, i: nat, target: nat)
    requires i < |c.nodes|
  {
    if c.nodes[i].stay then target == c.nodes[i].next else c.decodeHeads == [target]
  }

  lemma {:induction false} LastExitsPrefill(c: Cluster, s: Sim, i: nat, items: seq<SReq>, target: nat)
    requires WellFormed(c) && Sized(c, s) && i < |c.nodes| && c.nodes[i].Last() && DecodesAt(c, i, target)
    ensures ExitPrefill(c, s, i, items)
         == Forwarded(s, c.nodes[i].next, target, Going(MorePrompt(), ChunkOver(), items),
                      Going(MustDecode(), PromptOver(), items), Going(NothingToDecode(), PromptOver(), items))
    decreases |items|
  {
    var a := c.nodes[i].next;
    if items == [] {
      NobodyForwarded(s, a, target);
    } else {
      var after := FinishPrefill(items[0], true);
      var place := PrefillPlace(c, s, i, after);
      PrefillInRange(c, s, i, after);
      DeliveryForwards(s, place, after, a, target);
      LastExitsPrefill(c, ExitOnePrefill(c, s, i, items[0]), i, items[1..], target);
      ForwardedTwice(s, a, target, if place == In(PrefillQ, a) then [after] else [],
                     if place == In(DecodeQ, target) then [after] else [], if place == Exited then [after] else [],
                     Going(MorePrompt(), ChunkOver(), items[1..]), Going(MustDecode(), PromptOver(), items[1..]),
                     Going(NothingToDecode(), PromptOver(), items[1..]));
    }
  }

  lemma {:induction false} LastExitsDecode(c: Cluster, s: Sim, i: nat, items: seq<SReq>)
    requires WellFormed(c) && Sized(c, s) && i < |c.nodes| && c.nodes[i].Last()
    ensures ExitDecode(c, s, i, items)
         == Forwarded(s, c.nodes[i].next, c.nodes[i].next, [], Going(WantsMore(), OneToken(), items),
                      Going(HasAll(), OneToken(), items))
    decreases |items|
  {
    var a := c.nodes[i].next;
    assert Linked(c.nodes, i);
    if items == [] {
      NobodyForwarded(s, a, a);
    } else {
      var after := FinishDecode(items[0], true);
      var place := DecodeOnPlace(c, i, after);
      DeliveryForwards(s, place, after, a, a);
      LastExitsDecode(c, Deliver(s, place, after), i, items[1..]);
      ForwardedTwice(s, a, a, [], if place == In(DecodeQ, a) then [after] else [],
                     if place == Exited then [after] else [], [],
                     Going(WantsMore(), OneToken(), items[1..]), Going(HasAll(), OneToken(), items[1..]));
    }
  }

  /** The worker has no batch any more. */
  function Freed(s: Sim, i: nat): Sim
    requires i < |s.workers|
  {
    s.(workers := s.workers[i := s.workers[i].(job := None)])
  }

  /** When a batch ends on a last stage, the prompts with something left go back to the first stage and
      those done go on to decode, each with its bookkeeping reset; then those decoding go round with one
      token more. Everybody keeps the order of the batch, and exactly those with nothing left exit. */
  lemma LastStageForwards(c: Cluster, s: Sim, i: nat, target: nat)
    requires WellFormed(c) && Sized(c, s) && CanFinish(s, i) && c.nodes[i].Last() && DecodesAt(c, i, target)
    ensures var (Job(p, d), a) := (s.workers[i].job.value, c.nodes[i].next);
            var t := Forwarded(Freed(s, i), a, target, Going(MorePrompt(), ChunkOver(), p),
                               Going(MustDecode(), PromptOver(), p), Going(NothingToDecode(), PromptOver(), p));
            Finish(c, s, i) == Forwarded(t, a, a, [], Going(WantsMore(), OneToken(), d), Going(HasAll(), OneToken(), d))
  {
    var job := s.workers[i].job.value;
    LastExitsPrefill(c, Freed(s, i), i, job.prefill, target);
    LastExitsDecode(c, ExitPrefill(c, Freed(s, i), i, job.prefill), i, job.decode);
  }

  // ---------------------------------------------------------------- the other stages

  lemma {:induction false} OthersExitPrefill(c: Cluster, s: Sim, i: nat, items: seq<SReq>)
    requires WellFormed(c) && Sized(c, s) && i < |c.nodes| && !c.nodes[i].Last()
    ensures ExitPrefill(c, s, i, items) == Forwarded(s, c.nodes[i].next, c.nodes[i].next, items, [], [])
    decreases |items|
  {
    var a := c.nodes[i].next;
    assert Linked(c.nodes, i);
    if items == [] {
      NobodyForwarded(s, a, a);
    } else {
      DeliveryForwards(s, In(PrefillQ, a), items[0], a, a);
      OthersExitPrefill(c, ExitOnePrefill(c, s, i, items[0]), i, items[1..]);
      ForwardedTwice(s, a, a, [items[0]], [], [], items[1..], [], []);
      assert [items[0]] + items[1..] == items;
    }
  }

  lemma {:induction false} OthersExitDecode(c: Cluster, s: Sim, i: nat, items: seq<SReq>)
    requires WellFormed(c) && Sized(c, s) && i < |c.nodes| && !c.nodes[i].Last()
    requires forall r :: r in items ==> r.counter < r.outputLens
    ensures ExitDecode(c, s, i, items) == Forwarded(s, c.nodes[i].next, c.nodes[i].next, [], items, [])
    decreases |items|
  {
    var a := c.nodes[i].next;
    assert Linked(c.nodes, i);
    if items == [] {
      NobodyForwarded(s, a, a);
    } else {
      assert items[0] in items;
      DeliveryForwards(s, In(DecodeQ, a), items[0], a, a);
      OthersExitDecode(c, Deliver(s, In(DecodeQ, a), items[0]), i, items[1..]);
      ForwardedTwice(s, a, a, [], [items[0]], [], [], items[1..], []);
      assert [items[0]] + items[1..] == items;
    }
  }

  /** When a batch ends on any other stage the whole of it goes to the next worker, as it is. */
  lemma OtherStagesForward(c: Cluster, s: Sim, i: nat)
    requires WellFormed(c) && Sound(c, s) && CanFinish(s, i) && !c.nodes[i].Last()
    ensures var (Job(p, d), a) := (s.workers[i].job.value, c.nodes[i].next);
            Finish(c, s, i) == Forwarded(Freed(s, i), a, a, p, d, [])
  {
    var (job, a) := (s.workers[i].job.value, c.nodes[i].next);
    QueuesOk(c, s, i);
    OthersExitPrefill(c, Freed(s, i), i, job.prefill);
    OthersExitDecode(c, ExitPrefill(c, Freed(s, i), i, job.prefill), i, job.decode);
    ForwardedTwice(Freed(s, i), a, a, job.prefill, [], [], [], job.decode, []);
    assert job.prefill + [] == job.prefill && [] + job.decode == job.decode;
  }
}
