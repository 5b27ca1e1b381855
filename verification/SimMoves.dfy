/** Every step of the simulated cluster is a list of moves of single requests, so a quantity that
    is a sum over the requests in the system changes by what each move changes. */
module SimMoves {
  import opened Common
  import opened Sums
  import opened SimRequests
  import opened SimWorkers
  import opened SimCluster

  // ---------------------------------------------------------------- sums over the whole system

  /** What a request counts for at a place. */
  type Weight = (Place, SReq) -> nat

  ghost function At(W: Weight, p: Place): SReq -> nat { r => W(p, r) }

  ghost function OfJob(W: Weight, i: nat, job: Option<Job>): nat {
    if job.None? then 0
    else Sum(At(W, In(PrefillJob, i)), job.value.prefill) + Sum(At(W, In(DecodeJob, i)), job.value.decode)
  }

  ghost function OfWorker(W: Weight, i: nat, w: Worker): nat {
    Sum(At(W, In(PrefillQ, i)), w.prefillQ) + Sum(At(W, In(DecodeQ, i)), w.decodeQ) + OfJob(W, i, w.job)
  }

  ghost function OfWorkers(W: Weight, ws: seq<Worker>, k: nat): nat
    requires k <= |ws|
  {
    if k == 0 then 0 else OfWorkers(W, ws, k - 1) + OfWorker(W, k - 1, ws[k - 1])
  }

  ghost function Total(W: Weight, s: Sim): nat {
    OfWorkers(W, s.workers, |s.workers|) + Sum(At(W, Exited), s.exited)
  }

  lemma {:induction false} UpdateWorker(W: Weight, ws: seq<Worker>, k: nat, i: nat, w: Worker)
    requires k <= |ws| && i < |ws|
    ensures OfWorkers(W, ws[i := w], k) + (if i < k then OfWorker(W, i, ws[i]) else 0)
         == OfWorkers(W, ws, k) + (if i < k then OfWorker(W, i, w) else 0)
  {
    if k > 0 {
      UpdateWorker(W, ws, k - 1, i, w);
    }
  }

  lemma {:induction false} WorkerWithin(W: Weight, ws: seq<Worker>, k: nat, i: nat)
    requires i < k <= |ws|
    ensures OfWorker(W, i, ws[i]) <= OfWorkers(W, ws, k)
  {
    if i < k - 1 {
      WorkerWithin(W, ws, k - 1, i);
    }
  }

  /** Two workers together hold no more than the system. */
  lemma {:induction false} TwoWithin(W: Weight, ws: seq<Worker>, k: nat, i: nat, j: nat)
    requires i < k <= |ws| && j < k && i != j
    ensures OfWorker(W, i, ws[i]) + OfWorker(W, j, ws[j]) <= OfWorkers(W, ws, k)
  {
    if i == k - 1 {
      WorkerWithin(W, ws, k - 1, j);
    } else if j == k - 1 {
      WorkerWithin(W, ws, k - 1, i);
    } else {
      TwoWithin(W, ws, k - 1, i, j);
    }
  }

  lemma DeliverTotal(W: Weight, s: Sim, p: Place, r: SReq)
    requires p.In? ==> p.node < |s.workers| && (p.kind == PrefillQ || p.kind == DecodeQ)
    ensures Total(W, Deliver(s, p, r)) == Total(W, s) + W(p, r)
  {
    if p.Exited? {
      SumSnoc(At(W, p), s.exited, r);
    } else {
      var w := s.workers[p.node];
      if p.kind == PrefillQ {
        SumSnoc(At(W, p), w.prefillQ, r);
        UpdateWorker(W, s.workers, |s.workers|, p.node, w.(prefillQ := w.prefillQ + [r]));
      } else {
        SumSnoc(At(W, p), w.decodeQ, r);
        UpdateWorker(W, s.workers, |s.workers|, p.node, w.(decodeQ := w.decodeQ + [r]));
      }
    }
  }

  // ---------------------------------------------------------------- moves

  datatype Move = Move(from: Place, before: SReq, to: Place, after: SReq)

  ghost function Leaving(W: Weight): Move -> nat { (m: Move) => W(m.from, m.before) }
  ghost function Entering(W: Weight): Move -> nat { (m: Move) => W(m.to, m.after) }

  /** What a move can be; `chunk` is the chunk id a first stage would cut now. */
  ghost predicate Legal(c: Cluster, m: Move, chunk: nat) {
    && m.from.In? && m.from.node < |c.nodes|
    && var n := c.nodes[m.from.node];
       match m.from.kind
       case PrefillQ =>
         && m.to == In(PrefillJob, m.from.node)
         && (if n.First() then CutFrom(c.limits, m.before, m.after, chunk) else m.after == m.before)
       case DecodeQ =>
         m.to == In(DecodeJob, m.from.node) && m.after == m.before && ContextLen(m.before) + 1 <= CONTEXT_CAP
       case PrefillJob =>
         && m.after == FinishPrefill(m.before, n.Last())
         && (if !n.Last() || m.after.remain > 0 then m.to == In(PrefillQ, n.next)
             else if ShouldFinish(m.after) then m.to == Exited
             else if n.stay then m.to == In(DecodeQ, n.next)
             else m.to.In? && m.to.kind == DecodeQ && m.to.node in c.decodeHeads)
       case DecodeJob => m.after == FinishDecode(m.before, n.Last()) && m.to == DecodeOnPlace(c, m.from.node, m.after)
  }

  ghost function Zip(from: Place, before: seq<SReq>, to: Place, after: seq<SReq>): seq<Move> {
    if before == [] || after == [] then []
    else [Move(from, before[0], to, after[0])] + Zip(from, before[1..], to, after[1..])
  }

  lemma {:induction false} ZipSums(W: Weight, from: Place, before: seq<SReq>, to: Place, after: seq<SReq>)
    requires |after| <= |before|
    ensures var ms := Zip(from, before, to, after);
            && Sum(Leaving(W), ms) + Sum(At(W, from), before[|after|..]) == Sum(At(W, from), before)
            && Sum(Entering(W), ms) == Sum(At(W, to), after)
  {
    if after != [] {
      ZipSums(W, from, before[1..], to, after[1..]);
      assert before[1..][|after[1..]|..] == before[|after|..];
    } else {
      assert before[0..] == before;
    }
  }

  lemma {:induction false} ZipAt(from: Place, before: seq<SReq>, to: Place, after: seq<SReq>)
    requires |after| <= |before|
    ensures var ms := Zip(from, before, to, after);
            |ms| == |after| && forall k :: 0 <= k < |ms| ==> ms[k] == Move(from, before[k], to, after[k])
  {
    if after != [] {
      ZipAt(from, before[1..], to, after[1..]);
    }
  }

  // ---------------------------------------------------------------- a round begins

  ghost function StartMoves(c: Cluster, s: Sim, i: nat): seq<Move>
    requires Sized(c, s) && CanStart(s, i)
  {
    var w := s.workers[i];
    var job := Begin(c.limits, c.nodes[i].First(), w, |s.chunks|).job.value;
    Zip(In(PrefillQ, i), w.prefillQ, In(PrefillJob, i), job.prefill)
    + Zip(In(DecodeQ, i), w.decodeQ, In(DecodeJob, i), job.decode)
  }

  /** A batch is a prefix of each queue; a first stage cuts chunks off its prefix. */
  ghost predicate Taken(l: Limits, first: bool, w: Worker, v: Worker, chunk: int) {
    && v.job.Some?
    && var (p, d) := (v.job.value.prefill, v.job.value.decode);
    && |p| <= |w.prefillQ| && v.prefillQ == w.prefillQ[|p|..]
    && |d| <= |w.decodeQ| && v.decodeQ == w.decodeQ[|d|..] && d == w.decodeQ[..|d|]
    && (forall r :: r in d ==> ContextLen(r) + 1 <= CONTEXT_CAP)
    && (if first then forall k :: 0 <= k < |p| ==> CutFrom(l, w.prefillQ[k], p[k], chunk)
        else p == w.prefillQ[..|p|])
  }

  lemma PrefixOf(q: seq<SReq>, a: seq<SReq>, b: seq<SReq>)
    requires q == a + b
    ensures |a| <= |q| && a == q[..|a|] && b == q[|a|..]
  {
  }

  lemma DecodesTaken(queue: seq<SReq>, n: int)
    ensures var s := EnterDecodes(queue, n, CONTEXT_CAP);
            && |s.picked| <= |queue| && s.rest == queue[|s.picked|..] && s.picked == queue[..|s.picked|]
            && forall r :: r in s.picked ==> ContextLen(r) + 1 <= CONTEXT_CAP
  {
    EnterDecodesCapped(queue, n, CONTEXT_CAP);
    EnterDecodesSpec(queue, n, CONTEXT_CAP);
    var s := EnterDecodes(queue, n, CONTEXT_CAP);
    PrefixOf(queue, s.picked, s.rest);
  }

  lemma PrefillsTaken(l: Limits, first: bool, queue: seq<SReq>, chunk: int)
    requires l.Valid() && queue != [] && (first ==> AllRemain(queue))
    ensures var s := EnterPrefill(l, first, queue, chunk);
            && |s.picked| <= |queue| && s.rest == queue[|s.picked|..]
            && (if first then forall k :: 0 <= k < |s.picked| ==> CutFrom(l, queue[k], s.picked[k], chunk)
                else s.picked == queue[..|s.picked|])
  {
    if first {
      EnterFirstSpec(l, queue, l.prefillMaxBatch, chunk, l.prefillMaxTokens, 0);
    } else {
      EnterLaterSpec(queue, l.prefillMaxBatch, queue[0].chunk);
      var s := EnterPrefill(l, first, queue, chunk);
      PrefixOf(queue, s.picked, s.rest);
    }
  }

  lemma BeginTakes(l: Limits, first: bool, w: Worker, chunk: int)
    requires l.Valid()
    requires first ==> AllRemain(w.prefillQ)
    ensures Taken(l, first, w, Begin(l, first, w, chunk), chunk)
  {
    if w.prefillQ != [] && !HasBackPressure(l, w.decodeQ) {
      PrefillsTaken(l, first, w.prefillQ, chunk);
      DecodesTaken(w.decodeQ, l.prefillMaxTokens - CurrentSum(EnterPrefill(l, first, w.prefillQ, chunk).picked));
    } else {
      DecodesTaken(w.decodeQ, l.decodeMaxTokens);
    }
  }

  lemma StartTotal(W: Weight, c: Cluster, s: Sim, i: nat)
    requires Sized(c, s) && CanStart(s, i) && c.limits.Valid()
    requires c.nodes[i].First() ==> AllRemain(s.workers[i].prefillQ)
    ensures Total(W, Start(c, s, i)) + Sum(Leaving(W), StartMoves(c, s, i))
         == Total(W, s) + Sum(Entering(W), StartMoves(c, s, i))
  {
    var w := s.workers[i];
    var v := Begin(c.limits, c.nodes[i].First(), w, |s.chunks|);
    BeginTakes(c.limits, c.nodes[i].First(), w, |s.chunks|);
    var (p, d) := (v.job.value.prefill, v.job.value.decode);
    ZipSums(W, In(PrefillQ, i), w.prefillQ, In(PrefillJob, i), p);
    ZipSums(W, In(DecodeQ, i), w.decodeQ, In(DecodeJob, i), d);
    var a := Zip(In(PrefillQ, i), w.prefillQ, In(PrefillJob, i), p);
    var b := Zip(In(DecodeQ, i), w.decodeQ, In(DecodeJob, i), d);
    SumAppend(Leaving(W), a, b);
    SumAppend(Entering(W), a, b);
    UpdateWorker(W, s.workers, |s.workers|, i, v);
  }

  /** A prefix taken from the prefill queue, and one taken from the decode queue. */
  lemma PrefillsLegal(c: Cluster, s: Sim, i: nat, after: seq<SReq>)
    requires Sized(c, s) && i < |c.nodes| && |after| <= |s.workers[i].prefillQ|
    requires forall k :: 0 <= k < |after| ==>
               Legal(c, Move(In(PrefillQ, i), s.workers[i].prefillQ[k], In(PrefillJob, i), after[k]), |s.chunks|)
    ensures forall m :: m in Zip(In(PrefillQ, i), s.workers[i].prefillQ, In(PrefillJob, i), after) ==>
              Legal(c, m, |s.chunks|) && m.from == In(PrefillQ, i) && m.before in s.workers[i].prefillQ
  {
    ZipAt(In(PrefillQ, i), s.workers[i].prefillQ, In(PrefillJob, i), after);
  }

  lemma DecodesLegal(c: Cluster, s: Sim, i: nat, after: seq<SReq>)
    requires Sized(c, s) && i < |c.nodes| && |after| <= |s.workers[i].decodeQ|
    requires forall k :: 0 <= k < |after| ==>
               Legal(c, Move(In(DecodeQ, i), s.workers[i].decodeQ[k], In(DecodeJob, i), after[k]), |s.chunks|)
    ensures forall m :: m in Zip(In(DecodeQ, i), s.workers[i].decodeQ, In(DecodeJob, i), after) ==>
              Legal(c, m, |s.chunks|) && m.from == In(DecodeQ, i) && m.before in s.workers[i].decodeQ
  {
    ZipAt(In(DecodeQ, i), s.workers[i].decodeQ, In(DecodeJob, i), after);
  }

  lemma StartLegal(c: Cluster, s: Sim, i: nat)
    requires Sized(c, s) && CanStart(s, i) && c.limits.Valid()
    requires c.nodes[i].First() ==> AllRemain(s.workers[i].prefillQ)
    ensures forall m :: m in StartMoves(c, s, i) ==> Legal(c, m, |s.chunks|)
    ensures forall m :: m in StartMoves(c, s, i) ==>
              || (m.from == In(PrefillQ, i) && m.before in s.workers[i].prefillQ)
              || (m.from == In(DecodeQ, i) && m.before in s.workers[i].decodeQ)
  {
    var w := s.workers[i];
    BeginTakes(c.limits, c.nodes[i].First(), w, |s.chunks|);
    var job := Begin(c.limits, c.nodes[i].First(), w, |s.chunks|).job.value;
    PrefillsLegal(c, s, i, job.prefill);
    DecodesLegal(c, s, i, job.decode);
  }

  // ---------------------------------------------------------------- a round ends

  ghost function PrefillMove(c: Cluster, s: Sim, i: nat, r: SReq): Move
    requires WellFormed(c) && i < |c.nodes|
  {
    var after := FinishPrefill(r, c.nodes[i].Last());
    Move(In(PrefillJob, i), r, PrefillPlace(c, s, i, after), after)
  }

  ghost function PrefillMoves(c: Cluster, s: Sim, i: nat, items: seq<SReq>): seq<Move>
    requires WellFormed(c) && Sized(c, s) && i < |c.nodes|
    decreases |items|
  {
    if items == [] then []
    else [PrefillMove(c, s, i, items[0])] + PrefillMoves(c, ExitOnePrefill(c, s, i, items[0]), i, items[1..])
  }

  ghost function DecodeMoves(c: Cluster, i: nat, items: seq<SReq>): seq<Move>
    requires i < |c.nodes|
    decreases |items|
  {
    if items == [] then []
    else
      var after := FinishDecode(items[0], c.nodes[i].Last());
      [Move(In(DecodeJob, i), items[0], DecodeOnPlace(c, i, after), after)] + DecodeMoves(c, i, items[1..])
  }

  ghost function FinishMoves(c: Cluster, s: Sim, i: nat): seq<Move>
    requires WellFormed(c) && Sized(c, s) && CanFinish(s, i)
  {
    var s1 := s.(workers := s.workers[i := s.workers[i].(job := None)]);
    PrefillMoves(c, s1, i, s.workers[i].job.value.prefill) + DecodeMoves(c, i, s.workers[i].job.value.decode)
  }

  lemma {:induction false} PrefillExitTotal(W: Weight, c: Cluster, s: Sim, i: nat, items: seq<SReq>)
    requires WellFormed(c) && Sized(c, s) && i < |c.nodes|
    ensures Total(W, ExitPrefill(c, s, i, items)) == Total(W, s) + Sum(Entering(W), PrefillMoves(c, s, i, items))
    ensures Sum(Leaving(W), PrefillMoves(c, s, i, items)) == Sum(At(W, In(PrefillJob, i)), items)
    decreases |items|
  {
    if items != [] {
      var m := PrefillMove(c, s, i, items[0]);
      PrefillInRange(c, s, i, m.after);
      DeliverTotal(W, s, m.to, m.after);
      PrefillExitTotal(W, c, ExitOnePrefill(c, s, i, items[0]), i, items[1..]);
      assert PrefillMoves(c, s, i, items)[1..] == PrefillMoves(c, ExitOnePrefill(c, s, i, items[0]), i, items[1..]);
    }
  }

  lemma {:induction false} DecodeExitTotal(W: Weight, c: Cluster, s: Sim, i: nat, items: seq<SReq>)
    requires WellFormed(c) && Sized(c, s) && i < |c.nodes|
    ensures Total(W, ExitDecode(c, s, i, items)) == Total(W, s) + Sum(Entering(W), DecodeMoves(c, i, items))
    ensures Sum(Leaving(W), DecodeMoves(c, i, items)) == Sum(At(W, In(DecodeJob, i)), items)
    decreases |items|
  {
    if items != [] {
      assert Linked(c.nodes, i);
      var after := FinishDecode(items[0], c.nodes[i].Last());
      DeliverTotal(W, s, DecodeOnPlace(c, i, after), after);
      DecodeExitTotal(W, c, Deliver(s, DecodeOnPlace(c, i, after), after), i, items[1..]);
      assert DecodeMoves(c, i, items)[1..] == DecodeMoves(c, i, items[1..]);
    }
  }

  lemma FinishTotal(W: Weight, c: Cluster, s: Sim, i: nat)
    requires WellFormed(c) && Sized(c, s) && CanFinish(s, i)
    ensures Total(W, Finish(c, s, i)) + Sum(Leaving(W), FinishMoves(c, s, i))
         == Total(W, s) + Sum(Entering(W), FinishMoves(c, s, i))
  {
    var job := s.workers[i].job.value;
    var s1 := s.(workers := s.workers[i := s.workers[i].(job := None)]);
    UpdateWorker(W, s.workers, |s.workers|, i, s.workers[i].(job := None));
    PrefillExitTotal(W, c, s1, i, job.prefill);
    DecodeExitTotal(W, c, ExitPrefill(c, s1, i, job.prefill), i, job.decode);
    SumAppend(Leaving(W), PrefillMoves(c, s1, i, job.prefill), DecodeMoves(c, i, job.decode));
    SumAppend(Entering(W), PrefillMoves(c, s1, i, job.prefill), DecodeMoves(c, i, job.decode));
  }

  lemma {:induction false} PrefillMovesLegal(c: Cluster, s: Sim, i: nat, items: seq<SReq>, chunk: nat)
    requires WellFormed(c) && Sized(c, s) && i < |c.nodes|
    ensures var ms := PrefillMoves(c, s, i, items);
            && |ms| == |items|
            && forall m :: m in ms ==> Legal(c, m, chunk) && m.from == In(PrefillJob, i) && m.before in items
    decreases |items|
  {
    if items != [] {
      BestHeadIsHead(s, true, c.decodeHeads);
      assert Linked(c.nodes, i);
      assert Legal(c, PrefillMove(c, s, i, items[0]), chunk);
      PrefillMovesLegal(c, ExitOnePrefill(c, s, i, items[0]), i, items[1..], chunk);
    }
  }

  lemma {:induction false} DecodeMovesLegal(c: Cluster, i: nat, items: seq<SReq>, chunk: nat)
    requires WellFormed(c) && i < |c.nodes|
    ensures var ms := DecodeMoves(c, i, items);
            && |ms| == |items|
            && forall m :: m in ms ==> Legal(c, m, chunk) && m.from == In(DecodeJob, i) && m.before in items
    decreases |items|
  {
    if items != [] {
      DecodeMovesLegal(c, i, items[1..], chunk);
    }
  }

  lemma FinishLegal(c: Cluster, s: Sim, i: nat, chunk: nat)
    requires WellFormed(c) && Sized(c, s) && CanFinish(s, i)
    ensures var (ms, job) := (FinishMoves(c, s, i), s.workers[i].job.value);
            && |ms| == |job.prefill| + |job.decode|
            && (forall m :: m in ms ==> Legal(c, m, chunk))
            && (forall m :: m in ms ==> || (m.from == In(PrefillJob, i) && m.before in job.prefill)
                                        || (m.from == In(DecodeJob, i) && m.before in job.decode))
  {
    var s1 := s.(workers := s.workers[i := s.workers[i].(job := None)]);
    PrefillMovesLegal(c, s1, i, s.workers[i].job.value.prefill, chunk);
    DecodeMovesLegal(c, i, s.workers[i].job.value.decode, chunk);
  }

  // ---------------------------------------------------------------- any round

  ghost function Moves(c: Cluster, s: Sim, e: Event): seq<Move>
    requires WellFormed(c) && Sized(c, s) && Enabled(s, e)
  {
    match e
    case Arrival(_) => []
    case Begins(i) => StartMoves(c, s, i)
    case Ends(i) => FinishMoves(c, s, i)
  }

  lemma {:induction false} MovesBelow(f: Move -> nat, g: Move -> nat, ms: seq<Move>)
    requires forall m :: m in ms ==> f(m) + 1 <= g(m)
    ensures Sum(f, ms) + |ms| <= Sum(g, ms)
  {
    if ms != [] {
      MovesBelow(f, g, ms[1..]);
    }
  }
}
