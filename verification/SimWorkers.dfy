/** One simulated worker: how it forms a batch (simdistserve/base/worker.py). */
module SimWorkers {
  import opened Common
  import opened SimRequests

  /** The limits of a worker, already normalised to be positive. */
  datatype Limits = Limits(prefillMaxBatch: nat, prefillMaxTokens: int, decodeMaxTokens: int,
                           chunked: bool, backPressureAt: int)
  {
    predicate Valid() {
      prefillMaxBatch >= 1 && prefillMaxTokens >= 1 && decodeMaxTokens >= 1 && backPressureAt >= 0
    }
  }

  const CONTEXT_CAP: int := 50000

  datatype Split = Split(picked: seq<SReq>, rest: seq<SReq>)

  function Cons(r: SReq, s: Split): Split { Split([r] + s.picked, s.rest) }

  // ---------------------------------------------------------------- _enter_prefill

  function Min(a: int, b: int): int { if a <= b then a else b }

  /** How much of the candidate is scheduled, given the running budget and chunk size; None when
      the loop stops at it. In chunked mode both variables shrink the allowance. */
  function SchedSize(l: Limits, r: SReq, budget: int, chunkSize: int): Option<int> {
    if l.chunked then
      var size := Min(r.remain, budget - chunkSize);
      if size <= 0 then None else Some(size)
    else if r.remain > budget then None
    else Some(r.remain)
  }

  function Scheduled(r: SReq, size: int, chunk: int): SReq {
    r.(current := size, remain := r.remain - size, chunk := Some(chunk))
  }

  /** The first stage: cut chunks off the queue head until a limit stops it. */
  function EnterFirst(l: Limits, queue: seq<SReq>, n: nat, chunk: int, budget: int, chunkSize: int): Split
    decreases n
  {
    if n == 0 || queue == [] then Split([], queue)
    else
      match SchedSize(l, queue[0], budget, chunkSize)
      case None => Split([], queue)
      case Some(size) =>
        Cons(Scheduled(queue[0], size, chunk),
             EnterFirst(l, queue[1..], n - 1, chunk, budget - size, chunkSize + size))
  }

  /** A later stage: take the head's chunk group. */
  function EnterLater(queue: seq<SReq>, n: nat, chunk: Option<int>): Split
    decreases n
  {
    if n == 0 || queue == [] || queue[0].chunk != chunk then Split([], queue)
    else Cons(queue[0], EnterLater(queue[1..], n - 1, chunk))
  }

  function EnterPrefill(l: Limits, first: bool, queue: seq<SReq>, chunk: int): Split
    requires queue != []
  {
    if first then EnterFirst(l, queue, l.prefillMaxBatch, chunk, l.prefillMaxTokens, 0)
    else EnterLater(queue, l.prefillMaxBatch, queue[0].chunk)
  }

  // ---------------------------------------------------------------- _enter_decodes

  function EnterDecodes(queue: seq<SReq>, n: int, budget: int): Split
    decreases |queue|
  {
    if n <= 0 || queue == [] || ContextLen(queue[0]) + 1 > budget then Split([], queue)
    else Cons(queue[0], EnterDecodes(queue[1..], n - 1, budget - (ContextLen(queue[0]) + 1)))
  }

  // ---------------------------------------------------------------- sums

  function CurrentSum(rs: seq<SReq>): int {
    if rs == [] then 0 else rs[0].current + CurrentSum(rs[1..])
  }

  function ContextSum(rs: seq<SReq>): int {
    if rs == [] then 0 else ContextLen(rs[0]) + ContextSum(rs[1..])
  }

  predicate HasBackPressure(l: Limits, decodeQ: seq<SReq>) { ContextSum(decodeQ) > l.backPressureAt }

  // ---------------------------------------------------------------- one worker

  /** The batch being executed: its prefill part and its decode part. */
  datatype Job = Job(prefill: seq<SReq>, decode: seq<SReq>)

  datatype Worker = Worker(prefillQ: seq<SReq>, decodeQ: seq<SReq>, job: Option<Job>)

  function DoPrefill(l: Limits, first: bool, w: Worker, chunk: int): Worker
    requires w.prefillQ != []
  {
    var p := EnterPrefill(l, first, w.prefillQ, chunk);
    if l.chunked then
      var d := EnterDecodes(w.decodeQ, l.prefillMaxTokens - CurrentSum(p.picked), CONTEXT_CAP);
      Worker(p.rest, d.rest, Some(Job(p.picked, d.picked)))
    else
      Worker(p.rest, w.decodeQ, Some(Job(p.picked, [])))
  }

  function DoDecode(l: Limits, w: Worker): Worker {
    var d := EnterDecodes(w.decodeQ, l.decodeMaxTokens, CONTEXT_CAP);
    Worker(w.prefillQ, d.rest, Some(Job([], d.picked)))
  }

  /** One round of run(): prefill unless there is none or the decode queue presses back. */
  function Begin(l: Limits, first: bool, w: Worker, chunk: int): Worker {
    if w.prefillQ != [] && !HasBackPressure(l, w.decodeQ) then DoPrefill(l, first, w, chunk)
    else DoDecode(l, w)
  }

  // ---------------------------------------------------------------- what a batch is made of

  /** A prefix of the queue is taken and the rest stays, in order. */
  ghost predicate TakesPrefix(queue: seq<SReq>, s: Split) {
    && |s.picked| + |s.rest| == |queue|
    && s.rest == queue[|s.picked|..]
  }

  /** The i-th request of a first-stage batch is the queue's i-th with a chunk cut off: some of
      what remains when prompts may be cut, and otherwise all of it, within the token limit. */
  ghost predicate CutFrom(l: Limits, r: SReq, p: SReq, chunk: int) {
    && p == Scheduled(r, p.current, chunk)
    && if l.chunked then 1 <= p.current <= r.remain else p.current == r.remain <= l.prefillMaxTokens
  }

  predicate AllRemain(queue: seq<SReq>) { forall r :: r in queue ==> r.remain >= 0 }

  ghost predicate CutsPrefix(l: Limits, queue: seq<SReq>, s: Split, chunk: int) {
    TakesPrefix(queue, s) && forall i :: 0 <= i < |s.picked| ==> CutFrom(l, queue[i], s.picked[i], chunk)
  }

  lemma CutsOneMore(l: Limits, queue: seq<SReq>, p: SReq, t: Split, chunk: int)
    requires queue != [] && CutFrom(l, queue[0], p, chunk) && CutsPrefix(l, queue[1..], t, chunk)
    ensures CutsPrefix(l, queue, Cons(p, t), chunk)
  {
    var s := Cons(p, t);
    forall i | 0 <= i < |s.picked| ensures CutFrom(l, queue[i], s.picked[i], chunk) {
      if i > 0 {
        assert s.picked[i] == t.picked[i - 1] && queue[i] == queue[1..][i - 1];
      }
    }
  }

  lemma ChunkFits(l: Limits, r: SReq, budget: int, chunkSize: int, chunk: int)
    requires r.remain >= 0 && chunkSize >= 0 && budget <= l.prefillMaxTokens
    requires SchedSize(l, r, budget, chunkSize).Some?
    ensures var size := SchedSize(l, r, budget, chunkSize).value;
            0 <= size <= budget && CutFrom(l, r, Scheduled(r, size, chunk), chunk)
  {
  }

  /** A batch of at most n chunks cut off the head of the queue, within the budget. */
  ghost predicate FirstOk(l: Limits, queue: seq<SReq>, s: Split, n: int, chunk: int, budget: int) {
    CutsPrefix(l, queue, s, chunk) && |s.picked| <= n && CurrentSum(s.picked) <= budget
  }

  lemma FirstOneMore(l: Limits, queue: seq<SReq>, p: SReq, t: Split, n: int, chunk: int, budget: int)
    requires queue != [] && CutFrom(l, queue[0], p, chunk)
    requires FirstOk(l, queue[1..], t, n - 1, chunk, budget - p.current)
    ensures FirstOk(l, queue, Cons(p, t), n, chunk, budget)
  {
    CutsOneMore(l, queue, p, t, chunk);
    assert Cons(p, t).picked[1..] == t.picked;
  }

  lemma {:induction false} EnterFirstSpec(l: Limits, queue: seq<SReq>, n: nat, chunk: int, budget: int, chunkSize: int)
    requires AllRemain(queue) && chunkSize >= 0 && 0 <= budget <= l.prefillMaxTokens
    ensures FirstOk(l, queue, EnterFirst(l, queue, n, chunk, budget, chunkSize), n, chunk, budget)
    decreases n
  {
    if n == 0 || queue == [] || SchedSize(l, queue[0], budget, chunkSize).None? {
      assert EnterFirst(l, queue, n, chunk, budget, chunkSize) == Split([], queue);
    } else {
      var size := SchedSize(l, queue[0], budget, chunkSize).value;
      assert queue[0] in queue;
      ChunkFits(l, queue[0], budget, chunkSize, chunk);
      EnterFirstSpec(l, queue[1..], n - 1, chunk, budget - size, chunkSize + size);
      var t := EnterFirst(l, queue[1..], n - 1, chunk, budget - size, chunkSize + size);
      FirstOneMore(l, queue, Scheduled(queue[0], size, chunk), t, n, chunk, budget);
    }
  }

  lemma {:induction false} EnterLaterSpec(queue: seq<SReq>, n: nat, chunk: Option<int>)
    ensures var s := EnterLater(queue, n, chunk);
            && |s.picked| <= n && queue == s.picked + s.rest
            && (forall r :: r in s.picked ==> r.chunk == chunk)
            && (s.rest != [] && |s.picked| < n ==> s.rest[0].chunk != chunk)
    decreases n
  {
    if !(n == 0 || queue == [] || queue[0].chunk != chunk) {
      EnterLaterSpec(queue[1..], n - 1, chunk);
    }
  }

  /** Why the first stage stopped: the batch is full, the queue is empty, the next request has
      nothing to cut, or the allowance is used up. With chunks both variables shrink it, so it can be
      used up at half the token limit. */
  lemma {:induction false} EnterFirstIsGreedy(l: Limits, queue: seq<SReq>, n: nat, chunk: int, budget: int,
                                              chunkSize: int)
    requires AllRemain(queue)
    ensures var s := EnterFirst(l, queue, n, chunk, budget, chunkSize);
            var used := CurrentSum(s.picked);
            |s.picked| < n && s.rest != [] ==>
              if l.chunked then s.rest[0].remain <= 0 || budget - used <= chunkSize + used
              else s.rest[0].remain > budget - used
    decreases n
  {
    if n > 0 && queue != [] {
      assert queue[0] in queue;
      match SchedSize(l, queue[0], budget, chunkSize)
      case None =>
      case Some(size) =>
        EnterFirstIsGreedy(l, queue[1..], n - 1, chunk, budget - size, chunkSize + size);
        var t := EnterFirst(l, queue[1..], n - 1, chunk, budget - size, chunkSize + size);
        assert Cons(Scheduled(queue[0], size, chunk), t).picked[1..] == t.picked;
    }
  }

  lemma {:induction false} EnterDecodesSpec(queue: seq<SReq>, n: int, budget: int)
    ensures queue == EnterDecodes(queue, n, budget).picked + EnterDecodes(queue, n, budget).rest
    ensures |EnterDecodes(queue, n, budget).picked| <= if n >= 0 then n else 0
    decreases |queue|
  {
    if !(n <= 0 || queue == [] || ContextLen(queue[0]) + 1 > budget) {
      var left := budget - (ContextLen(queue[0]) + 1);
      EnterDecodesSpec(queue[1..], n - 1, left);
      var t := EnterDecodes(queue[1..], n - 1, left);
      assert EnterDecodes(queue, n, budget) == Cons(queue[0], t);
      assert queue == [queue[0]] + (t.picked + t.rest);
    }
  }

  /** A decode batch stays under the context cap, and stops only when it is full, the queue is
      empty, or the next request would exceed the cap. */
  lemma {:induction false} EnterDecodesIsGreedy(queue: seq<SReq>, n: nat, budget: nat)
    ensures var s := EnterDecodes(queue, n, budget);
            var used := ContextSum(s.picked) + |s.picked|;
            && used <= budget
            && (|s.picked| < n && s.rest != [] ==> used + ContextLen(s.rest[0]) + 1 > budget)
    decreases |queue|
  {
    if !(n <= 0 || queue == [] || ContextLen(queue[0]) + 1 > budget) {
      EnterDecodesIsGreedy(queue[1..], n - 1, budget - (ContextLen(queue[0]) + 1));
      var t := EnterDecodes(queue[1..], n - 1, budget - (ContextLen(queue[0]) + 1));
      assert Cons(queue[0], t).picked[1..] == t.picked;
    }
  }

  /** Every request of a decode batch is itself under the cap. */
  lemma {:induction false} EnterDecodesCapped(queue: seq<SReq>, n: int, budget: int)
    ensures forall r :: r in EnterDecodes(queue, n, budget).picked ==> ContextLen(r) + 1 <= budget
    decreases |queue|
  {
    if !(n <= 0 || queue == [] || ContextLen(queue[0]) + 1 > budget) {
      EnterDecodesCapped(queue[1..], n - 1, budget - (ContextLen(queue[0]) + 1));
    }
  }
}
