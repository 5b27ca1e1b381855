/** What a round of a simulated worker is, said without its loops: which requests it takes, how much
    of each prompt it cuts, and when it prefills at all. */
module SimRounds {
  import opened Common
  import opened Sums
  import opened SimRequests
  import opened SimWorkers

  // ---------------------------------------------------------------- back pressure

  /** The tokens of a request's context: its prompt and what it has decoded. */
  function ContextTokens(): SReq -> nat { (r: SReq) => r.prefillLens + if r.counter > 0 then r.counter else 0 }

  lemma {:induction false} ContextSumIsSum(q: seq<SReq>)
    ensures ContextSum(q) == Sum(ContextTokens(), q)
  {
    if q != [] {
      ContextSumIsSum(q[1..]);
    }
  }

  /** A worker prefills when prompts wait and the contexts waiting to decode are within the threshold. */
  ghost predicate Prefills(l: Limits, w: Worker) {
    w.prefillQ != [] && Sum(ContextTokens(), w.decodeQ) <= l.backPressureAt
  }

  // ---------------------------------------------------------------- what is taken

  /** The first requests of a queue are taken and the others stay, in order. */
  ghost predicate TakesFirst(queue: seq<SReq>, count: int, rest: seq<SReq>) {
    0 <= count <= |queue| && rest == queue[count..]
  }

  /** How much of a prompt the first stage may cut when `used` tokens are in the batch already: with
      chunks they count twice, once off the limit and once as the size of the batch so far. */
  function Cut(l: Limits, r: SReq, used: int): int {
    if l.chunked then Min(r.remain, l.prefillMaxTokens - used - used) else r.remain
  }

  function CanCut(l: Limits, r: SReq, used: int): bool {
    if l.chunked then Cut(l, r, used) > 0 else r.remain <= l.prefillMaxTokens - used
  }

  /** The k-th request of a first-stage batch is the k-th of the queue with its cut taken off. */
  ghost predicate CutAt(l: Limits, r: SReq, p: SReq, used: int, chunk: int) {
    && CanCut(l, r, used)
    && p == r.(current := Cut(l, r, used), remain := r.remain - Cut(l, r, used), chunk := Some(chunk))
  }

  /** A first-stage batch: one cut after the other, and no request more could have been taken. */
  ghost predicate CutsFirst(l: Limits, queue: seq<SReq>, p: seq<SReq>, rest: seq<SReq>, chunk: int) {
    && TakesFirst(queue, |p|, rest) && |p| <= l.prefillMaxBatch
    && (forall k :: 0 <= k < |p| ==> CutAt(l, queue[k], p[k], CurrentSum(p[..k]), chunk))
    && (rest != [] && |p| < l.prefillMaxBatch ==> !CanCut(l, rest[0], CurrentSum(p)))
  }

  /** A later stage's batch: the requests at the head of the queue that share its chunk. */
  ghost predicate TakesChunk(l: Limits, queue: seq<SReq>, p: seq<SReq>, rest: seq<SReq>) {
    && TakesFirst(queue, |p|, rest) && p == queue[..|p|] && |p| <= l.prefillMaxBatch
    && (forall r :: r in p ==> r.chunk == queue[0].chunk)
    && (rest != [] && |p| < l.prefillMaxBatch ==> rest[0].chunk != queue[0].chunk)
  }

  /** A decode part of at most n requests: their contexts, each with its next token, are within the
      cap, and with the next request they would not be. */
  ghost predicate TakesDecodes(queue: seq<SReq>, n: int, d: seq<SReq>, rest: seq<SReq>) {
    && TakesFirst(queue, |d|, rest) && d == queue[..|d|] && |d| <= (if n > 0 then n else 0)
    && var used := Sum(ContextTokens(), d) + |d|;
       && used <= CONTEXT_CAP
       && (rest != [] && |d| < n ==> used + ContextTokens()(rest[0]) + 1 > CONTEXT_CAP)
  }

  /** What a worker that begins a round takes and leaves. */
  ghost predicate FormsRound(l: Limits, first: bool, w: Worker, v: Worker, chunk: int) {
    && v.job.Some?
    && var Job(p, d) := v.job.value;
       if Prefills(l, w) then
         && (if first then CutsFirst(l, w.prefillQ, p, v.prefillQ, chunk)
             else TakesChunk(l, w.prefillQ, p, v.prefillQ))
         && (if l.chunked then TakesDecodes(w.decodeQ, l.prefillMaxTokens - CurrentSum(p), d, v.decodeQ)
             else d == [] && v.decodeQ == w.decodeQ)
       else p == [] && v.prefillQ == w.prefillQ && TakesDecodes(w.decodeQ, l.decodeMaxTokens, d, v.decodeQ)
  }

  // ---------------------------------------------------------------- the loops do that

  ghost predicate CutInTurn(l: Limits, queue: seq<SReq>, p: seq<SReq>, k: nat, chunk: int, used: int) {
    k < |p| && k < |queue| && CutAt(l, queue[k], p[k], used + CurrentSum(p[..k]), chunk)
  }

  lemma CutLater(l: Limits, queue: seq<SReq>, p: seq<SReq>, k: nat, chunk: int, used: int)
    requires queue != [] && 0 < k < |p| && CutInTurn(l, queue[1..], p[1..], k - 1, chunk, used + p[0].current)
    ensures CutInTurn(l, queue, p, k, chunk, used)
  {
    assert p[..k][1..] == p[1..][..k - 1];
    assert queue[1..][k - 1] == queue[k] && p[1..][k - 1] == p[k];
  }

  /** The batch the first stage goes on to form when `used` tokens are in it already. */
  ghost predicate CutsOn(l: Limits, queue: seq<SReq>, s: Split, n: nat, chunk: int, used: int) {
    && TakesFirst(queue, |s.picked|, s.rest) && |s.picked| <= n
    && (forall k :: 0 <= k < |s.picked| ==> CutInTurn(l, queue, s.picked, k, chunk, used))
    && (s.rest != [] && |s.picked| < n ==> !CanCut(l, s.rest[0], used + CurrentSum(s.picked)))
  }

  lemma CutsOnOne(l: Limits, queue: seq<SReq>, r: SReq, t: Split, n: nat, chunk: int, used: int)
    requires queue != [] && n > 0 && CutAt(l, queue[0], r, used, chunk)
    requires CutsOn(l, queue[1..], t, n - 1, chunk, used + r.current)
    ensures CutsOn(l, queue, Cons(r, t), n, chunk, used)
  {
    var s := Cons(r, t);
    assert s.picked[1..] == t.picked;
    forall k | 0 <= k < |s.picked| ensures CutInTurn(l, queue, s.picked, k, chunk, used) {
      if k > 0 {
        CutLater(l, queue, s.picked, k, chunk, used);
      }
    }
  }

  lemma {:induction false} EnterFirstCuts(l: Limits, queue: seq<SReq>, n: nat, chunk: int, used: int)
    ensures CutsOn(l, queue, EnterFirst(l, queue, n, chunk, l.prefillMaxTokens - used, used), n, chunk, used)
    decreases n
  {
    if n > 0 && queue != [] && CanCut(l, queue[0], used) {
      var size := Cut(l, queue[0], used);
      EnterFirstCuts(l, queue[1..], n - 1, chunk, used + size);
      var t := EnterFirst(l, queue[1..], n - 1, chunk, l.prefillMaxTokens - used - size, used + size);
      CutsOnOne(l, queue, Scheduled(queue[0], size, chunk), t, n, chunk, used);
    }
  }

  lemma FirstForms(l: Limits, queue: seq<SReq>, chunk: int)
    ensures var s := EnterFirst(l, queue, l.prefillMaxBatch, chunk, l.prefillMaxTokens, 0);
            CutsFirst(l, queue, s.picked, s.rest, chunk)
  {
    EnterFirstCuts(l, queue, l.prefillMaxBatch, chunk, 0);
    var s := EnterFirst(l, queue, l.prefillMaxBatch, chunk, l.prefillMaxTokens, 0);
    forall k | 0 <= k < |s.picked| ensures CutAt(l, queue[k], s.picked[k], CurrentSum(s.picked[..k]), chunk) {
      assert CutInTurn(l, queue, s.picked, k, chunk, 0);
    }
  }

  lemma {:induction false} DecodesForm(queue: seq<SReq>, n: int)
    ensures var s := EnterDecodes(queue, n, CONTEXT_CAP);
            TakesDecodes(queue, n, s.picked, s.rest)
  {
    var s := EnterDecodes(queue, n, CONTEXT_CAP);
    EnterDecodesSpec(queue, n, CONTEXT_CAP);
    ContextSumIsSum(s.picked);
    if n >= 0 {
      EnterDecodesIsGreedy(queue, n, CONTEXT_CAP);
    }
    assert s.picked == queue[..|s.picked|];
  }

  lemma PressesBackIff(l: Limits, q: seq<SReq>)
    ensures HasBackPressure(l, q) <==> Sum(ContextTokens(), q) > l.backPressureAt
  {
    ContextSumIsSum(q);
  }

  /** The whole of a round's beginning: it prefills exactly when prompts wait and the contexts waiting
      to decode are within the threshold, and it takes exactly what is said above. */
  lemma BeginFormsRound(l: Limits, first: bool, w: Worker, chunk: int)
    ensures FormsRound(l, first, w, Begin(l, first, w, chunk), chunk)
  {
    PressesBackIff(l, w.decodeQ);
    var v := Begin(l, first, w, chunk);
    if Prefills(l, w) {
      if first {
        FirstForms(l, w.prefillQ, chunk);
      } else {
        EnterLaterSpec(w.prefillQ, l.prefillMaxBatch, w.prefillQ[0].chunk);
      }
      DecodesForm(w.decodeQ, l.prefillMaxTokens - CurrentSum(v.job.value.prefill));
    } else {
      DecodesForm(w.decodeQ, l.decodeMaxTokens);
    }
  }
}
