/** The request record and its token accounting (distserve/request.py). */
module Requests {
  import opened Common
  import opened Sums
  import opened Quotients

  /** A decoded token: its text and its id (generated_tokens / generated_token_ids). */
  datatype Token = Token(text: string, id: int)

  datatype Sampling = Sampling(maxTokens: int, ignoreEos: bool, stop: seq<string>)

  /** The value of a Request object: what it was created with and what it generated. */
  datatype Req = Req(id: int, prompt: seq<int>, sampling: Sampling,
                     output: seq<Token>, finished: bool)

  function IsContextStage(r: Req): bool { |r.output| == 0 }

  function InputTokenIds(r: Req): seq<int> {
    if IsContextStage(r) then r.prompt else [r.output[|r.output| - 1].id]
  }

  function NumInputTokens(r: Req): nat { |InputTokenIds(r)| }

  function FirstNewTokenIndex(r: Req): int {
    if IsContextStage(r) then 0 else |r.prompt| + |r.output| - 1
  }

  function CheckFinish(r: Req): bool {
    r.finished
    || |r.output| >= r.sampling.maxTokens
    || (!r.sampling.ignoreEos && |r.output| > 0 && r.output[|r.output| - 1].text in r.sampling.stop)
  }

  function AddToken(r: Req, t: Token): Result<Req> {
    if |r.output| > r.sampling.maxTokens then Err(TooManyTokens)
    else
      var r1 := r.(output := r.output + [t]);
      Ok(r1.(finished := CheckFinish(r1)))
  }

  /** How many blocks of `blockSize` slots hold `length` tokens, counted block by block. */
  function BlocksFor(length: nat, blockSize: nat): nat
    requires blockSize >= 1
  {
    if length == 0 then 0
    else if length <= blockSize then 1
    else 1 + BlocksFor(length - blockSize, blockSize)
  }

  /** BlocksFor is the ceiling: enough slots, and one block fewer would not do. */
  lemma {:induction false} BlocksForIsCeiling(length: nat, blockSize: nat)
    requires blockSize >= 1
    ensures length <= BlocksFor(length, blockSize) * blockSize < length + blockSize
  {
    if length > blockSize {
      BlocksForIsCeiling(length - blockSize, blockSize);
      var k := BlocksFor(length - blockSize, blockSize);
      assert (1 + k) * blockSize == blockSize + k * blockSize;
    }
  }

  /** The quotient the source computes is that ceiling. */
  lemma {:induction false} BlocksForIsQuotient(length: nat, blockSize: nat)
    requires blockSize >= 1
    ensures (length + blockSize - 1) / blockSize == BlocksFor(length, blockSize)
  {
    BlocksForIsCeiling(length, blockSize);
    var k := BlocksFor(length, blockSize);
    QuotientUnique(length + blockSize - 1, blockSize, k, length + blockSize - 1 - k * blockSize);
  }

  lemma {:induction false} BlocksForMonotone(a: nat, b: nat, blockSize: nat)
    requires blockSize >= 1 && a <= b
    ensures BlocksFor(a, blockSize) <= BlocksFor(b, blockSize)
  {
    if a > blockSize {
      BlocksForMonotone(a - blockSize, b - blockSize, blockSize);
    }
  }

  /** Blocks for the tokens a request has now, and for its prompt alone. */
  function Need(r: Req, blockSize: nat): nat
    requires blockSize >= 1
  {
    BlocksFor(|r.prompt| + |r.output|, blockSize)
  }

  function InNeed(r: Req, blockSize: nat): nat
    requires blockSize >= 1
  {
    BlocksFor(|r.prompt|, blockSize)
  }

  lemma InNeedBelowNeed(r: Req, blockSize: nat)
    requires blockSize >= 1
    ensures InNeed(r, blockSize) <= Need(r, blockSize)
  {
    BlocksForMonotone(|r.prompt|, |r.prompt| + |r.output|, blockSize);
  }

  // The weights the schedulers sum over their queues.

  function NeedF(blockSize: nat): Req -> nat
    requires blockSize >= 1
  {
    (r: Req) => Need(r, blockSize)
  }

  function InNeedF(blockSize: nat): Req -> nat
    requires blockSize >= 1
  {
    (r: Req) => InNeed(r, blockSize)
  }

  function NumInputTokensF(): Req -> nat { (r: Req) => NumInputTokens(r) }

  /** 1 on the request with this id: its sum over a queue counts occurrences of the id. */
  function IdF(id: int): Req -> nat { (r: Req) => if r.id == id then 1 else 0 }

  function Ids(rs: seq<Req>): (ids: seq<int>)
    ensures |ids| == |rs|
    ensures forall i :: 0 <= i < |rs| ==> ids[i] == rs[i].id
  {
    seq(|rs|, i requires 0 <= i < |rs| => rs[i].id)
  }

  lemma AbsentId(id: int, rs: seq<Req>)
    requires Sum(IdF(id), rs) == 0
    ensures forall r :: r in rs ==> r.id != id
  {
    forall r | r in rs ensures r.id != id {
      SumMember(IdF(id), rs, r);
    }
  }

  lemma PresentId(rs: seq<Req>, r: Req)
    requires r in rs
    ensures Sum(IdF(r.id), rs) >= 1
  {
    SumMember(IdF(r.id), rs, r);
  }

  /** Two different positions holding one id are counted twice. */
  lemma {:induction false} DistinctPositions(rs: seq<Req>, i: nat, j: nat)
    requires i < j < |rs| && rs[i].id == rs[j].id
    ensures Sum(IdF(rs[i].id), rs) >= 2
  {
    if i == 0 {
      assert rs[j] == rs[1..][j - 1];
      PresentId(rs[1..], rs[j]);
    } else {
      DistinctPositions(rs[1..], i - 1, j - 1);
    }
  }

  // Batches (BatchedRequests).

  datatype Batch = Batch(requests: seq<Req>, started: bool)

  function SumBatches(f: Req -> nat, batches: seq<Batch>): nat {
    if batches == [] then 0 else Sum(f, batches[0].requests) + SumBatches(f, batches[1..])
  }

  lemma {:induction false} SumBatchesUpdate(f: Req -> nat, batches: seq<Batch>, n: nat, b: Batch)
    requires n < |batches|
    ensures SumBatches(f, batches[n := b])
         == SumBatches(f, batches) - Sum(f, batches[n].requests) + Sum(f, b.requests)
    ensures Sum(f, batches[n].requests) <= SumBatches(f, batches)
  {
    if n == 0 {
      assert batches[0 := b][1..] == batches[1..];
    } else {
      SumBatchesUpdate(f, batches[1..], n - 1, b);
      assert batches[n := b][1..] == batches[1..][n - 1 := b];
    }
  }

  lemma {:induction false} SumBatchesAppend(f: Req -> nat, a: seq<Batch>, b: seq<Batch>)
    ensures SumBatches(f, a + b) == SumBatches(f, a) + SumBatches(f, b)
  {
    if a == [] {
      assert a + b == b;
    } else {
      SumBatchesAppend(f, a[1..], b);
      assert (a + b)[1..] == a[1..] + b;
    }
  }

  lemma SumBatchesSnoc(f: Req -> nat, a: seq<Batch>, b: Batch)
    ensures SumBatches(f, a + [b]) == SumBatches(f, a) + Sum(f, b.requests)
  {
    SumBatchesAppend(f, a, [b]);
    assert [b][1..] == [];
  }

  lemma {:induction false} SumBatchesAgree(f: Req -> nat, g: Req -> nat, batches: seq<Batch>)
    requires forall j, r :: 0 <= j < |batches| && r in batches[j].requests ==> f(r) == g(r)
    ensures SumBatches(f, batches) == SumBatches(g, batches)
  {
    if batches != [] {
      SumAgree(f, g, batches[0].requests);
      SumBatchesAgree(f, g, batches[1..]);
    }
  }

  lemma {:induction false} SumBatchesBelow(f: Req -> nat, g: Req -> nat, batches: seq<Batch>)
    requires forall j, r :: 0 <= j < |batches| && r in batches[j].requests ==> f(r) <= g(r)
    ensures SumBatches(f, batches) <= SumBatches(g, batches)
  {
    if batches != [] {
      SumBelow(f, g, batches[0].requests);
      SumBatchesBelow(f, g, batches[1..]);
    }
  }

  lemma {:induction false} SumBatchesMember(f: Req -> nat, batches: seq<Batch>, n: nat)
    requires n < |batches|
    ensures Sum(f, batches[n].requests) <= SumBatches(f, batches)
  {
    if n != 0 {
      SumBatchesMember(f, batches[1..], n - 1);
    }
  }

  lemma {:induction false} SumBatchesEmpty(f: Req -> nat, batches: seq<Batch>)
    requires forall j :: 0 <= j < |batches| ==> batches[j].requests == []
    ensures SumBatches(f, batches) == 0
  {
    if batches != [] {
      SumBatchesEmpty(f, batches[1..]);
    }
  }

  /** Two different batches together hold no more than all of them. */
  lemma {:induction false} SumBatchesTwo(f: Req -> nat, batches: seq<Batch>, n: nat, m: nat)
    requires n < m < |batches|
    ensures Sum(f, batches[n].requests) + Sum(f, batches[m].requests) <= SumBatches(f, batches)
  {
    if n == 0 {
      assert batches[1..][m - 1] == batches[m];
      SumBatchesMember(f, batches[1..], m - 1);
    } else {
      assert batches[1..][n - 1] == batches[n] && batches[1..][m - 1] == batches[m];
      SumBatchesTwo(f, batches[1..], n - 1, m - 1);
    }
  }

  /** An id counted at most once over all batches is at one position of one batch. */
  lemma PositionsDiffer(batches: seq<Batch>, n: nat, k: nat, m: nat, l: nat)
    requires n < |batches| && k < |batches[n].requests| && m < |batches| && l < |batches[m].requests|
    requires (n, k) != (m, l) && SumBatches(IdF(batches[n].requests[k].id), batches) <= 1
    ensures batches[n].requests[k].id != batches[m].requests[l].id
  {
    var id := batches[n].requests[k].id;
    if batches[m].requests[l].id == id {
      PresentId(batches[n].requests, batches[n].requests[k]);
      PresentId(batches[m].requests, batches[m].requests[l]);
      if n == m {
        SumBatchesMember(IdF(id), batches, n);
        DistinctPositions(batches[n].requests, if k < l then k else l, if k < l then l else k);
      } else {
        SumBatchesTwo(IdF(id), batches, if n < m then n else m, if n < m then m else n);
      }
    }
  }

  lemma AbsentIdInBatches(id: int, batches: seq<Batch>)
    requires SumBatches(IdF(id), batches) == 0
    ensures forall j, r :: 0 <= j < |batches| && r in batches[j].requests ==> r.id != id
  {
    forall j, r | 0 <= j < |batches| && r in batches[j].requests ensures r.id != id {
      SumBatchesMember(IdF(id), batches, j);
      SumMember(IdF(id), batches[j].requests, r);
    }
  }

  function StartIteration(b: Batch): Result<Batch> {
    if b.started then Err(AlreadyStarted) else Ok(b.(started := true))
  }

  /** The zip of finish_one_iteration: each request paired with a token gets it appended. */
  function AddTokens(rs: seq<Req>, ts: seq<Token>): Result<seq<Req>> {
    if rs == [] || ts == [] then Ok(rs)
    else
      var r :- AddToken(rs[0], ts[0]);
      var rest :- AddTokens(rs[1..], ts[1..]);
      Ok([r] + rest)
  }

  function FinishIteration(b: Batch, ts: seq<Token>): Result<Batch> {
    if !b.started then Err(NotStarted)
    else
      var rs :- AddTokens(b.requests, ts);
      Ok(Batch(rs, false))
  }

  function Select(rs: seq<Req>, finished: bool): seq<Req> {
    if rs == [] then []
    else (if rs[0].finished == finished then [rs[0]] else []) + Select(rs[1..], finished)
  }

  lemma {:induction false} SelectMembers(rs: seq<Req>, finished: bool)
    ensures forall r :: r in Select(rs, finished) <==> r in rs && r.finished == finished
  {
    if rs != [] {
      SelectMembers(rs[1..], finished);
    }
  }

  function Finished(rs: seq<Req>): (fs: seq<Req>)
    ensures forall r :: r in fs <==> r in rs && r.finished
  {
    SelectMembers(rs, true);
    Select(rs, true)
  }

  function Unfinished(rs: seq<Req>): (fs: seq<Req>)
    ensures forall r :: r in fs <==> r in rs && !r.finished
  {
    SelectMembers(rs, false);
    Select(rs, false)
  }

  /** Splitting a batch into finished and unfinished requests loses and invents nothing. */
  lemma {:induction false} SplitSums(f: Req -> nat, rs: seq<Req>)
    ensures Sum(f, rs) == Sum(f, Unfinished(rs)) + Sum(f, Finished(rs))
  {
    if rs != [] {
      SplitSums(f, rs[1..]);
      SumAppend(f, if rs[0].finished then [rs[0]] else [], Finished(rs[1..]));
      SumAppend(f, if rs[0].finished then [] else [rs[0]], Unfinished(rs[1..]));
      assert [rs[0]][1..] == [];
    }
  }

  /** 1 on a request that goes on. */
  function GoesOnF(): Req -> nat { (r: Req) => if r.finished then 0 else 1 }

  /** The requests that go on keep their order: each is preceded by as many as before. */
  lemma {:induction false} UnfinishedInOrder(rs: seq<Req>, i: nat)
    requires i < |rs| && !rs[i].finished
    ensures |Unfinished(rs)| == Sum(GoesOnF(), rs)
    ensures var k := Sum(GoesOnF(), rs[..i]); k < |Unfinished(rs)| && Unfinished(rs)[k] == rs[i]
  {
    UnfinishedCount(rs);
    if i > 0 {
      assert rs[..i][1..] == rs[1..][..i - 1];
      UnfinishedInOrder(rs[1..], i - 1);
    }
  }

  lemma {:induction false} UnfinishedCount(rs: seq<Req>)
    ensures |Unfinished(rs)| == Sum(GoesOnF(), rs)
  {
    if rs != [] {
      UnfinishedCount(rs[1..]);
    }
  }

  /** r2 is r after one more token: it stops at the last token asked for, and at a stop string unless
      these are to be ignored. */
  predicate Extended(r: Req, r2: Req, t: Token) {
    && r2 == r.(output := r.output + [t], finished := r2.finished)
    && (r2.finished <==>
        || r.finished || |r.output| + 1 >= r.sampling.maxTokens
        || (!r.sampling.ignoreEos && t.text in r.sampling.stop))
  }

  /** With one token per request, every request gets exactly its own token and none is refused. */
  lemma {:induction false} AddTokensSpec(rs: seq<Req>, ts: seq<Token>)
    requires |rs| == |ts|
    requires forall r :: r in rs ==> |r.output| <= r.sampling.maxTokens
    ensures AddTokens(rs, ts).Ok?
    ensures |AddTokens(rs, ts).value| == |rs|
    ensures forall i :: 0 <= i < |rs| ==> Extended(rs[i], AddTokens(rs, ts).value[i], ts[i])
  {
    if rs != [] {
      assert rs[0] in rs;
      AddTokensSpec(rs[1..], ts[1..]);
      var all := AddTokens(rs, ts).value;
      forall i | 0 <= i < |rs| ensures Extended(rs[i], all[i], ts[i]) {
        if i > 0 {
          assert all[i] == all[1..][i - 1] == AddTokens(rs[1..], ts[1..]).value[i - 1];
        }
      }
    }
  }

  /** Weights that agree position by position add up to the same. */
  lemma {:induction false} SumPointwise(f: Req -> nat, rs: seq<Req>, qs: seq<Req>)
    requires |rs| == |qs| && forall i :: 0 <= i < |rs| ==> f(rs[i]) == f(qs[i])
    ensures Sum(f, rs) == Sum(f, qs)
  {
    if rs != [] {
      SumPointwise(f, rs[1..], qs[1..]);
    }
  }

  lemma {:induction false} SelectSnoc(a: seq<Req>, r: Req, finished: bool)
    ensures Select(a + [r], finished) == Select(a, finished) + (if r.finished == finished then [r] else [])
    decreases |a|
  {
    var last := if r.finished == finished then [r] else [];
    if a == [] {
      assert a + [r] == [r] && [r][1..] == [];
      assert Select([r], finished) == last + Select([], finished);
      assert last + [] == last && [] + last == last;
    } else {
      var head := if a[0].finished == finished then [a[0]] else [];
      SelectSnoc(a[1..], r, finished);
      assert (a + [r])[0] == a[0] && (a + [r])[1..] == a[1..] + [r];
      assert Select(a + [r], finished) == head + Select(a[1..] + [r], finished);
      assert head + (Select(a[1..], finished) + last) == head + Select(a[1..], finished) + last;
    }
  }

  lemma SplitHead(rs: seq<Req>)
    requires rs != []
    ensures Finished(rs) == (if rs[0].finished then [rs[0]] else []) + Finished(rs[1..])
    ensures Unfinished(rs) == (if rs[0].finished then [] else [rs[0]]) + Unfinished(rs[1..])
  {
  }

  lemma FinishedSnoc(a: seq<Req>, r: Req)
    ensures Finished(a + [r]) == Finished(a) + (if r.finished then [r] else [])
    ensures Unfinished(a + [r]) == Unfinished(a) + (if r.finished then [] else [r])
  {
    SelectSnoc(a, r, true);
    SelectSnoc(a, r, false);
  }
}
