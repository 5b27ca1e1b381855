/** Requests and batches as the mutable objects of distserve/request.py. */
module RequestObjects {
  import opened Common
  import opened Requests

  /** generated_tokens and generated_token_ids grow together; they are one list of pairs here. */
  class Request {
    const requestId: int
    const promptTokenIds: seq<int>
    const sampling: Sampling
    var generated: seq<Token>
    var isFinished: bool

    constructor (requestId: int, promptTokenIds: seq<int>, sampling: Sampling)
      ensures View() == Req(requestId, promptTokenIds, sampling, [], false)
    {
      this.requestId := requestId;
      this.promptTokenIds := promptTokenIds;
      this.sampling := sampling;
      generated := [];
      isFinished := false;
    }

    function View(): Req
      reads this
    {
      Req(requestId, promptTokenIds, sampling, generated, isFinished)
    }

    method CheckFinishCondition()
      modifies this`isFinished
      ensures isFinished == CheckFinish(old(View()))
      ensures isFinished <==>
              || old(isFinished) || |generated| >= sampling.maxTokens
              || (!sampling.ignoreEos && generated != [] && generated[|generated| - 1].text in sampling.stop)
    {
      if |generated| >= sampling.maxTokens {
        isFinished := true;
      }
      if !sampling.ignoreEos {
        if |generated| > 0 && generated[|generated| - 1].text in sampling.stop {
          isFinished := true;
        }
      }
    }

    method AddGeneratedToken(t: Token) returns (raised: Option<Error>)
      modifies this
      ensures Agrees(raised, AddToken(old(View()), t), View())
      ensures raised.None? <==> |old(generated)| <= sampling.maxTokens
      ensures raised.None? ==> Extended(old(View()), View(), t)
    {
      if |generated| > sampling.maxTokens {
        return Some(TooManyTokens);
      }
      generated := generated + [t];
      CheckFinishCondition();
      return None;
    }
  }

  /** The values of a list of request objects. */
  function Views(rs: seq<Request>): (vs: seq<Req>)
    reads rs
    ensures |vs| == |rs|
    ensures forall i :: 0 <= i < |rs| ==> vs[i] == rs[i].View()
  {
    seq(|rs|, i requires 0 <= i < |rs| reads rs => rs[i].View())
  }

  /** No object twice in the list. */
  ghost predicate Distinct(rs: seq<Request>) {
    forall i, j :: 0 <= i < j < |rs| ==> rs[i] != rs[j]
  }

  function Prepend(done: seq<Req>, rest: Result<seq<Req>>): Result<seq<Req>> {
    match rest
    case Ok(rs) => Ok(done + rs)
    case Err(e) => Err(e)
  }

  lemma PrependNothing(rest: Result<seq<Req>>)
    ensures Prepend([], rest) == rest
  {
    if rest.Ok? {
      assert [] + rest.value == rest.value;
    }
  }

  lemma AddTokensStep(done: seq<Req>, rs: seq<Req>, ts: seq<Token>)
    requires rs != [] && ts != [] && AddToken(rs[0], ts[0]).Ok?
    ensures Prepend(done, AddTokens(rs, ts))
         == Prepend(done + [AddToken(rs[0], ts[0]).value], AddTokens(rs[1..], ts[1..]))
  {
    var r := AddToken(rs[0], ts[0]).value;
    if AddTokens(rs[1..], ts[1..]).Ok? {
      assert done + ([r] + AddTokens(rs[1..], ts[1..]).value) == done + [r] + AddTokens(rs[1..], ts[1..]).value;
    }
  }

  lemma ViewsSnoc(a: seq<Request>, r: Request)
    ensures Views(a + [r]) == Views(a) + [r.View()]
  {
  }

  lemma ViewsTake(rs: seq<Request>, k: nat)
    requires k < |rs|
    ensures Views(rs)[..k + 1] == Views(rs)[..k] + [rs[k].View()]
  {
  }

  /** The loop of pop_finished_requests. */
  method Partition(rs: seq<Request>) returns (finished: seq<Request>, unfinished: seq<Request>)
    ensures Views(finished) == Finished(Views(rs))
    ensures Views(unfinished) == Unfinished(Views(rs))
    ensures forall r :: r in finished || r in unfinished ==> r in rs
  {
    finished, unfinished := [], [];
    for k := 0 to |rs|
      invariant forall r :: r in finished || r in unfinished ==> r in rs
      invariant Views(finished) == Finished(Views(rs)[..k])
      invariant Views(unfinished) == Unfinished(Views(rs)[..k])
    {
      FinishedSnoc(Views(rs)[..k], rs[k].View());
      ViewsTake(rs, k);
      if rs[k].isFinished {
        ViewsSnoc(finished, rs[k]);
        finished := finished + [rs[k]];
      } else {
        ViewsSnoc(unfinished, rs[k]);
        unfinished := unfinished + [rs[k]];
      }
    }
    assert Views(rs)[..|rs|] == Views(rs);
  }

  class BatchedRequests {
    var requests: seq<Request>
    var started: bool  // start_time is not None

    constructor ()
      ensures requests == [] && !started
    {
      requests := [];
      started := false;
    }

    function View(): Batch
      reads this, requests
    {
      Batch(Views(requests), started)
    }

    method AddRequest(r: Request) returns (raised: Option<Error>)
      modifies this
      ensures started == old(started)
      ensures if r.requestId in Ids(old(Views(requests))) then raised == Some(DuplicateInBatch)
              else raised.None? && requests == old(requests) + [r]
    {
      if exists i :: 0 <= i < |requests| && requests[i].requestId == r.requestId {
        ghost var i :| 0 <= i < |requests| && requests[i].requestId == r.requestId;
        assert Ids(Views(requests))[i] == r.requestId;
        return Some(DuplicateInBatch);
      }
      requests := requests + [r];
      return None;
    }

    method PopFinishedRequests() returns (finished: seq<Request>)
      modifies this
      ensures started == old(started)
      ensures Views(requests) == Unfinished(old(Views(requests)))
      ensures Views(finished) == Finished(old(Views(requests)))
      ensures forall r :: r in requests || r in finished ==> r in old(requests)
    {
      var unfinished;
      finished, unfinished := Partition(requests);
      requests := unfinished;
    }

    method StartOneIteration() returns (raised: Option<Error>)
      modifies this
      ensures requests == old(requests)
      ensures Agrees(raised, StartIteration(old(View())), View())
    {
      if started {
        return Some(AlreadyStarted);
      }
      started := true;
      return None;
    }

    /** One round of the zip loop: the k-th request gets token t. */
    method AddTokenAt(k: nat, t: Token) returns (raised: Option<Error>)
      requires k < |requests| && Distinct(requests)
      modifies requests[k]
      ensures AddToken(old(requests[k].View()), t).Ok? <==> raised.None?
      ensures raised.Some? ==> raised.value == AddToken(old(requests[k].View()), t).error
      ensures raised.None? ==>
                Views(requests) == old(Views(requests))[k := AddToken(old(requests[k].View()), t).value]
    {
      raised := requests[k].AddGeneratedToken(t);
    }

    /** The zip loop. */
    method AddEach(tokens: seq<Token>) returns (raised: Option<Error>)
      requires Distinct(requests)
      modifies requests
      ensures AddTokens(old(Views(requests)), tokens).Ok? <==> raised.None?
      ensures raised.Some? ==> raised.value == AddTokens(old(Views(requests)), tokens).error
      ensures raised.None? ==> Views(requests) == AddTokens(old(Views(requests)), tokens).value
    {
      ghost var vs := Views(requests);
      ZipStart(vs, tokens);
      var k := 0;
      while k < |requests| && k < |tokens|
        invariant k <= |requests| && k <= |tokens|
        invariant Zipped(vs, Views(requests), tokens, k)
      {
        ghost var now := Views(requests);
        ZipStep(vs, now, tokens, k);
        var e := AddTokenAt(k, tokens[k]);
        if e.Some? {
          return e;
        }
        k := k + 1;
      }
      ZipEnd(vs, Views(requests), tokens, k);
      return None;
    }

    method FinishOneIteration(tokens: seq<Token>) returns (raised: Option<Error>)
      requires Distinct(requests)
      modifies this, requests
      ensures requests == old(requests)
      ensures Agrees(raised, FinishIteration(old(View()), tokens), View())
    {
      if !started {
        return Some(NotStarted);
      }
      raised := AddEach(tokens);
      if raised.None? {
        started := false;
      }
    }
  }

  /** After k rounds of the zip over vs and tokens the requests are `now`. */
  ghost predicate Zipped(vs: seq<Req>, now: seq<Req>, tokens: seq<Token>, k: nat) {
    && |now| == |vs| && k <= |vs| && k <= |tokens|
    && now[k..] == vs[k..]
    && AddTokens(vs, tokens) == Prepend(now[..k], AddTokens(vs[k..], tokens[k..]))
  }

  lemma ZipStart(vs: seq<Req>, tokens: seq<Token>)
    ensures Zipped(vs, vs, tokens, 0)
  {
    PrependNothing(AddTokens(vs, tokens));
    assert vs[0..] == vs && tokens[0..] == tokens && vs[..0] == [];
  }

  lemma ZipStep(vs: seq<Req>, now: seq<Req>, tokens: seq<Token>, k: nat)
    requires Zipped(vs, now, tokens, k) && k < |vs| && k < |tokens|
    ensures AddToken(now[k], tokens[k]).Err? ==> AddTokens(vs, tokens) == Err(AddToken(now[k], tokens[k]).error)
    ensures AddToken(now[k], tokens[k]).Ok? ==>
              Zipped(vs, now[k := AddToken(now[k], tokens[k]).value], tokens, k + 1)
  {
    assert vs[k..][0] == now[k..][0] == now[k];
    assert vs[k..][1..] == vs[k + 1..] && tokens[k..][1..] == tokens[k + 1..];
    if AddToken(now[k], tokens[k]).Ok? {
      var r := AddToken(now[k], tokens[k]).value;
      AddTokensStep(now[..k], vs[k..], tokens[k..]);
      assert now[k := r][..k + 1] == now[..k] + [r];
      assert now[k := r][k + 1..] == now[k..][1..];
    }
  }

  lemma ZipEnd(vs: seq<Req>, now: seq<Req>, tokens: seq<Token>, k: nat)
    requires Zipped(vs, now, tokens, k) && (k == |vs| || k == |tokens|)
    ensures AddTokens(vs, tokens) == Ok(now)
  {
    assert now == now[..k] + vs[k..];
  }
}
