/** What the users of the system receive: over every run, the step outputs of a request are
    exactly the tokens the workers returned for it, cut at the first one that finishes it. */
module Delivery {
  import opened Common
  import opened Sums
  import opened Requests
  import opened DecodeEngine
  import opened ContextEngine
  import opened Disaggregated
  import opened Conservation

  // ---------------------------------------------------------------- step outputs

  /** A StepOutput as the consumer of generate() sees it. */
  datatype Output = Output(id: int, token: Token, finished: bool)

  function OutputsOf(rs: seq<Req>, ts: seq<Token>): seq<Output> {
    if rs == [] || ts == [] then []
    else [Output(rs[0].id, ts[0], rs[0].finished)] + OutputsOf(rs[1..], ts[1..])
  }

  function StepOutputs(c: SysConfig, s: Sys, e: Event): seq<Output>
    requires Typed(c, s) && Enabled(c, s, e)
  {
    OutputsOf(Batch1(c, s, e), TokensOfEvent(e))
  }

  /** Everything put on the output queues along a run. */
  function Outputs(c: SysConfig, s: Sys, es: seq<Event>): seq<Output>
    requires Typed(c, s) && Possible(c, s, es)
    decreases |es|
  {
    if es == [] || Step(c, s, es[0]).Err? then []
    else StepOutputs(c, s, es[0]) + Outputs(c, Step(c, s, es[0]).value, es[1..])
  }

  function Arrived(es: seq<Event>): seq<Req>
    decreases |es|
  {
    if es == [] then [] else (if es[0].Arrive? then [es[0].req] else []) + Arrived(es[1..])
  }

  /** The output queue of one request. */
  function QueueOf(os: seq<Output>, id: int): seq<Output> {
    if os == [] then [] else (if os[0].id == id then [os[0]] else []) + QueueOf(os[1..], id)
  }

  function TokensIn(os: seq<Output>): (ts: seq<Token>)
    ensures |ts| == |os|
  {
    seq(|os|, i requires 0 <= i < |os| => os[i].token)
  }

  /** The consumer stops reading at an output marked finished. */
  predicate Ended(os: seq<Output>) { os != [] && os[|os| - 1].finished }

  predicate OnlyLastFinishes(os: seq<Output>) { forall k :: 0 <= k < |os| - 1 ==> !os[k].finished }

  lemma {:induction false} QueueAppend(a: seq<Output>, b: seq<Output>, id: int)
    ensures QueueOf(a + b, id) == QueueOf(a, id) + QueueOf(b, id)
  {
    if a == [] {
      assert a + b == b;
    } else {
      QueueAppend(a[1..], b, id);
      assert (a + b)[1..] == a[1..] + b;
    }
  }

  /** A batch in which the id does not occur puts nothing on its queue. */
  lemma {:induction false} QueueWithout(rs: seq<Req>, ts: seq<Token>, id: int)
    requires Sum(IdF(id), rs) == 0
    ensures QueueOf(OutputsOf(rs, ts), id) == []
  {
    if rs != [] && ts != [] {
      QueueWithout(rs[1..], ts[1..], id);
      assert OutputsOf(rs, ts)[1..] == OutputsOf(rs[1..], ts[1..]);
    }
  }

  /** A batch in which the id occurs once puts its one token there. */
  lemma {:induction false} QueueWith(rs: seq<Req>, ts: seq<Token>, k: nat)
    requires |ts| == |rs| && k < |rs| && Sum(IdF(rs[k].id), rs) == 1
    ensures QueueOf(OutputsOf(rs, ts), rs[k].id) == [Output(rs[k].id, ts[k], rs[k].finished)]
  {
    var id := rs[k].id;
    assert OutputsOf(rs, ts)[1..] == OutputsOf(rs[1..], ts[1..]);
    assert Sum(IdF(id), rs) == IdF(id)(rs[0]) + Sum(IdF(id), rs[1..]);
    if k == 0 {
      QueueWithout(rs[1..], ts[1..], id);
    } else {
      assert rs[1..][k - 1] == rs[k] && ts[1..][k - 1] == ts[k];
      PresentId(rs[1..], rs[k]);
      QueueWith(rs[1..], ts[1..], k - 1);
    }
  }

  // ---------------------------------------------------------------- members of a sum

  function Is(r: Req): Req -> nat { x => if x == r then 1 else 0 }

  lemma {:induction false} CountedMember(rs: seq<Req>, r: Req)
    ensures r in rs <==> Sum(Is(r), rs) >= 1
  {
    if rs != [] {
      CountedMember(rs[1..], r);
    }
  }

  lemma {:induction false} MemberOfId(rs: seq<Req>, id: int) returns (k: nat)
    requires Sum(IdF(id), rs) >= 1
    ensures k < |rs| && rs[k].id == id
  {
    if rs[0].id == id {
      k := 0;
    } else {
      k := MemberOfId(rs[1..], id);
      k := k + 1;
    }
  }

  // ---------------------------------------------------------------- the story of a run

  /** The request with what it generated set aside: what arrived. */
  function Asked(r: Req): Req { r.(output := [], finished := false) }

  function WithTokens(r: Req, ts: seq<Token>): Req { r.(output := ts, finished := false) }

  /** The stopping rule, read off the k-th token: as many as asked for, or a stop string that counts. */
  predicate StopsAt(r: Req, ts: seq<Token>, k: nat)
    requires 0 < k <= |ts|
  {
    k >= r.sampling.maxTokens || (!r.sampling.ignoreEos && ts[k - 1].text in r.sampling.stop)
  }

  /** No token but perhaps the last finishes the request. */
  ghost predicate NotBefore(r: Req, ts: seq<Token>, n: int) {
    forall k :: 0 < k < n && k <= |ts| ==> !StopsAt(r, ts, k)
  }

  /** A live request is what arrived plus the tokens on its queue, none of which finished it. */
  ghost predicate Told(os: seq<Output>, arrived: seq<Req>, r: Req) {
    && Asked(r) in arrived && !r.finished
    && r.output == TokensIn(QueueOf(os, r.id))
    && NotBefore(r, r.output, |r.output| + 1)
  }

  /** The queue of a finished request: it finished at its last token and at none before. */
  ghost predicate Complete(a: Req, ts: seq<Token>) {
    ts != [] && StopsAt(a, ts, |ts|) && NotBefore(a, ts, |ts|)
  }

  ghost predicate IdStory(everyone: seq<Req>, os: seq<Output>, arrived: seq<Req>, id: int) {
    && Sum(IdF(id), everyone) + (if Ended(QueueOf(os, id)) then 1 else 0) == Sum(IdF(id), arrived)
    && OnlyLastFinishes(QueueOf(os, id))
    && (Sum(IdF(id), arrived) == 0 ==> QueueOf(os, id) == [])
  }

  ghost predicate Story(everyone: seq<Req>, os: seq<Output>, arrived: seq<Req>) {
    && (forall id {:trigger QueueOf(os, id)} :: IdStory(everyone, os, arrived, id))
    && (forall r :: r in everyone ==> Told(os, arrived, r))
    && (forall a :: a in arrived && Ended(QueueOf(os, a.id)) ==> Complete(a, TokensIn(QueueOf(os, a.id))))
  }

  ghost predicate UniqueIds(arrived: seq<Req>) { forall id :: Sum(IdF(id), arrived) <= 1 }

  // ---------------------------------------------------------------- a batch returns

  /** The requests of the batch before and after their tokens, and who else there is. */
  ghost predicate Returning(p: seq<Req>, p1: seq<Req>, before: seq<Req>, after: seq<Req>,
                            ts: seq<Token>, rest: seq<Req>)
  {
    && |before| == |after| == |ts|
    && (forall i :: 0 <= i < |before| ==> Extended(before[i], after[i], ts[i]))
    && Exchange(p, p1, before, Unfinished(after), rest)
  }

  lemma SameIds(before: seq<Req>, after: seq<Req>, ts: seq<Token>, id: int)
    requires |before| == |after| == |ts|
    requires forall i :: 0 <= i < |before| ==> Extended(before[i], after[i], ts[i])
    ensures Sum(IdF(id), before) == Sum(IdF(id), after)
  {
    SumPointwise(IdF(id), before, after);
  }

  /** Ids outside the batch: nothing happens to them. */
  lemma OthersStory(p: seq<Req>, p1: seq<Req>, before: seq<Req>, after: seq<Req>, ts: seq<Token>, rest: seq<Req>,
                    os: seq<Output>, arrived: seq<Req>, id: int)
    requires Returning(p, p1, before, after, ts, rest) && Sum(IdF(id), before) == 0
    ensures QueueOf(os + OutputsOf(after, ts), id) == QueueOf(os, id)
    ensures Sum(IdF(id), p1) == Sum(IdF(id), p)
  {
    SameIds(before, after, ts, id);
    QueueWithout(after, ts, id);
    QueueAppend(os, OutputsOf(after, ts), id);
    SplitSums(IdF(id), after);
    assert Sum(IdF(id), p) == Sum(IdF(id), before) + Sum(IdF(id), rest);
    assert Sum(IdF(id), p1) == Sum(IdF(id), Unfinished(after)) + Sum(IdF(id), rest);
  }

  lemma ExchangeSum(p: seq<Req>, p1: seq<Req>, gone: seq<Req>, come: seq<Req>, rest: seq<Req>, f: Req -> nat)
    requires Exchange(p, p1, gone, come, rest)
    ensures Sum(f, p) == Sum(f, gone) + Sum(f, rest)
    ensures Sum(f, p1) == Sum(f, come) + Sum(f, rest)
  {
  }

  lemma OnceLeft(after: seq<Req>, k: nat)
    requires k < |after| && Sum(IdF(after[k].id), after) == 1
    ensures Sum(IdF(after[k].id), Unfinished(after)) == if after[k].finished then 0 else 1
  {
    SplitSums(IdF(after[k].id), after);
    if after[k].finished {
      PresentId(Finished(after), after[k]);
    } else {
      PresentId(Unfinished(after), after[k]);
    }
  }

  lemma MemberSums(p: seq<Req>, p1: seq<Req>, before: seq<Req>, after: seq<Req>, ts: seq<Token>, rest: seq<Req>, k: nat)
    requires Returning(p, p1, before, after, ts, rest) && k < |before|
    requires Sum(IdF(before[k].id), p) <= 1
    ensures var id := before[k].id;
            && after[k].id == id && Sum(IdF(id), after) == 1
            && Sum(IdF(id), p) == 1 && Sum(IdF(id), rest) == 0
            && Sum(IdF(id), p1) == if after[k].finished then 0 else 1
  {
    var id := before[k].id;
    assert Extended(before[k], after[k], ts[k]);
    PresentId(before, before[k]);
    ExchangeSum(p, p1, before, Unfinished(after), rest, IdF(id));
    SameIds(before, after, ts, id);
    OnceLeft(after, k);
  }

  /** Ids in the batch: one more token on the queue, and the request leaves if it finished. */
  lemma MemberStory(p: seq<Req>, p1: seq<Req>, before: seq<Req>, after: seq<Req>, ts: seq<Token>, rest: seq<Req>,
                    os: seq<Output>, k: nat)
    requires Returning(p, p1, before, after, ts, rest) && k < |before|
    requires Sum(IdF(before[k].id), p) <= 1
    ensures var id := before[k].id;
            && QueueOf(os + OutputsOf(after, ts), id) == QueueOf(os, id) + [Output(id, ts[k], after[k].finished)]
            && Sum(IdF(id), p) == 1 && Sum(IdF(id), rest) == 0
            && Sum(IdF(id), p1) == if after[k].finished then 0 else 1
  {
    MemberSums(p, p1, before, after, ts, rest, k);
    QueueWith(after, ts, k);
    QueueAppend(os, OutputsOf(after, ts), before[k].id);
  }

  lemma StoryOf(everyone: seq<Req>, os: seq<Output>, arrived: seq<Req>, id: int)
    requires Story(everyone, os, arrived)
    ensures IdStory(everyone, os, arrived, id)
  {
    assert QueueOf(os, id) == QueueOf(os, id);
  }

  lemma IdStoryAfter(p: seq<Req>, p1: seq<Req>, before: seq<Req>, after: seq<Req>, ts: seq<Token>, rest: seq<Req>,
                     os: seq<Output>, arrived: seq<Req>, id: int)
    requires Returning(p, p1, before, after, ts, rest) && Story(p, os, arrived) && UniqueIds(arrived)
    ensures IdStory(p1, os + OutputsOf(after, ts), arrived, id)
  {
    StoryOf(p, os, arrived, id);
    if Sum(IdF(id), before) == 0 {
      OthersStory(p, p1, before, after, ts, rest, os, arrived, id);
    } else {
      var k := MemberOfId(before, id);
      assert Sum(IdF(id), arrived) <= 1;
      MemberStory(p, p1, before, after, ts, rest, os, k);
      IdStoryGrows(p, p1, os, os + OutputsOf(after, ts), arrived, Output(id, ts[k], after[k].finished));
    }
  }

  lemma IdStoryGrows(p: seq<Req>, p1: seq<Req>, os: seq<Output>, os1: seq<Output>, arrived: seq<Req>, o: Output)
    requires IdStory(p, os, arrived, o.id) && Sum(IdF(o.id), arrived) <= 1 && Sum(IdF(o.id), p) == 1
    requires QueueOf(os1, o.id) == QueueOf(os, o.id) + [o]
    requires Sum(IdF(o.id), p1) == if o.finished then 0 else 1
    ensures IdStory(p1, os1, arrived, o.id)
  {
    var q, q1 := QueueOf(os, o.id), QueueOf(os1, o.id);
    assert q1[|q1| - 1] == o;
    assert forall k :: 0 <= k < |q| ==> q1[k] == q[k];
  }

  lemma TokensSnoc(os: seq<Output>, o: Output)
    ensures TokensIn(os + [o]) == TokensIn(os) + [o.token]
  {
  }

  /** The k-th request of the batch: its output and its queue grow by the same token. */
  lemma GrownTold(os: seq<Output>, os1: seq<Output>, arrived: seq<Req>, b: Req, a: Req, t: Token)
    requires Told(os, arrived, b) && Extended(b, a, t)
    requires QueueOf(os1, a.id) == QueueOf(os, a.id) + [Output(a.id, t, a.finished)]
    ensures Asked(a) == Asked(b) && a.output == TokensIn(QueueOf(os1, a.id))
    ensures NotBefore(a, a.output, |a.output|)
    ensures a.output != [] && a.finished == StopsAt(a, a.output, |a.output|)
  {
    TokensSnoc(QueueOf(os, a.id), Output(a.id, t, a.finished));
    forall k | 0 < k < |a.output| ensures !StopsAt(a, a.output, k) {
      assert !StopsAt(b, b.output, k);
    }
  }

  lemma GrownStaysTold(os: seq<Output>, os1: seq<Output>, arrived: seq<Req>, b: Req, a: Req, t: Token)
    requires Told(os, arrived, b) && Extended(b, a, t) && !a.finished
    requires QueueOf(os1, a.id) == QueueOf(os, a.id) + [Output(a.id, t, a.finished)]
    ensures Told(os1, arrived, a)
  {
    GrownTold(os, os1, arrived, b, a, t);
    assert a.output[..|a.output|] == a.output;
  }

  lemma ToldAfter(p: seq<Req>, p1: seq<Req>, before: seq<Req>, after: seq<Req>, ts: seq<Token>, rest: seq<Req>,
                  os: seq<Output>, arrived: seq<Req>, r: Req)
    requires Returning(p, p1, before, after, ts, rest) && Story(p, os, arrived) && UniqueIds(arrived)
    requires r in p1
    ensures Told(os + OutputsOf(after, ts), arrived, r)
  {
    var os1 := os + OutputsOf(after, ts);
    CountedMember(p1, r);
    CountedMember(Unfinished(after), r);
    CountedMember(rest, r);
    assert Sum(Is(r), p1) == Sum(Is(r), Unfinished(after)) + Sum(Is(r), rest);
    if r in Unfinished(after) {
      var k :| 0 <= k < |after| && after[k] == r;
      BeforeTold(p, p1, before, after, ts, rest, os, arrived, k);
      GrownStaysTold(os, os1, arrived, before[k], r, ts[k]);
    } else {
      RestTold(p, p1, before, after, ts, rest, os, arrived, r);
    }
  }

  lemma ToldSameQueue(os: seq<Output>, os1: seq<Output>, arrived: seq<Req>, r: Req)
    requires Told(os, arrived, r) && QueueOf(os1, r.id) == QueueOf(os, r.id)
    ensures Told(os1, arrived, r)
  {
  }

  /** Someone outside the batch was there before, under another id than any in the batch. */
  lemma RestApart(p: seq<Req>, p1: seq<Req>, before: seq<Req>, come: seq<Req>, rest: seq<Req>, r: Req)
    requires Exchange(p, p1, before, come, rest) && r in rest && Sum(IdF(r.id), p) <= 1
    ensures r in p && Sum(IdF(r.id), before) == 0
  {
    CountedMember(rest, r);
    CountedMember(p, r);
    assert Sum(Is(r), p) == Sum(Is(r), before) + Sum(Is(r), rest);
    PresentId(rest, r);
    assert Sum(IdF(r.id), p) == Sum(IdF(r.id), before) + Sum(IdF(r.id), rest);
  }

  lemma AtMostOnce(p: seq<Req>, os: seq<Output>, arrived: seq<Req>, id: int)
    requires Story(p, os, arrived) && UniqueIds(arrived)
    ensures Sum(IdF(id), p) <= 1
  {
    StoryOf(p, os, arrived, id);
    assert Sum(IdF(id), arrived) <= 1;
  }

  lemma RestTold(p: seq<Req>, p1: seq<Req>, before: seq<Req>, after: seq<Req>, ts: seq<Token>, rest: seq<Req>,
                 os: seq<Output>, arrived: seq<Req>, r: Req)
    requires Returning(p, p1, before, after, ts, rest) && Story(p, os, arrived) && UniqueIds(arrived)
    requires r in rest
    ensures Told(os + OutputsOf(after, ts), arrived, r)
  {
    AtMostOnce(p, os, arrived, r.id);
    RestApart(p, p1, before, Unfinished(after), rest, r);
    OthersStory(p, p1, before, after, ts, rest, os, arrived, r.id);
    ToldSameQueue(os, os + OutputsOf(after, ts), arrived, r);
  }

  /** The k-th request was told before, and its queue grows by its token. */
  lemma BeforeTold(p: seq<Req>, p1: seq<Req>, before: seq<Req>, after: seq<Req>, ts: seq<Token>, rest: seq<Req>,
                   os: seq<Output>, arrived: seq<Req>, k: nat)
    requires Returning(p, p1, before, after, ts, rest) && Story(p, os, arrived) && UniqueIds(arrived)
    requires k < |before|
    ensures Extended(before[k], after[k], ts[k]) && Told(os, arrived, before[k])
    ensures QueueOf(os + OutputsOf(after, ts), after[k].id)
         == QueueOf(os, after[k].id) + [Output(after[k].id, ts[k], after[k].finished)]
  {
    var b := before[k];
    CountedMember(before, b);
    CountedMember(p, b);
    assert Sum(Is(b), p) == Sum(Is(b), before) + Sum(Is(b), rest);
    StoryOf(p, os, arrived, b.id);
    MemberStory(p, p1, before, after, ts, rest, os, k);
  }

  lemma {:induction false} OneArrival(arrived: seq<Req>, a: Req, b: Req)
    requires Sum(IdF(a.id), arrived) <= 1 && a in arrived && b in arrived && a.id == b.id
    ensures a == b
  {
    if a != b {
      var i :| 0 <= i < |arrived| && arrived[i] == a;
      var j :| 0 <= j < |arrived| && arrived[j] == b;
      DistinctPositions(arrived, if i < j then i else j, if i < j then j else i);
    }
  }

  ghost predicate AllAsked(arrived: seq<Req>) { forall a :: a in arrived ==> a == Asked(a) }

  lemma CompleteAfter(p: seq<Req>, p1: seq<Req>, before: seq<Req>, after: seq<Req>, ts: seq<Token>, rest: seq<Req>,
                      os: seq<Output>, arrived: seq<Req>, a: Req)
    requires Returning(p, p1, before, after, ts, rest) && Story(p, os, arrived) && UniqueIds(arrived)
    requires AllAsked(arrived) && a in arrived && Ended(QueueOf(os + OutputsOf(after, ts), a.id))
    ensures Complete(a, TokensIn(QueueOf(os + OutputsOf(after, ts), a.id)))
  {
    var os1 := os + OutputsOf(after, ts);
    if Sum(IdF(a.id), before) == 0 {
      OthersStory(p, p1, before, after, ts, rest, os, arrived, a.id);
    } else {
      var k := MemberOfId(before, a.id);
      BeforeTold(p, p1, before, after, ts, rest, os, arrived, k);
      GrownTold(os, os1, arrived, before[k], after[k], ts[k]);
      OneArrival(arrived, a, Asked(after[k]));
      SameStatic(a, after[k]);
    }
  }

  lemma SameRule(a: Req, r: Req, ts: seq<Token>, n: int)
    requires a.sampling == r.sampling && NotBefore(r, ts, n)
    ensures NotBefore(a, ts, n)
  {
    forall k | 0 < k < n && k <= |ts| ensures !StopsAt(a, ts, k) {
      assert !StopsAt(r, ts, k);
    }
  }

  lemma SameStatic(a: Req, r: Req)
    requires a == Asked(r) && NotBefore(r, r.output, |r.output|)
    requires r.output != [] && StopsAt(r, r.output, |r.output|)
    ensures Complete(a, r.output)
  {
    SameRule(a, r, r.output, |r.output|);
  }

  /** When a batch returns, everyone's story goes on. */
  lemma ReturnStory(p: seq<Req>, p1: seq<Req>, before: seq<Req>, after: seq<Req>, ts: seq<Token>, rest: seq<Req>,
                    os: seq<Output>, arrived: seq<Req>)
    requires Returning(p, p1, before, after, ts, rest) && Story(p, os, arrived) && UniqueIds(arrived)
    requires AllAsked(arrived)
    ensures Story(p1, os + OutputsOf(after, ts), arrived)
  {
    var os1 := os + OutputsOf(after, ts);
    forall id ensures IdStory(p1, os1, arrived, id) {
      IdStoryAfter(p, p1, before, after, ts, rest, os, arrived, id);
    }
    forall r | r in p1 ensures Told(os1, arrived, r) {
      ToldAfter(p, p1, before, after, ts, rest, os, arrived, r);
    }
    forall a | a in arrived && Ended(QueueOf(os1, a.id)) ensures Complete(a, TokensIn(QueueOf(os1, a.id))) {
      CompleteAfter(p, p1, before, after, ts, rest, os, arrived, a);
    }
  }

  // ---------------------------------------------------------------- an arrival

  lemma ArrivalStory(p: seq<Req>, p1: seq<Req>, os: seq<Output>, arrived: seq<Req>, r: Req)
    requires Exchange(p, p1, [], [r], p) && Story(p, os, arrived) && UniqueIds(arrived + [r]) && Fresh(r)
    ensures Story(p1, os, arrived + [r])
  {
    SumSnoc(IdF(r.id), arrived, r);
    assert Sum(IdF(r.id), arrived + [r]) <= 1;
    StoryOf(p, os, arrived, r.id);
    forall id ensures IdStory(p1, os, arrived + [r], id) {
      StoryOf(p, os, arrived, id);
      SumSnoc(IdF(id), arrived, r);
      ArrivalSum(p, p1, r, IdF(id));
    }
    forall x | x in p1 ensures Told(os, arrived + [r], x) {
      ArrivalTold(p, p1, os, arrived, r, x);
    }
    forall a | a in arrived + [r] && Ended(QueueOf(os, a.id)) ensures Complete(a, TokensIn(QueueOf(os, a.id))) {
    }
  }

  lemma ArrivalTold(p: seq<Req>, p1: seq<Req>, os: seq<Output>, arrived: seq<Req>, r: Req, x: Req)
    requires Exchange(p, p1, [], [r], p) && (forall y :: y in p ==> Told(os, arrived, y)) && Fresh(r)
    requires QueueOf(os, r.id) == [] && x in p1
    ensures Told(os, arrived + [r], x)
  {
    CountedMember(p1, x);
    CountedMember(p, x);
    ArrivalSum(p, p1, r, Is(x));
    if x in p {
      assert Told(os, arrived, x);
      assert Asked(x) in arrived + [r];
    } else {
      assert x == r && Asked(r) == r;
      assert (arrived + [r])[|arrived|] == r;
    }
  }

  lemma ArrivalSum(p: seq<Req>, p1: seq<Req>, r: Req, f: Req -> nat)
    requires Exchange(p, p1, [], [r], p)
    ensures Sum(f, p1) == Sum(f, p) + f(r)
  {
    assert Sum(f, p1) == Sum(f, [r]) + Sum(f, p);
    assert [r][1..] == [];
  }

  // ---------------------------------------------------------------- the run

  lemma EmptyReturn(c: SysConfig, s: Sys, e: Event)
    requires Typed(c, s) && Enabled(c, s, e) && Batch0(c, s, e) == []
    ensures Batch1(c, s, e) == [] && StepOutputs(c, s, e) == []
    ensures Rest(c, s, e) == Everyone(s)
    ensures Newcomers(c, s, e) == if e.Arrive? then [e.req] else []
  {
    assert AddTokens([], TokensOfEvent(e)) == Ok([]);
  }

  lemma ArriveExchanges(c: SysConfig, s: Sys, e: Event)
    requires Inv(c, s) && Typed(c, s) && Enabled(c, s, e) && Step(c, s, e).Ok? && e.Arrive?
    ensures StepOutputs(c, s, e) == []
    ensures Exchange(Everyone(s), Everyone(Step(c, s, e).value), [], [e.req], Everyone(s))
  {
    StepExchanges(c, s, e);
    EmptyReturn(c, s, e);
  }

  lemma ArriveStep(c: SysConfig, s: Sys, e: Event, os: seq<Output>, arrived: seq<Req>)
    requires Inv(c, s) && Typed(c, s) && Enabled(c, s, e) && Step(c, s, e).Ok? && e.Arrive?
    requires Story(Everyone(s), os, arrived) && UniqueIds(arrived + [e.req])
    ensures Story(Everyone(Step(c, s, e).value), os + StepOutputs(c, s, e), arrived + [e.req])
  {
    ArriveExchanges(c, s, e);
    ArrivalStory(Everyone(s), Everyone(Step(c, s, e).value), os, arrived, e.req);
    NothingAdded(os, StepOutputs(c, s, e));
  }

  lemma NothingAdded<T>(s: seq<T>, more: seq<T>)
    requires more == []
    ensures s + more == s
  {
  }

  lemma QuietStep(c: SysConfig, s: Sys, e: Event, os: seq<Output>, arrived: seq<Req>)
    requires Inv(c, s) && Typed(c, s) && Enabled(c, s, e) && Step(c, s, e).Ok? && !e.Arrive? && Batch0(c, s, e) == []
    requires Story(Everyone(s), os, arrived) && AllAsked(arrived) && UniqueIds(arrived)
    ensures Story(Everyone(Step(c, s, e).value), os + StepOutputs(c, s, e), arrived)
  {
    StepExchanges(c, s, e);
    EmptyReturn(c, s, e);
    assert OutputsOf([], []) == [] && Unfinished([]) == [];
    ReturnStory(Everyone(s), Everyone(Step(c, s, e).value), [], [], [], Everyone(s), os, arrived);
  }

  lemma ReturnStep(c: SysConfig, s: Sys, e: Event, os: seq<Output>, arrived: seq<Req>)
    requires Inv(c, s) && Typed(c, s) && Enabled(c, s, e) && Step(c, s, e).Ok? && !e.Arrive? && Batch0(c, s, e) != []
    requires Story(Everyone(s), os, arrived) && AllAsked(arrived) && UniqueIds(arrived)
    ensures Story(Everyone(Step(c, s, e).value), os + StepOutputs(c, s, e), arrived)
  {
    StepExchanges(c, s, e);
    TokensPairWithCall(c, s, e);
    ReturnStory(Everyone(s), Everyone(Step(c, s, e).value), Batch0(c, s, e), Batch1(c, s, e), TokensOfEvent(e),
                Rest(c, s, e), os, arrived);
  }

  lemma StepStory(c: SysConfig, s: Sys, e: Event, os: seq<Output>, arrived: seq<Req>)
    requires Inv(c, s) && Typed(c, s) && Enabled(c, s, e) && Step(c, s, e).Ok?
    requires Story(Everyone(s), os, arrived) && AllAsked(arrived)
    requires UniqueIds(arrived + Now(e))
    ensures Story(Everyone(Step(c, s, e).value), os + StepOutputs(c, s, e), arrived + Now(e))
  {
    if e.Arrive? {
      ArriveStep(c, s, e, os, arrived);
    } else {
      NothingAdded(arrived, Now(e));
      if Batch0(c, s, e) == [] {
        QuietStep(c, s, e, os, arrived);
      } else {
        ReturnStep(c, s, e, os, arrived);
      }
    }
  }

  lemma UniquePrefix(a: seq<Req>, b: seq<Req>)
    requires UniqueIds(a + b)
    ensures UniqueIds(a)
  {
    forall id ensures Sum(IdF(id), a) <= 1 {
      SumAppend(IdF(id), a, b);
      assert Sum(IdF(id), a + b) <= 1;
    }
  }

  function Now(e: Event): seq<Req> { if e.Arrive? then [e.req] else [] }

  lemma StillAsked(c: SysConfig, s: Sys, e: Event, arrived: seq<Req>)
    requires c.Valid() && Enabled(c, s, e) && AllAsked(arrived)
    ensures AllAsked(arrived + Now(e))
  {
  }

  lemma UniqueSoFar(arrived: seq<Req>, es: seq<Event>)
    requires es != [] && UniqueIds(arrived + Arrived(es))
    ensures arrived + Arrived(es) == arrived + Now(es[0]) + Arrived(es[1..])
    ensures UniqueIds(arrived + Now(es[0]))
  {
    assert arrived + Arrived(es) == arrived + Now(es[0]) + Arrived(es[1..]);
    UniquePrefix(arrived + Now(es[0]), Arrived(es[1..]));
  }

  /** The story so far, in a state the invariant holds in. */
  ghost predicate Chapter(c: SysConfig, s: Sys, os: seq<Output>, arrived: seq<Req>) {
    Inv(c, s) && Story(Everyone(s), os, arrived) && AllAsked(arrived)
  }

  lemma NextChapter(c: SysConfig, s: Sys, e: Event, os: seq<Output>, arrived: seq<Req>)
    requires Typed(c, s) && Enabled(c, s, e) && Step(c, s, e).Ok?
    requires Chapter(c, s, os, arrived) && UniqueIds(arrived + Now(e))
    ensures Chapter(c, Step(c, s, e).value, os + StepOutputs(c, s, e), arrived + Now(e))
  {
    StepInv(c, s, e);
    StepStory(c, s, e, os, arrived);
    StillAsked(c, s, e, arrived);
  }

  lemma OutputsCons(c: SysConfig, s: Sys, es: seq<Event>, os: seq<Output>)
    requires Typed(c, s) && Possible(c, s, es) && es != [] && Run(c, s, es).Ok?
    ensures Enabled(c, s, es[0]) && Step(c, s, es[0]).Ok?
    ensures var t := Step(c, s, es[0]).value;
            && Typed(c, t) && Possible(c, t, es[1..]) && Run(c, s, es) == Run(c, t, es[1..])
            && os + Outputs(c, s, es) == os + StepOutputs(c, s, es[0]) + Outputs(c, t, es[1..])
  {
    var t := Step(c, s, es[0]).value;
    assert os + (StepOutputs(c, s, es[0]) + Outputs(c, t, es[1..]))
        == os + StepOutputs(c, s, es[0]) + Outputs(c, t, es[1..]);
  }

  lemma {:induction false} RunStory(c: SysConfig, s: Sys, es: seq<Event>, os: seq<Output>, arrived: seq<Req>)
    requires Typed(c, s) && Possible(c, s, es) && Run(c, s, es).Ok?
    requires Chapter(c, s, os, arrived) && UniqueIds(arrived + Arrived(es))
    ensures Chapter(c, Run(c, s, es).value, os + Outputs(c, s, es), arrived + Arrived(es))
    decreases |es|
  {
    if es == [] {
      assert os + [] == os && arrived + [] == arrived;
    } else {
      OutputsCons(c, s, es, os);
      UniqueSoFar(arrived, es);
      NextChapter(c, s, es[0], os, arrived);
      RunStory(c, Step(c, s, es[0]).value, es[1..], os + StepOutputs(c, s, es[0]), arrived + Now(es[0]));
    }
  }

  lemma BeginningStory(c: SysConfig)
    requires c.Valid()
    ensures Story(Everyone(Init(c)), [], [])
  {
    EmptyFlatten(InitBatches(c.dec.pp));
    assert Everyone(Init(c)) == [];
    forall id ensures IdStory([], [], [], id) {
      assert QueueOf([], id) == [];
    }
  }

  lemma {:induction false} EmptyFlatten(bs: seq<Batch>)
    requires forall i :: 0 <= i < |bs| ==> bs[i].requests == []
    ensures Flatten(bs) == []
  {
    if bs != [] {
      EmptyFlatten(bs[1..]);
    }
  }

  lemma StillThere(p: seq<Req>, os: seq<Output>, arrived: seq<Req>, a: Req)
    requires Story(p, os, arrived) && UniqueIds(arrived) && a in arrived && Sum(IdF(a.id), p) == 1
    ensures var ts := TokensIn(QueueOf(os, a.id));
            WithTokens(a, ts) in p && NotBefore(a, ts, |ts| + 1)
  {
    var k := MemberOfId(p, a.id);
    var r := p[k];
    assert Told(os, arrived, r);
    OneArrival(arrived, a, Asked(r));
    assert WithTokens(a, r.output) == r;
    SameRule(a, r, r.output, |r.output| + 1);
  }

  /** What the story says of one arrival. */
  ghost predicate Served(p: seq<Req>, os: seq<Output>, a: Req) {
    var q := QueueOf(os, a.id);
    && Sum(IdF(a.id), p) == (if Ended(q) then 0 else 1)
    && OnlyLastFinishes(q)
    && (!Ended(q) ==> WithTokens(a, TokensIn(q)) in p && NotBefore(a, TokensIn(q), |q| + 1))
    && (Ended(q) ==> Complete(a, TokensIn(q)))
  }

  lemma StoryServes(p: seq<Req>, os: seq<Output>, arrived: seq<Req>, a: Req)
    requires Story(p, os, arrived) && UniqueIds(arrived) && a in arrived
    ensures Served(p, os, a)
  {
    StoryOf(p, os, arrived, a.id);
    PresentId(arrived, a);
    assert Sum(IdF(a.id), arrived) <= 1;
    if Ended(QueueOf(os, a.id)) {
      assert Complete(a, TokensIn(QueueOf(os, a.id)));
    } else {
      StillThere(p, os, arrived, a);
    }
  }

  lemma FirstChapter(c: SysConfig)
    requires c.Valid()
    ensures Chapter(c, Init(c), [], [])
  {
    BeginningStory(c);
    InitInv(c);
  }

  lemma FromNothing<T>(s: seq<T>)
    ensures [] + s == s
  {
  }

  lemma RunFromStart(c: SysConfig, es: seq<Event>)
    requires c.Valid() && Typed(c, Init(c)) && Possible(c, Init(c), es) && Run(c, Init(c), es).Ok?
    requires UniqueIds(Arrived(es))
    ensures Chapter(c, Run(c, Init(c), es).value, Outputs(c, Init(c), es), Arrived(es))
  {
    FirstChapter(c);
    FromNothing(Outputs(c, Init(c), es));
    FromNothing(Arrived(es));
    RunStory(c, Init(c), es, [], []);
  }

  /** Whole-run delivery. Take any run in which no id arrives twice, and any request that arrived
      in it. Either it is in the system, once, with exactly the tokens its consumer received, none
      of which finishes it; or it is gone, and its consumer received a sequence that meets the
      stopping rule at its last token and at no earlier one, marked finished there only. */
  lemma EveryRequestIsServed(c: SysConfig, es: seq<Event>, a: Req)
    requires c.Valid() && Typed(c, Init(c)) && Possible(c, Init(c), es) && Run(c, Init(c), es).Ok?
    requires UniqueIds(Arrived(es)) && a in Arrived(es)
    ensures Served(Everyone(Run(c, Init(c), es).value), Outputs(c, Init(c), es), a)
  {
    RunFromStart(c, es);
    StoryServes(Everyone(Run(c, Init(c), es).value), Outputs(c, Init(c), es), Arrived(es), a);
  }
}
