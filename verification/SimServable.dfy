/** Exactly which arrivals a simulation can finish, and what happens with any other. */
module SimServable {
  import opened Sums
  import opened SimRequests
  import opened SimWorkers
  import opened SimCluster
  import opened SimMoves
  import opened SimInvariant
  import opened SimTermination

  /** No run in which exactly these requests arrive has more than n events. */
  ghost predicate RunsWithin(c: Cluster, rs: seq<SReq>, n: nat)
    requires WellFormed(c)
  {
    forall es :: Possible(c, EmptySim(c), es) && Arrivals(es) == rs ==> |es| <= n
  }

  // ---------------------------------------------------------------- runs in two parts

  lemma StepFirst(c: Cluster, s: Sim, e: Event, rest: seq<Event>)
    requires WellFormed(c) && Sized(c, s) && Enabled(s, e) && Possible(c, Step(c, s, e), rest)
    ensures Possible(c, s, [e] + rest) && Run(c, s, [e] + rest) == Run(c, Step(c, s, e), rest)
  {
    assert ([e] + rest)[1..] == rest;
  }

  lemma {:induction false} PossibleAppend(c: Cluster, s: Sim, a: seq<Event>, b: seq<Event>)
    requires WellFormed(c) && Sized(c, s) && Possible(c, s, a) && Possible(c, Run(c, s, a), b)
    ensures Possible(c, s, a + b) && Run(c, s, a + b) == Run(c, Run(c, s, a), b)
    decreases |a|
  {
    if a == [] {
      assert a + b == b;
    } else {
      PossibleAppend(c, Step(c, s, a[0]), a[1..], b);
      StepFirst(c, s, a[0], a[1..] + b);
      assert a + b == [a[0]] + (a[1..] + b);
    }
  }

  lemma {:induction false} ArrivalsAppend(a: seq<Event>, b: seq<Event>)
    ensures Arrivals(a + b) == Arrivals(a) + Arrivals(b)
    decreases |a|
  {
    if a == [] {
      assert a + b == b;
    } else {
      ArrivalsAppend(a[1..], b);
      assert (a + b)[0] == a[0] && (a + b)[1..] == a[1..] + b;
    }
  }

  /** Everybody arrives before anything else happens. */
  function AllArrive(rs: seq<SReq>): seq<Event> {
    if rs == [] then [] else [Arrival(rs[0])] + AllArrive(rs[1..])
  }

  lemma {:induction false} AllArrivePossible(c: Cluster, s: Sim, rs: seq<SReq>)
    requires WellFormed(c) && Sized(c, s)
    ensures Possible(c, s, AllArrive(rs)) && Arrivals(AllArrive(rs)) == rs && |AllArrive(rs)| == |rs|
    decreases |rs|
  {
    if rs != [] {
      assert AllArrive(rs)[0] == Arrival(rs[0]) && AllArrive(rs)[1..] == AllArrive(rs[1..]);
      AllArrivePossible(c, Arrive(c, s, rs[0]), rs[1..]);
    }
  }

  // ---------------------------------------------------------------- the system never comes to rest

  /** While somebody who can never get through is in the system, some worker has something to do. */
  lemma LostMeansBusy(c: Cluster, s: Sim)
    requires Total(Lost(c), s) > 0
    ensures !Quiescent(s)
  {
    if Quiescent(s) {
      QuiescentTotal(Lost(c), s, |s.workers|);
      ExitedNotLost(c, s.exited);
    }
  }

  lemma {:induction false} ExitedNotLost(c: Cluster, rs: seq<SReq>)
    ensures Sum(At(Lost(c), Exited), rs) == 0
  {
    if rs != [] {
      ExitedNotLost(c, rs[1..]);
    }
  }

  /** So it goes on for any number of events without anybody arriving. */
  lemma {:induction false} GoesOn(c: Cluster, s: Sim, n: nat) returns (es: seq<Event>)
    requires WellFormed(c) && Sound(c, s) && Total(Lost(c), s) > 0
    ensures Possible(c, s, es) && Arrivals(es) == [] && |es| == n
    decreases n
  {
    if n == 0 {
      es := [];
    } else {
      LostMeansBusy(c, s);
      var i :| 0 <= i < |s.workers| && (CanStart(s, i) || CanFinish(s, i));
      var e := if CanStart(s, i) then Begins(i) else Ends(i);
      RoundSound(c, s, e);
      RoundHope(c, s, e);
      var rest := GoesOn(c, Step(c, s, e), n - 1);
      es := [e] + rest;
      assert es[1..] == rest;
    }
  }

  lemma {:induction false} SomeUnservable(l: Limits, rs: seq<SReq>)
    ensures CountUnservable(l, rs) > 0 <==> !AllServable(l, rs)
  {
    if rs != [] {
      SomeUnservable(l, rs[1..]);
      assert rs == [rs[0]] + rs[1..];
    }
  }

  /** If one of the arrivals cannot be served, there are runs of any length. */
  lemma EndlessRun(c: Cluster, rs: seq<SReq>, n: nat) returns (es: seq<Event>)
    requires WellFormed(c) && AllNew(rs) && !AllServable(c.limits, rs)
    ensures Possible(c, EmptySim(c), es) && Arrivals(es) == rs && |es| > n
  {
    var first := AllArrive(rs);
    AllArrivePossible(c, EmptySim(c), rs);
    SoundStart(c);
    RunSound(c, EmptySim(c), first);
    UnservableStay(c, EmptySim(c), first);
    SomeUnservable(c.limits, rs);
    var more := GoesOn(c, Run(c, EmptySim(c), first), n + 1);
    PossibleAppend(c, EmptySim(c), first, more);
    ArrivalsAppend(first, more);
    es := first + more;
    assert rs + [] == rs;
  }

  // ---------------------------------------------------------------- the theorems

  /** The runs with these arrivals are bounded if and only if every arrival is servable. */
  lemma BoundedIffServable(c: Cluster, rs: seq<SReq>)
    requires WellFormed(c) && AllNew(rs)
    ensures (exists n: nat :: RunsWithin(c, rs, n)) <==> AllServable(c.limits, rs)
  {
    if AllServable(c.limits, rs) {
      var n := |rs| + Allowances(LongestRing(c.nodes), rs);
      forall es | Possible(c, EmptySim(c), es) && Arrivals(es) == rs ensures |es| <= n {
        EveryRunIsBounded(c, es);
      }
      assert RunsWithin(c, rs, n);
    } else {
      forall n: nat ensures !RunsWithin(c, rs, n) {
        var es := EndlessRun(c, rs, n);
      }
    }
  }

  /** A run comes to rest only if everybody who arrived was servable. */
  lemma RestMeansServable(c: Cluster, es: seq<Event>)
    requires WellFormed(c) && Possible(c, EmptySim(c), es) && AllNew(Arrivals(es))
    requires Quiescent(Run(c, EmptySim(c), es))
    ensures AllServable(c.limits, Arrivals(es))
  {
    SoundStart(c);
    UnservableStay(c, EmptySim(c), es);
    if Total(Lost(c), Run(c, EmptySim(c), es)) > 0 {
      LostMeansBusy(c, Run(c, EmptySim(c), es));
    }
    SomeUnservable(c.limits, Arrivals(es));
  }

  // ---------------------------------------------------------------- two requests that never finish

  /** Without chunking, a prompt over the token limit that arrives alone keeps its worker busy for
      any number of events. */
  lemma OversizedPromptSpins(c: Cluster, r: SReq, n: nat) returns (es: seq<Event>)
    requires WellFormed(c) && IsNew(r) && r.counter < 0
    requires !c.limits.chunked && r.prefillLens > c.limits.prefillMaxTokens
    ensures Possible(c, EmptySim(c), es) && Arrivals(es) == [r] && |es| > n
    ensures !Quiescent(Run(c, EmptySim(c), es))
  {
    es := AloneForEver(c, r, n);
  }

  /** So does a request whose context would outgrow the cap of a decode batch. */
  lemma LongContextSpins(c: Cluster, r: SReq, n: nat) returns (es: seq<Event>)
    requires WellFormed(c) && IsNew(r) && r.counter < r.outputLens && r.outputLens > 0
    requires r.prefillLens + r.outputLens > CONTEXT_CAP
    ensures Possible(c, EmptySim(c), es) && Arrivals(es) == [r] && |es| > n
    ensures !Quiescent(Run(c, EmptySim(c), es))
  {
    es := AloneForEver(c, r, n);
  }

  lemma AloneForEver(c: Cluster, r: SReq, n: nat) returns (es: seq<Event>)
    requires WellFormed(c) && IsNew(r) && !Servable(c.limits, r)
    ensures Possible(c, EmptySim(c), es) && Arrivals(es) == [r] && |es| > n
    ensures !Quiescent(Run(c, EmptySim(c), es))
  {
    assert r in [r];
    es := EndlessRun(c, [r], n);
    if Quiescent(Run(c, EmptySim(c), es)) {
      RestMeansServable(c, es);
    }
  }

  /** One worker with a limit of four tokens a batch, and a prompt of five. */
  lemma FiveTokensNeverEnd(n: nat) returns (es: seq<Event>)
    ensures var c := Vllm(1, 1, Limits(8, 4, 8, false, 0));
            && WellFormed(c)
            && Possible(c, EmptySim(c), es) && Arrivals(es) == [NewRequest(0, 5, 1, -1)] && |es| > n
  {
    var l := Limits(8, 4, 8, false, 0);
    ClustersAreWellFormed(1, 1, 1, 1, l);
    es := OversizedPromptSpins(Vllm(1, 1, l), NewRequest(0, 5, 1, -1), n);
  }

  /** One worker that cuts chunks, and a prompt as long as the context cap. */
  lemma FullContextNeverEnds(n: nat) returns (es: seq<Event>)
    ensures var c := Vllm(1, 1, Limits(8, 4, 8, true, 0));
            && WellFormed(c)
            && Possible(c, EmptySim(c), es) && Arrivals(es) == [NewRequest(0, 50000, 1, -1)] && |es| > n
  {
    var l := Limits(8, 4, 8, true, 0);
    ClustersAreWellFormed(1, 1, 1, 1, l);
    es := LongContextSpins(Vllm(1, 1, l), NewRequest(0, 50000, 1, -1), n);
  }
}
