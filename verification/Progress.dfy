/** Progress of the two engines: from every state, some continuation without arrivals comes to rest,
    and at rest nothing ever happens until somebody arrives. */
module Progress {
  import opened Common
  import opened Requests
  import opened DecodeScheduler
  import opened DecodeEngine
  import opened ContextEngine
  import opened Disaggregated
  import opened CpuShortage
  import opened Conservation
  import opened DecodeStuck
  import opened Work

  // ---------------------------------------------------------------- at rest

  predicate NobodyIn(bs: seq<Batch>) { forall j :: 0 <= j < |bs| ==> bs[j].requests == [] }

  /** Nobody is in the context pipeline, and the head of the queue could not even be picked alone. */
  predicate ContextRests(c: Config, x: Ctx)
    requires c.Valid()
  {
    NobodyIn(x.pipeline) && (x.sched.waiting != [] ==> !CheckPick(c, x.sched, [], x.sched.waiting[0]))
  }

  /** Nobody is in a batch, and the first in line could not even be alone in one. */
  predicate DecodingRests(c: Config, s: Sched)
    requires c.Valid()
  {
    NobodyRuns(s) && (Queued(s) ==> HeadBlocked(c, s))
  }

  predicate AtRest(c: SysConfig, s: Sys)
    requires c.Valid()
  {
    && s.bridge == [] && !s.dec.phase.Migrating?
    && ContextRests(c.ctx, s.ctx) && DecodingRests(c.dec, s.dec.sched) && !CanAccept(c, s)
  }

  // ---------------------------------------------------------------- what happens next

  /** Tokens for a call: one for each of its requests. */
  function Answers(call: Option<StepCall>): (ts: seq<Token>)
    ensures call.Some? ==> |ts| == |call.value.ids|
  {
    if call.Some? then seq(|call.value.ids|, _ => Token("", 0)) else []
  }

  function FirstAnswers(calls: seq<Option<StepCall>>): seq<Token> { if calls == [] then [] else Answers(calls[0]) }

  /** One of the coroutines that can go on: the bridge first, then the context engine while it has
      something to do, then the decoding engine. */
  function Turn(c: SysConfig, s: Sys): Event
    requires c.Valid()
  {
    if s.bridge != [] then Bridge
    else if !ContextRests(c.ctx, s.ctx) then
      if s.ctx.submitted then CtxBack(FirstAnswers(s.ctx.futures)) else CtxStep
    else
      match s.dec.phase
      case Idle => DecStep
      case Submitted => DecBack(FirstAnswers(s.dec.futures))
      case Accepting => if CanAccept(c, s) then MigBegin else DecDone
      case Migrating(m) => MigEnd
  }

  lemma TurnEnabled(c: SysConfig, s: Sys)
    requires c.Valid()
    ensures Enabled(c, s, Turn(c, s)) && !Turn(c, s).Arrive?
  {
  }

  // ---------------------------------------------------------------- idle turns of the context engine

  /** The position of the first batch that holds anybody. */
  function FirstBusy(bs: seq<Batch>): nat
    decreases |bs|
  {
    if bs == [] || bs[0].requests != [] then 0 else 1 + FirstBusy(bs[1..])
  }

  lemma StillBusy(bs: seq<Batch>)
    requires !NobodyIn(bs) && bs[0].requests == []
    ensures !NobodyIn(bs[1..])
  {
    var j :| 0 <= j < |bs| && bs[j].requests != [];
    assert bs[1..][j - 1] == bs[j];
  }

  lemma {:induction false} FirstBusySnoc(bs: seq<Batch>, b: Batch)
    requires !NobodyIn(bs)
    ensures FirstBusy(bs + [b]) == FirstBusy(bs) && !NobodyIn(bs + [b])
    decreases |bs|
  {
    var j :| 0 <= j < |bs| && bs[j].requests != [];
    assert (bs + [b])[j] == bs[j];
    if bs[0].requests == [] {
      StillBusy(bs);
      FirstBusySnoc(bs[1..], b);
      assert (bs + [b])[1..] == bs[1..] + [b];
    }
  }

  /** How many turns of the context engine it takes until its first busy batch returns. */
  function ContextIdle(c: Config, x: Ctx): int {
    if NobodyIn(x.pipeline) then if x.submitted then 1 else 0
    else 2 * (c.pp - |x.pipeline| + FirstBusy(x.pipeline)) + (if x.submitted then 1 else 0)
  }

  lemma ContextIdleNat(c: Config, x: Ctx)
    requires CtxFlights(c, x)
    ensures ContextIdle(c, x) >= 0
  {
  }

  /** Whoever could be picked alone is picked. */
  lemma HeadPicked(c: Config, x: Ctx)
    requires CtxInv(c, x) && !x.submitted && x.sched.waiting != [] && CheckPick(c, x.sched, [], x.sched.waiting[0])
    ensures CtxSubmit(c, x).Ok? && CtxSubmit(c, x).value.sched.waiting != x.sched.waiting
  {
    CtxSubmitSafe(c, x);
    var s1, picked := PickFromStart(c, x);
    PickedSome(c, x.sched, s1, picked);
    CtxSubmitShape(c, x, s1, picked);
  }

  lemma PickedSome(c: Config, s: CtxSched, s1: CtxSched, picked: seq<Req>)
    requires c.Valid() && s.waiting != [] && CheckPick(c, s, [], s.waiting[0])
    requires picked + s1.waiting == s.waiting
    requires s1.waiting != [] ==> !CheckPick(c, s, picked, s1.waiting[0])
    ensures s1.waiting != s.waiting
  {
    assert |picked| + |s1.waiting| == |s.waiting|;
    assert picked == [] || |picked| > 0;
  }

  lemma CtxStepTurn(c: Config, x: Ctx)
    requires CtxInv(c, x) && !x.submitted && !ContextRests(c, x)
    ensures CtxSubmit(c, x).Ok?
    ensures CtxSubmit(c, x).value.sched.waiting == x.sched.waiting ==>
              ContextIdle(c, CtxSubmit(c, x).value) < ContextIdle(c, x)
  {
    var b := CtxStepMoves(c, x);
    if NobodyIn(x.pipeline) {
      HeadPicked(c, x);
    } else {
      FirstBusySnoc(x.pipeline, b);
      CtxSubmitSafe(c, x);
    }
  }

  lemma CtxBackTurn(c: Config, x: Ctx, ts: seq<Token>)
    requires CtxInv(c, x) && x.submitted && !(CtxFull(c, x) && x.futures[0].Some?)
    ensures CtxReturn(c, x, ts).Ok? && ContextIdle(c, CtxReturn(c, x, ts).value.0) < ContextIdle(c, x)
  {
    CtxIdleShape(c, x, ts);
    if CtxFull(c, x) && !NobodyIn(x.pipeline) {
      StillBusy(x.pipeline);
    }
  }

  // ---------------------------------------------------------------- idle turns of the decoding engine

  ghost function SomeBusy(bs: seq<Batch>): nat
    requires !NobodyIn(bs)
    ensures SomeBusy(bs) < |bs| && bs[SomeBusy(bs)].requests != []
  {
    var j :| 0 <= j < |bs| && bs[j].requests != [];
    j
  }

  /** How many rotations until the turn of batch j. */
  function Distance(c: Config, cur: int, j: int): int { if j > cur then j - cur - 1 else j - cur - 1 + c.pp }

  ghost function Rotations(c: Config, s: Sched): int {
    if NobodyRuns(s) then 0 else Distance(c, s.cur, SomeBusy(s.batches))
  }

  /** How many turns of the decoding engine it takes until its batch holds anybody, or until it is
      back in its acceptance loop. */
  ghost function DecodingIdle(c: SysConfig, s: Sys): int
    requires c.Valid()
  {
    match s.dec.phase
    case Idle => if NobodyRuns(s.dec.sched) && CanAccept(c, s) then 3 else 3 * Rotations(c.dec, s.dec.sched)
    case Accepting => 3 * Rotations(c.dec, s.dec.sched) + 1
    case Submitted => 3 * Rotations(c.dec, s.dec.sched) + 2
    case Migrating(m) => 0
  }

  lemma DecodingIdleNat(c: SysConfig, s: Sys)
    requires c.Valid() && Shape(c.dec, s.dec.sched)
    ensures DecodingIdle(c, s) >= 0
  {
  }

  /** A call that moves nobody leaves everything but the index as it was. */
  lemma QuietSubmit(c: Config, d: Dec)
    requires DecInv(c, d) && d.phase.Idle? && Submit(c, d).Ok? && !Stirs(c, d)
    ensures Submit(c, d).value.sched == Rotate(c, d.sched) && Submit(c, d).value.phase == Submitted
  {
    var s0 := Rotate(c, d.sched);
    SubmitCall(c, d);
    SubmitPipeline(c, d);
    RotateInv(c, d.sched);
    if Overflow(c, s0) {
      OverflowMeansNonEmpty(c, s0);
    }
    assert SwapOutLoop(c, s0) == Ok(s0);
    AdmitsNobody(c, s0);
  }

  lemma AdmitsNobody(c: Config, s: Sched)
    requires Running(c, s) && AdmitLoop(c, s).Ok? && Current(c, s) == [] && Current(c, AdmitLoop(c, s).value) == []
    ensures AdmitLoop(c, s) == Ok(s)
  {
    if s.swapped != [] && CheckAdd(c, s, s.swapped[0]) {
      AdmitsMore(c, SwapInHead(c, s).value, AdmitLoop(c, s).value);
    } else if s.swapped == [] && s.waiting != [] && CheckAdd(c, s, s.waiting[0]) {
      AdmitsMore(c, AdmitHead(c, s).value, AdmitLoop(c, s).value);
    }
  }

  /** Nobody to decode but somebody who could be: the call takes them. */
  lemma FreeStirs(c: Config, d: Dec)
    requires DecInv(c, d) && d.phase.Idle? && Submit(c, d).Ok?
    requires NobodyRuns(d.sched) && Queued(d.sched) && !HeadBlocked(c, d.sched)
    ensures Stirs(c, d)
  {
    FreeCall(c, d.sched);
  }

  /** The batch whose turn it is. */
  lemma NoRotationsLeft(c: Config, d: Dec)
    requires IndicesOk(c, d) && !NobodyRuns(d.sched) && Rotations(c, d.sched) == 0 && Submit(c, d).Ok?
    ensures Stirs(c, d)
  {
  }

  lemma OneRotation(c: Config, s: Sched)
    requires Shape(c, s) && !NobodyRuns(s) && Rotations(c, s) != 0
    ensures Rotations(c, Rotate(c, s)) == Rotations(c, s) - 1
  {
  }

  lemma DecStepTurn(c: SysConfig, s: Sys)
    requires Inv(c, s) && Enabled(c, s, DecStep) && Step(c, s, DecStep).Ok? && !Productive(c, s, DecStep)
    requires !(DecodingRests(c.dec, s.dec.sched) && !CanAccept(c, s))
    ensures DecodingIdle(c, Step(c, s, DecStep).value) < DecodingIdle(c, s)
  {
    var d := s.dec;
    DecStepComputes(c, s);
    QuietSubmit(c.dec, d);
    if NobodyRuns(d.sched) {
      if Queued(d.sched) && !HeadBlocked(c.dec, d.sched) {
        FreeStirs(c.dec, d);
      }
    } else {
      if Rotations(c.dec, d.sched) == 0 {
        NoRotationsLeft(c.dec, d);
      }
      OneRotation(c.dec, d.sched);
    }
  }

  lemma AcceptingNext(c: SysConfig, s: Sys, t: Sys)
    requires c.Valid() && s.dec.phase.Submitted? && t.dec.sched == s.dec.sched && t.dec.phase.Accepting?
    ensures DecodingIdle(c, t) < DecodingIdle(c, s)
  {
  }

  /** A return without a call changes nothing but the phase. */
  lemma QuietReturn(c: SysConfig, s: Sys, ts: seq<Token>)
    requires Inv(c, s) && Enabled(c, s, DecBack(ts)) && Batch0(c, s, DecBack(ts)) == []
    ensures Return(c.dec, s.dec, ts).Ok?
    ensures var d := Return(c.dec, s.dec, ts).value; d.sched == s.dec.sched && d.phase.Accepting?
  {
    if Full(c.dec, s.dec) && s.dec.futures[0].Some? {
      CallHasRequests(s.dec);
    }
    DecIdleShape(c.dec, s.dec, ts);
  }

  lemma DecBackTurn(c: SysConfig, s: Sys, ts: seq<Token>)
    requires Inv(c, s) && Enabled(c, s, DecBack(ts)) && Step(c, s, DecBack(ts)).Ok? && Batch0(c, s, DecBack(ts)) == []
    ensures DecodingIdle(c, Step(c, s, DecBack(ts)).value) < DecodingIdle(c, s)
  {
    QuietReturn(c, s, ts);
    DecBackComputes(c, s, ts);
    AcceptingNext(c, s, Step(c, s, DecBack(ts)).value);
  }

  lemma DecDoneTurn(c: SysConfig, s: Sys)
    requires Inv(c, s) && Enabled(c, s, DecDone) && Step(c, s, DecDone).Ok?
    ensures DecodingIdle(c, Step(c, s, DecDone).value) < DecodingIdle(c, s)
  {
  }

  // ---------------------------------------------------------------- every turn gets nearer to rest

  ghost function Idleness(c: SysConfig, s: Sys): int
    requires c.Valid()
  {
    ContextIdle(c.ctx, s.ctx) + DecodingIdle(c, s)
  }

  /** Turns of the decoding engine leave the context engine alone, unless they move somebody. */
  lemma DecodingTurn(c: SysConfig, s: Sys, e: Event)
    requires Inv(c, s) && Enabled(c, s, e) && Step(c, s, e).Ok? && !Productive(c, s, e)
    requires e.DecStep? || e.DecBack? || e.DecDone?
    requires e.DecStep? ==> !(DecodingRests(c.dec, s.dec.sched) && !CanAccept(c, s))
    ensures Idleness(c, Step(c, s, e).value) < Idleness(c, s)
  {
    match e
    case DecStep =>
      DecStepComputes(c, s);
      DecStepTurn(c, s);
    case DecBack(ts) =>
      DecBackComputes(c, s, ts);
      DecBackTurn(c, s, ts);
    case DecDone => DecDoneTurn(c, s);
    case _ =>
  }

  lemma DecodingUnmoved(c: SysConfig, s: Sys, t: Sys)
    requires c.Valid() && t.dec == s.dec
    ensures DecodingIdle(c, t) == DecodingIdle(c, s)
  {
  }

  lemma ContextTurn(c: SysConfig, s: Sys, e: Event)
    requires Inv(c, s) && Enabled(c, s, e) && Step(c, s, e).Ok? && !Productive(c, s, e)
    requires (e.CtxStep? && !ContextRests(c.ctx, s.ctx)) || e.CtxBack?
    ensures Idleness(c, Step(c, s, e).value) < Idleness(c, s)
  {
    DecodingUnmoved(c, s, Step(c, s, e).value);
    if e.CtxStep? {
      CtxStepComputes(c, s);
      CtxStepTurn(c.ctx, s.ctx);
    } else {
      CtxBackComputes(c, s, e.tokens);
      if CtxFull(c.ctx, s.ctx) && s.ctx.futures[0].Some? {
        CtxCallHasRequests(s.ctx);
      }
      CtxBackTurn(c.ctx, s.ctx, e.tokens);
    }
  }

  lemma TurnGetsNearer(c: SysConfig, s: Sys)
    requires Inv(c, s) && Typed(c, s) && !AtRest(c, s) && Enabled(c, s, Turn(c, s)) && Step(c, s, Turn(c, s)).Ok?
    ensures WorkLeft(Step(c, s, Turn(c, s)).value) <= WorkLeft(s)
    ensures WorkLeft(Step(c, s, Turn(c, s)).value) < WorkLeft(s)
            || Idleness(c, Step(c, s, Turn(c, s)).value) < Idleness(c, s)
  {
    var e := Turn(c, s);
    WorkStep(c, s, e);
    if !Productive(c, s, e) {
      if e.CtxStep? || e.CtxBack? {
        ContextTurn(c, s, e);
      } else {
        DecodingTurn(c, s, e);
      }
    }
  }

  lemma IdlenessNat(c: SysConfig, s: Sys)
    requires Inv(c, s)
    ensures Idleness(c, s) >= 0
  {
    ContextIdleNat(c.ctx, s.ctx);
    DecodingIdleNat(c, s);
  }

  predicate NoArrivals(es: seq<Event>)
    decreases |es|
  {
    es == [] || (!es[0].Arrive? && NoArrivals(es[1..]))
  }

  /** The continuation es has no arrivals and comes to rest, unless it wants CPU blocks. */
  ghost predicate Settles(c: SysConfig, s: Sys, es: seq<Event>)
    requires Typed(c, s)
  {
    && NoArrivals(es) && Possible(c, s, es)
    && (Run(c, s, es).Ok? ==> Inv(c, Run(c, s, es).value) && AtRest(c, Run(c, s, es).value))
    && (Run(c, s, es).Err? ==> Run(c, s, es).error == OutOfCpuBlocks)
  }

  lemma SettledNow(c: SysConfig, s: Sys)
    requires Inv(c, s) && Typed(c, s) && AtRest(c, s)
    ensures Settles(c, s, [])
  {
  }

  lemma TurnFails(c: SysConfig, s: Sys, e: Event)
    requires Typed(c, s) && Enabled(c, s, e) && !e.Arrive? && Step(c, s, e) == Err(OutOfCpuBlocks)
    ensures Settles(c, s, [e])
  {
  }

  lemma TurnFirst(c: SysConfig, s: Sys, e: Event, t: Sys, rest: seq<Event>)
    requires Typed(c, s) && Enabled(c, s, e) && !e.Arrive? && Step(c, s, e) == Ok(t) && Typed(c, t)
    requires Settles(c, t, rest)
    ensures Settles(c, s, [e] + rest)
  {
    assert ([e] + rest)[1..] == rest;
    assert Run(c, s, [e] + rest) == Run(c, t, rest);
  }

  /** What a turn does, with its outcome in hand. */
  lemma OneTurn(c: SysConfig, s: Sys)
    requires Inv(c, s) && Typed(c, s) && !AtRest(c, s)
    ensures Enabled(c, s, Turn(c, s)) && !Turn(c, s).Arrive?
    ensures Step(c, s, Turn(c, s)).Err? ==> Step(c, s, Turn(c, s)).error == OutOfCpuBlocks
    ensures Step(c, s, Turn(c, s)).Ok? ==>
              var t := Step(c, s, Turn(c, s)).value;
              && Inv(c, t) && WorkLeft(t) <= WorkLeft(s) && Idleness(c, s) >= 0
              && (WorkLeft(t) < WorkLeft(s) || Idleness(c, t) < Idleness(c, s))
  {
    TurnEnabled(c, s);
    StepInv(c, s, Turn(c, s));
    IdlenessNat(c, s);
    if Step(c, s, Turn(c, s)).Ok? {
      TurnGetsNearer(c, s);
    }
  }

  /** From every state: some continuation without arrivals comes to rest, unless it wants CPU blocks. */
  lemma {:induction false} ComesToRest(c: SysConfig, s: Sys) returns (es: seq<Event>)
    requires Inv(c, s) && Typed(c, s)
    ensures Settles(c, s, es)
    decreases WorkLeft(s), Idleness(c, s)
  {
    if AtRest(c, s) {
      es := [];
      SettledNow(c, s);
    } else {
      OneTurn(c, s);
      var e := Turn(c, s);
      if Step(c, s, e).Err? {
        es := [e];
        TurnFails(c, s, e);
      } else {
        var t := Step(c, s, e).value;
        var rest := ComesToRest(c, t);
        es := [e] + rest;
        TurnFirst(c, s, e, t, rest);
      }
    }
  }
}
