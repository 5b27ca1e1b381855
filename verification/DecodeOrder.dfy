/** What get_next_batch decides, said without its loops: who is swapped out, who comes back, who
    is admitted, and why it stopped. */
module DecodeOrder {
  import opened Common
  import opened Sums
  import opened Requests
  import opened DecodeScheduler

  function Reverse(rs: seq<Req>): (q: seq<Req>)
    ensures |q| == |rs|
    ensures forall i :: 0 <= i < |rs| ==> q[i] == rs[|rs| - 1 - i]
  {
    seq(|rs|, i requires 0 <= i < |rs| => rs[|rs| - 1 - i])
  }

  /** The last k requests of the current batch, last one first. */
  function Victims(c: Config, s: Sched, k: nat): seq<Req>
    requires Running(c, s) && k <= |Current(c, s)|
  {
    Reverse(Current(c, s)[|Current(c, s)| - k..])
  }

  /** s1 is s after its last k requests of the current batch were swapped out. */
  ghost predicate Evicts(c: Config, s: Sched, k: nat, s1: Sched)
    requires Running(c, s)
  {
    && k <= |Current(c, s)| && Running(c, s1) && s1.cur == s.cur
    && s1.batches == WithCurrent(c, s, Current(c, s)[..|Current(c, s)| - k])
    && s1.swapped == s.swapped + Victims(c, s, k)
    && s1.waiting == s.waiting && s1.unaccepted == s.unaccepted
  }

  lemma TailsOfPrefix(rs: seq<Req>, k: nat)
    requires k + 1 <= |rs|
    ensures Reverse(rs[|rs| - (k + 1)..]) == [rs[|rs| - 1]] + Reverse(rs[..|rs| - 1][|rs| - 1 - k..])
    ensures rs[..|rs| - 1][..|rs| - 1 - k] == rs[..|rs| - (k + 1)]
  {
  }

  lemma EvictsOneMore(c: Config, s: Sched, s1: Sched, s2: Sched, k: nat)
    requires Running(c, s) && SwapOutLast(c, s) == Ok(s1) && Evicts(c, s1, k, s2)
    ensures Evicts(c, s, k + 1, s2)
  {
    var rs := Current(c, s);
    assert Current(c, s1) == rs[..|rs| - 1];
    TailsOfPrefix(rs, k);
    assert Victims(c, s, k + 1) == [rs[|rs| - 1]] + Victims(c, s1, k);
  }

  lemma PopNeed(c: Config, s: Sched, s1: Sched)
    requires Running(c, s) && SwapOutLast(c, s) == Ok(s1)
    ensures TotalNeed(c, s) == TotalNeed(c, s1) + Need(Current(c, s)[|Current(c, s)| - 1], c.blockSize)
  {
    var rs := Current(c, s);
    SumLast(NeedF(c.blockSize), rs);
    SumBatchesUpdate(NeedF(c.blockSize), s.batches, s.cur, s1.batches[s.cur]);
  }

  lemma NothingEvicted(c: Config, s: Sched)
    requires Running(c, s)
    ensures Evicts(c, s, 0, s)
  {
    assert Current(c, s)[..|Current(c, s)|] == Current(c, s);
    assert WithCurrent(c, s, Current(c, s)) == s.batches;
    assert Victims(c, s, 0) == [];
  }

  lemma NoneMore(c: Config, s: Sched, s1: Sched)
    requires Running(c, s) && Evicts(c, s, 0, s1)
    ensures TotalNeed(c, s1) == TotalNeed(c, s)
  {
    assert Current(c, s)[..|Current(c, s)| - 0] == Current(c, s);
    assert WithCurrent(c, s, Current(c, s)) == s.batches;
  }

  lemma MinimalStep(c: Config, s: Sched, s1: Sched, s2: Sched, j: nat)
    requires Running(c, s) && Overflow(c, s) && SwapOutLast(c, s) == Ok(s1) && Evicts(c, s1, j, s2)
    requires j > 0 ==> TotalNeed(c, s2) + Need(Current(c, s1)[|Current(c, s1)| - j], c.blockSize) > c.maxGpu
    ensures Evicts(c, s, j + 1, s2)
    ensures TotalNeed(c, s2) + Need(Current(c, s)[|Current(c, s)| - (j + 1)], c.blockSize) > c.maxGpu
  {
    EvictsOneMore(c, s, s1, s2, j);
    if j == 0 {
      PopNeed(c, s, s1);
      NoneMore(c, s1, s2);
    }
  }

  lemma OneRound(c: Config, s: Sched, s2: Sched) returns (s1: Sched)
    requires Running(c, s) && Overflow(c, s) && SwapOutLoop(c, s) == Ok(s2)
    ensures SwapOutLast(c, s) == Ok(s1) && Running(c, s1) && SwapOutLoop(c, s1) == Ok(s2)
    ensures |Current(c, s1)| < |Current(c, s)|
  {
    s1 := SwapOutLast(c, s).value;
  }

  lemma {:induction false} EvictsFewest(c: Config, s: Sched, s2: Sched) returns (k: nat)
    requires Running(c, s) && SwapOutLoop(c, s) == Ok(s2)
    ensures Evicts(c, s, k, s2) && !Overflow(c, s2)
    ensures k > 0 ==> TotalNeed(c, s2) + Need(Current(c, s)[|Current(c, s)| - k], c.blockSize) > c.maxGpu
    decreases |Current(c, s)|
  {
    if !Overflow(c, s) {
      k := 0;
      NothingEvicted(c, s);
    } else {
      var s1 := OneRound(c, s, s2);
      var j := EvictsFewest(c, s1, s2);
      k := j + 1;
      MinimalStep(c, s, s1, s2, j);
    }
  }

  /** The swap-out loop evicts from the end of the current batch, and no more than needed: with
      its last victim back, the need would overflow the GPU. */
  lemma SwapOutIsMinimal(c: Config, s: Sched) returns (k: nat)
    requires Running(c, s) && SwapOutLoop(c, s).Ok?
    ensures var s1 := SwapOutLoop(c, s).value;
            && Evicts(c, s, k, s1) && !Overflow(c, s1)
            && (k > 0 ==> TotalNeed(c, s1) + Need(Current(c, s)[|Current(c, s)| - k], c.blockSize) > c.maxGpu)
  {
    k := EvictsFewest(c, s, SwapOutLoop(c, s).value);
  }

  /** s1 is s after m swapped requests came back and w waiting ones were admitted, in order. */
  ghost predicate Admits(c: Config, s: Sched, m: nat, w: nat, s1: Sched)
    requires Running(c, s)
  {
    && m <= |s.swapped| && w <= |s.waiting| && Running(c, s1) && s1.cur == s.cur
    && (w > 0 ==> m == |s.swapped|)
    && s1.batches == WithCurrent(c, s, Current(c, s) + s.swapped[..m] + s.waiting[..w])
    && s1.swapped == s.swapped[m..]
    && s1.waiting == s.waiting[w..]
    && s1.unaccepted == s.unaccepted
  }

  /** Why admission stops: the next request in line, swapped ones first, fails the check. */
  ghost predicate Blocked(c: Config, s: Sched)
    requires Running(c, s)
  {
    if s.swapped != [] then !CheckAdd(c, s, s.swapped[0])
    else s.waiting != [] ==> !CheckAdd(c, s, s.waiting[0])
  }

  lemma AdmitsSwapped(c: Config, s: Sched, s1: Sched, m: nat, w: nat, s2: Sched)
    requires Running(c, s) && s.swapped != [] && SwapInHead(c, s) == Ok(s1) && Admits(c, s1, m, w, s2)
    ensures Admits(c, s, m + 1, w, s2)
  {
    assert s.swapped[..m + 1] == [s.swapped[0]] + s.swapped[1..][..m];
    assert Current(c, s1) == Current(c, s) + [s.swapped[0]];
    assert Current(c, s1) + s1.swapped[..m] == Current(c, s) + s.swapped[..m + 1];
  }

  lemma AdmitsWaiting(c: Config, s: Sched, s1: Sched, w: nat, s2: Sched)
    requires Running(c, s) && s.swapped == [] && s.waiting != [] && AdmitHead(c, s) == Ok(s1) && Admits(c, s1, 0, w, s2)
    ensures Admits(c, s, 0, w + 1, s2)
  {
    assert s.waiting[..w + 1] == [s.waiting[0]] + s.waiting[1..][..w];
    assert Current(c, s1) == Current(c, s) + [s.waiting[0]];
    assert Current(c, s1) + [] + s1.waiting[..w] == Current(c, s) + [] + s.waiting[..w + 1];
    assert s.swapped[..0] == [] == s1.swapped[..0];
  }

  lemma {:induction false} AdmitIsFcfs(c: Config, s: Sched) returns (m: nat, w: nat)
    requires Running(c, s) && AdmitLoop(c, s).Ok?
    ensures Admits(c, s, m, w, AdmitLoop(c, s).value) && Blocked(c, AdmitLoop(c, s).value)
    decreases |s.swapped| + |s.waiting|
  {
    if s.swapped != [] && CheckAdd(c, s, s.swapped[0]) {
      var s1 := SwapInHead(c, s).value;
      m, w := AdmitIsFcfs(c, s1);
      AdmitsSwapped(c, s, s1, m, w, AdmitLoop(c, s1).value);
      m := m + 1;
    } else if s.swapped == [] && s.waiting != [] && CheckAdd(c, s, s.waiting[0]) {
      var s1 := AdmitHead(c, s).value;
      m, w := AdmitIsFcfs(c, s1);
      AdmitsWaiting(c, s, s1, w, AdmitLoop(c, s1).value);
      w := w + 1;
    } else {
      m, w := 0, 0;
      assert Current(c, s) + s.swapped[..0] + s.waiting[..0] == Current(c, s);
      assert WithCurrent(c, s, Current(c, s)) == s.batches;
    }
  }

  /** get_next_batch, described by three numbers: it rotates, swaps out the last k requests of
      the batch (the fewest that make the need fit), brings back the first m of the swapped
      queue, victims last, and admits the first w waiting ones only when nobody is left swapped
      out; it stops at the first request that fails the check. */
  lemma NextBatchIsFcfs(c: Config, s: Sched) returns (k: nat, m: nat, w: nat, mid: Sched)
    requires Shape(c, s) && GetNextBatch(c, s).Ok?
    ensures Evicts(c, Rotate(c, s), k, mid) && !Overflow(c, mid)
    ensures k > 0 ==>
              var b := Current(c, Rotate(c, s));
              TotalNeed(c, mid) + Need(b[|b| - k], c.blockSize) > c.maxGpu
    ensures Admits(c, mid, m, w, GetNextBatch(c, s).value) && Blocked(c, GetNextBatch(c, s).value)
  {
    k := SwapOutIsMinimal(c, Rotate(c, s));
    mid := SwapOutLoop(c, Rotate(c, s)).value;
    m, w := AdmitIsFcfs(c, mid);
  }

  // ---------------------------------------------------------------- no thrashing

  lemma SwapInNeed(c: Config, s: Sched, s1: Sched)
    requires Running(c, s) && s.swapped != [] && SwapInHead(c, s) == Ok(s1)
    ensures TotalNeed(c, s1) == TotalNeed(c, s) + Need(s.swapped[0], c.blockSize)
  {
    SumSnoc(NeedF(c.blockSize), Current(c, s), s.swapped[0]);
    SumBatchesUpdate(NeedF(c.blockSize), s.batches, s.cur, s1.batches[s.cur]);
  }

  /** While a request that would overflow the GPU is last in the swapped queue, admission never
      gets past it: it stays, and nobody from the waiting queue overtakes it. */
  lemma {:induction false} LastStays(c: Config, s: Sched)
    requires Running(c, s) && AdmitLoop(c, s).Ok? && s.swapped != []
    requires TotalNeed(c, s) + Need(s.swapped[|s.swapped| - 1], c.blockSize) > c.maxGpu
    ensures var s1 := AdmitLoop(c, s).value;
            && s1.swapped != [] && s1.swapped[|s1.swapped| - 1] == s.swapped[|s.swapped| - 1]
            && s1.waiting == s.waiting
    decreases |s.swapped|
  {
    if CheckAdd(c, s, s.swapped[0]) {
      var s1 := SwapInKeepsLast(c, s);
      LastStays(c, s1);
    } else {
      NobodyBack(c, s);
    }
  }

  lemma NobodyBack(c: Config, s: Sched)
    requires Running(c, s) && s.swapped != [] && !CheckAdd(c, s, s.swapped[0])
    ensures AdmitLoop(c, s) == Ok(s)
  {
  }

  lemma SwapInKeepsLast(c: Config, s: Sched) returns (s1: Sched)
    requires Running(c, s) && AdmitLoop(c, s).Ok? && s.swapped != [] && CheckAdd(c, s, s.swapped[0])
    requires TotalNeed(c, s) + Need(s.swapped[|s.swapped| - 1], c.blockSize) > c.maxGpu
    ensures Running(c, s1) && AdmitLoop(c, s1) == AdmitLoop(c, s)
    ensures |s1.swapped| == |s.swapped| - 1 > 0 && s1.waiting == s.waiting
    ensures s1.swapped[|s1.swapped| - 1] == s.swapped[|s.swapped| - 1]
    ensures TotalNeed(c, s1) + Need(s1.swapped[|s1.swapped| - 1], c.blockSize) > c.maxGpu
  {
    s1 := SwapInRound(c, s);
    SwapInNeed(c, s, s1);
  }

  /** A round that brings back the head of the queue brings back somebody before the last. */
  lemma SwapInRound(c: Config, s: Sched) returns (s1: Sched)
    requires Running(c, s) && AdmitLoop(c, s).Ok? && s.swapped != [] && CheckAdd(c, s, s.swapped[0])
    requires TotalNeed(c, s) + Need(s.swapped[|s.swapped| - 1], c.blockSize) > c.maxGpu
    ensures |s.swapped| > 1 && SwapInHead(c, s) == Ok(s1)
    ensures Running(c, s1) && s1.swapped == s.swapped[1..] && s1.waiting == s.waiting
    ensures AdmitLoop(c, s) == AdmitLoop(c, s1)
  {
    s1 := SwapInHead(c, s).value;
  }

  lemma NoVictims(c: Config, s: Sched, mid: Sched)
    requires Running(c, s)
    ensures Evicts(c, s, 0, mid) ==> mid.swapped == s.swapped
  {
    assert Victims(c, s, 0) == [];
  }

  lemma LastVictim(c: Config, s: Sched, k: nat, mid: Sched)
    requires Running(c, s) && Evicts(c, s, k, mid) && k > 0
    ensures mid.swapped != []
    ensures mid.swapped[|mid.swapped| - 1] == Current(c, s)[|Current(c, s)| - k]
  {
    assert mid.swapped[|mid.swapped| - 1] == Victims(c, s, k)[k - 1];
  }

  lemma NextBatchParts(c: Config, s: Sched)
    requires Shape(c, s) && GetNextBatch(c, s).Ok?
    ensures SwapOutLoop(c, Rotate(c, s)).Ok?
    ensures GetNextBatch(c, s) == AdmitLoop(c, SwapOutLoop(c, Rotate(c, s)).value)
  {
  }

  lemma NoThrashFrom(c: Config, s: Sched, mid: Sched, s1: Sched)
    requires Running(c, s) && SwapOutLoop(c, s) == Ok(mid) && AdmitLoop(c, mid) == Ok(s1)
    requires mid.swapped != s.swapped
    ensures mid.swapped != [] && s1.swapped != []
    ensures s1.swapped[|s1.swapped| - 1] == mid.swapped[|mid.swapped| - 1]
    ensures s1.waiting == s.waiting
  {
    VictimOverflows(c, s);
    LastStays(c, mid);
  }

  /** No thrashing within a call: if the call swaps anybody out, its last victim is still
      swapped out when it returns, and no waiting request was admitted. */
  lemma NoThrash(c: Config, s: Sched)
    requires Shape(c, s) && GetNextBatch(c, s).Ok?
    requires SwapOutLoop(c, Rotate(c, s)).value.swapped != s.swapped
    ensures var mid, s1 := SwapOutLoop(c, Rotate(c, s)).value, GetNextBatch(c, s).value;
            && mid.swapped != [] && s1.swapped != []
            && s1.swapped[|s1.swapped| - 1] == mid.swapped[|mid.swapped| - 1]
            && s1.waiting == s.waiting
  {
    NextBatchParts(c, s);
    NoThrashFrom(c, Rotate(c, s), SwapOutLoop(c, Rotate(c, s)).value, GetNextBatch(c, s).value);
  }

  lemma VictimOverflows(c: Config, s: Sched)
    requires Running(c, s) && SwapOutLoop(c, s).Ok? && SwapOutLoop(c, s).value.swapped != s.swapped
    ensures var mid := SwapOutLoop(c, s).value;
            && mid.swapped != [] && mid.waiting == s.waiting
            && TotalNeed(c, mid) + Need(mid.swapped[|mid.swapped| - 1], c.blockSize) > c.maxGpu
  {
    var mid := SwapOutLoop(c, s).value;
    var k := SwapOutIsMinimal(c, s);
    NoVictims(c, s, mid);
    LastVictim(c, s, k, mid);
  }
}
