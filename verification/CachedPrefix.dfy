/** Caches filled by forward passes: what the engines do to a cache, and when its contents are those
    of a request's own token prefix. A forward pass writes when it is submitted, and a copy takes
    effect when it is issued. */
module CachedPrefix {
  import opened Common
  import opened Quotients
  import opened Requests
  import opened Blocks
  import opened DecodeScheduler
  import opened ContextEngine
  import K = KvStore

  // ---------------------------------------------------------------- tokens and their cells

  /** The keys and values of a position are a function of the tokens up to it. */
  type Model<!V> = seq<int> -> V

  function OutputIds(ts: seq<Token>): (ids: seq<int>)
    ensures |ids| == |ts|
  {
    seq(|ts|, i requires 0 <= i < |ts| => ts[i].id)
  }

  function Tokens(r: Req): seq<int> { r.prompt + OutputIds(r.output) }

  function ValueAt<V>(key: Model<V>, r: Req, pos: nat): V
    requires pos < |Tokens(r)|
  {
    key(Tokens(r)[..pos + 1])
  }

  type Store<V> = map<int, map<nat, V>>

  /** The first n positions of the request were computed from its own tokens. */
  ghost predicate Filled<V>(key: Model<V>, store: Store<V>, r: Req, n: nat) {
    && n <= |Tokens(r)| && r.id in store
    && forall pos: nat :: pos < n ==> pos in store[r.id] && store[r.id][pos] == ValueAt(key, r, pos)
  }

  ghost predicate AllButLast<V>(key: Model<V>, store: Store<V>, r: Req) {
    |Tokens(r)| >= 1 && Filled(key, store, r, |Tokens(r)| - 1)
  }

  ghost predicate Full1<V>(key: Model<V>, store: Store<V>, r: Req) { Filled(key, store, r, |Tokens(r)|) }

  // ---------------------------------------------------------------- what the engines do to a cache

  function ApplyOps<V>(bs: nat, kv: K.Kv<V>, ops: seq<K.Op<V>>): Result<K.Kv<V>>
    requires bs >= 1
    decreases |ops|
  {
    if ops == [] then Ok(kv)
    else
      var kv1 :- K.Apply(bs, kv, ops[0]);
      ApplyOps(bs, kv1, ops[1..])
  }

  function AllocOps<V>(rs: seq<Req>): seq<K.Op<V>> {
    if rs == [] then [] else [K.Manage(Alloc(rs[0]))] + AllocOps(rs[1..])
  }

  function FreeOps<V>(rs: seq<Req>): seq<K.Op<V>> {
    if rs == [] then [] else [K.Manage(Free(rs[0].id))] + FreeOps(rs[1..])
  }

  function WritesFrom<V>(key: Model<V>, r: Req, pos: nat, n: nat): seq<K.Op<V>>
    requires pos + n <= |Tokens(r)|
    decreases n
  {
    if n == 0 then [] else [K.Write(r.id, pos, ValueAt(key, r, pos))] + WritesFrom(key, r, pos + 1, n - 1)
  }

  /** The slots a forward pass fills for one request: from its first new token on. */
  function WritesOf<V>(key: Model<V>, r: Req): seq<K.Op<V>> {
    if r.output == [] then WritesFrom(key, r, 0, |Tokens(r)|)
    else WritesFrom(key, r, |Tokens(r)| - 1, 1)
  }

  function BatchWrites<V>(key: Model<V>, rs: seq<Req>): seq<K.Op<V>> {
    if rs == [] then [] else WritesOf(key, rs[0]) + BatchWrites(key, rs[1..])
  }

  /** The swaps of get_next_batch, in order. */
  function SwapOutOps<V>(c: Config, s: Sched): seq<K.Op<V>>
    requires Running(c, s)
    decreases |Current(c, s)|
  {
    if !Overflow(c, s) || SwapOutLast(c, s).Err? then []
    else [K.Manage(Swap([Current(c, s)[|Current(c, s)| - 1].id], false))] + SwapOutOps(c, SwapOutLast(c, s).value)
  }

  function AdmitOps<V>(c: Config, s: Sched): seq<K.Op<V>>
    requires Running(c, s)
    decreases |s.swapped| + |s.waiting|
  {
    if s.swapped != [] then
      if CheckAdd(c, s, s.swapped[0]) && SwapInHead(c, s).Ok?
      then [K.Manage(Swap([s.swapped[0].id], true))] + AdmitOps(c, SwapInHead(c, s).value)
      else []
    else if s.waiting != [] && CheckAdd(c, s, s.waiting[0]) && AdmitHead(c, s).Ok? then
      AdmitOps(c, AdmitHead(c, s).value)
    else []
  }

  // ---------------------------------------------------------------- lists of operations

  lemma {:induction false} ApplyAppend<V>(bs: nat, kv: K.Kv<V>, a: seq<K.Op<V>>, b: seq<K.Op<V>>)
    requires bs >= 1 && ApplyOps(bs, kv, a).Ok?
    ensures ApplyOps(bs, kv, a + b) == ApplyOps(bs, ApplyOps(bs, kv, a).value, b)
    decreases |a|
  {
    if a == [] {
      assert a + b == b;
    } else {
      assert (a + b)[0] == a[0] && (a + b)[1..] == a[1..] + b;
      var kv1 := K.Apply(bs, kv, a[0]).value;
      ApplyAppend(bs, kv1, a[1..], b);
    }
  }

  lemma ApplyCons<V>(bs: nat, kv: K.Kv<V>, op: K.Op<V>, rest: seq<K.Op<V>>)
    requires bs >= 1 && K.Apply(bs, kv, op).Ok?
    ensures ApplyOps(bs, kv, [op] + rest) == ApplyOps(bs, K.Apply(bs, kv, op).value, rest)
  {
    assert ([op] + rest)[1..] == rest;
  }

  lemma {:induction false} OpsRefine<V>(bs: nat, kv: K.Kv<V>, ops: seq<K.Op<V>>, maxGpu: nat, maxCpu: nat)
    requires bs >= 1 && K.KvInv(bs, kv, maxGpu, maxCpu) && ApplyOps(bs, kv, ops).Ok?
    ensures K.KvInv(bs, ApplyOps(bs, kv, ops).value, maxGpu, maxCpu)
    decreases |ops|
  {
    if ops != [] {
      K.ApplyRefines(bs, kv, ops[0], maxGpu, maxCpu);
      OpsRefine(bs, K.Apply(bs, kv, ops[0]).value, ops[1..], maxGpu, maxCpu);
    }
  }

  /** Everybody's contents are kept. */
  ghost predicate Keeps1<V>(a: Store<V>, b: Store<V>) { forall id :: id in a ==> id in b && b[id] == a[id] }

  lemma SwapKeeps<V>(bs: nat, kv: K.Kv<V>, id: int, isSwapIn: bool)
    requires bs >= 1 && SwapRequests(kv.bm, [id], isSwapIn).Ok?
    ensures K.Apply(bs, kv, K.Manage(Swap([id], isSwapIn))).Ok?
    ensures var kv1 := K.Apply(bs, kv, K.Manage(Swap([id], isSwapIn))).value;
            kv1.bm == SwapRequests(kv.bm, [id], isSwapIn).value && kv1.store == kv.store
  {
  }

  lemma {:induction false} SwapOutSync<V>(c: Config, s: Sched, kv: K.Kv<V>)
    requires Running(c, s) && SwapOutLoop(c, s).Ok? && kv.bm == s.bm
    ensures ApplyOps(c.blockSize, kv, SwapOutOps(c, s)).Ok?
    ensures var kv1 := ApplyOps(c.blockSize, kv, SwapOutOps(c, s)).value;
            kv1.bm == SwapOutLoop(c, s).value.bm && kv1.store == kv.store
    decreases |Current(c, s)|
  {
    if Overflow(c, s) {
      var s1 := SwapOutLast(c, s).value;
      var id := Current(c, s)[|Current(c, s)| - 1].id;
      SwapKeeps(c.blockSize, kv, id, false);
      var kv1 := K.Apply(c.blockSize, kv, K.Manage(Swap([id], false))).value;
      SwapOutSync(c, s1, kv1);
      ApplyCons(c.blockSize, kv, K.Manage(Swap([id], false)), SwapOutOps(c, s1));
    }
  }

  lemma {:induction false} AdmitSync<V>(c: Config, s: Sched, kv: K.Kv<V>)
    requires Running(c, s) && AdmitLoop(c, s).Ok? && kv.bm == s.bm
    ensures ApplyOps(c.blockSize, kv, AdmitOps(c, s)).Ok?
    ensures var kv1 := ApplyOps(c.blockSize, kv, AdmitOps(c, s)).value;
            kv1.bm == AdmitLoop(c, s).value.bm && kv1.store == kv.store
    decreases |s.swapped| + |s.waiting|
  {
    if s.swapped != [] {
      if CheckAdd(c, s, s.swapped[0]) {
        var s1 := SwapInHead(c, s).value;
        SwapKeeps(c.blockSize, kv, s.swapped[0].id, true);
        var kv1 := K.Apply(c.blockSize, kv, K.Manage(Swap([s.swapped[0].id], true))).value;
        AdmitSync(c, s1, kv1);
        ApplyCons(c.blockSize, kv, K.Manage(Swap([s.swapped[0].id], true)), AdmitOps(c, s1));
      }
    } else if s.waiting != [] && CheckAdd(c, s, s.waiting[0]) {
      AdmitSync(c, AdmitHead(c, s).value, kv);
    }
  }

  lemma {:induction false} AllocSync<V>(bs: nat, kv: K.Kv<V>, rs: seq<Req>)
    requires bs >= 1 && AllocateBatched(bs, kv.bm, rs).Ok?
    ensures ApplyOps(bs, kv, AllocOps(rs)).Ok?
    ensures var kv1 := ApplyOps(bs, kv, AllocOps(rs)).value;
            && kv1.bm == AllocateBatched(bs, kv.bm, rs).value
            && Keeps1(kv.store, kv1.store) && forall r :: r in rs ==> r.id in kv1.store
    decreases |rs|
  {
    if rs != [] {
      var kv1 := K.Apply(bs, kv, K.Manage(Alloc(rs[0]))).value;
      AllocSync(bs, kv1, rs[1..]);
      ApplyCons(bs, kv, K.Manage(Alloc(rs[0])), AllocOps<V>(rs[1..]));
    }
  }

  lemma {:induction false} FreeSync<V>(bs: nat, kv: K.Kv<V>, rs: seq<Req>)
    requires bs >= 1 && FreeBatched(kv.bm, rs).Ok?
    ensures ApplyOps(bs, kv, FreeOps(rs)).Ok?
    ensures var kv1 := ApplyOps(bs, kv, FreeOps(rs)).value;
            && kv1.bm == FreeBatched(kv.bm, rs).value
            && forall id :: id in kv.store && (forall r :: r in rs ==> r.id != id) ==>
                 id in kv1.store && kv1.store[id] == kv.store[id]
    decreases |rs|
  {
    if rs != [] {
      var kv1 := K.Apply(bs, kv, K.Manage(Free(rs[0].id))).value;
      FreeSync(bs, kv1, rs[1..]);
      ApplyCons(bs, kv, K.Manage(Free(rs[0].id)), FreeOps<V>(rs[1..]));
    }
  }

  /** The last loop of a context step frees the finished requests, in order. */
  lemma {:induction false} DispatchFrees(bm: BlockState, rs: seq<Req>)
    requires Dispatch(bm, rs).Ok?
    ensures FreeBatched(bm, Finished(rs)) == Ok(Dispatch(bm, rs).value.0)
    decreases |rs|
  {
    if rs != [] {
      SplitHead(rs);
      if rs[0].finished {
        var bm1 := FreeBlocks(bm, rs[0].id).value;
        DispatchFrees(bm1, rs[1..]);
        assert ([rs[0]] + Finished(rs[1..]))[1..] == Finished(rs[1..]);
      } else {
        DispatchFrees(bm, rs[1..]);
        assert [] + Finished(rs[1..]) == Finished(rs[1..]);
      }
    }
  }

  // ---------------------------------------------------------------- the writes of a forward pass

  ghost predicate RoomFor(bs: nat, bm: BlockState, r: Req, n: nat) {
    bm.OnGpu(r.id) && n <= |bm.table[r.id]| * bs
  }

  /** Only this request's contents change. */
  ghost predicate OnlyOf<V>(a: Store<V>, b: Store<V>, ids: set<int>) {
    forall id :: id !in ids && id in a ==> id in b && b[id] == a[id]
  }

  lemma OneWrite<V>(bs: nat, kv: K.Kv<V>, key: Model<V>, r: Req, pos: nat)
    requires bs >= 1 && pos < |Tokens(r)| && RoomFor(bs, kv.bm, r, pos + 1) && Filled(key, kv.store, r, pos)
    ensures K.Apply(bs, kv, K.Write(r.id, pos, ValueAt(key, r, pos))).Ok?
    ensures var kv1 := K.Apply(bs, kv, K.Write(r.id, pos, ValueAt(key, r, pos))).value;
            kv1.bm == kv.bm && Filled(key, kv1.store, r, pos + 1) && OnlyOf(kv.store, kv1.store, {r.id})
  {
    QuotientBelow(pos, bs, |kv.bm.table[r.id]|);
  }

  lemma {:induction false} WritesFromSync<V>(bs: nat, kv: K.Kv<V>, key: Model<V>, r: Req, pos: nat, n: nat)
    requires bs >= 1 && pos + n <= |Tokens(r)| && RoomFor(bs, kv.bm, r, pos + n) && Filled(key, kv.store, r, pos)
    ensures ApplyOps(bs, kv, WritesFrom(key, r, pos, n)).Ok?
    ensures var kv1 := ApplyOps(bs, kv, WritesFrom(key, r, pos, n)).value;
            kv1.bm == kv.bm && Filled(key, kv1.store, r, pos + n) && OnlyOf(kv.store, kv1.store, {r.id})
    decreases n
  {
    if n > 0 {
      OneWrite(bs, kv, key, r, pos);
      var op := K.Write(r.id, pos, ValueAt(key, r, pos));
      var kv1 := K.Apply(bs, kv, op).value;
      WritesFromSync(bs, kv1, key, r, pos + 1, n - 1);
      ApplyCons(bs, kv, op, WritesFrom(key, r, pos + 1, n - 1));
    }
  }

  /** What a request needs before its forward pass: everything but the tokens about to be run. */
  ghost predicate Ready<V>(key: Model<V>, store: Store<V>, r: Req) {
    if r.output == [] then Filled(key, store, r, 0) else AllButLast(key, store, r)
  }

  lemma WritesOfSync<V>(bs: nat, kv: K.Kv<V>, key: Model<V>, r: Req)
    requires bs >= 1 && RoomFor(bs, kv.bm, r, |Tokens(r)|) && Ready(key, kv.store, r)
    ensures ApplyOps(bs, kv, WritesOf(key, r)).Ok?
    ensures var kv1 := ApplyOps(bs, kv, WritesOf(key, r)).value;
            kv1.bm == kv.bm && Full1(key, kv1.store, r) && OnlyOf(kv.store, kv1.store, {r.id})
  {
    if r.output == [] {
      WritesFromSync(bs, kv, key, r, 0, |Tokens(r)|);
    } else {
      WritesFromSync(bs, kv, key, r, |Tokens(r)| - 1, 1);
    }
  }

  ghost predicate IdsDiffer(rs: seq<Req>) { forall i, j :: 0 <= i < j < |rs| ==> rs[i].id != rs[j].id }

  ghost function IdsOf(rs: seq<Req>): set<int> { set r | r in rs :: r.id }

  lemma FilledElsewhere<V>(key: Model<V>, a: Store<V>, b: Store<V>, ids: set<int>, r: Req, n: nat)
    requires OnlyOf(a, b, ids) && r.id !in ids && Filled(key, a, r, n)
    ensures Filled(key, b, r, n)
  {
  }

  lemma {:induction false} BatchWritesSync<V>(bs: nat, kv: K.Kv<V>, key: Model<V>, rs: seq<Req>)
    requires bs >= 1 && IdsDiffer(rs)
    requires forall r :: r in rs ==> RoomFor(bs, kv.bm, r, |Tokens(r)|) && Ready(key, kv.store, r)
    ensures ApplyOps(bs, kv, BatchWrites(key, rs)).Ok?
    ensures var kv1 := ApplyOps(bs, kv, BatchWrites(key, rs)).value;
            && kv1.bm == kv.bm && OnlyOf(kv.store, kv1.store, IdsOf(rs))
            && forall r :: r in rs ==> Full1(key, kv1.store, r)
    decreases |rs|
  {
    if rs != [] {
      var r, rest := rs[0], rs[1..];
      assert r in rs;
      WritesOfSync(bs, kv, key, r);
      var kv1 := ApplyOps(bs, kv, WritesOf(key, r)).value;
      forall q | q in rest ensures RoomFor(bs, kv1.bm, q, |Tokens(q)|) && Ready(key, kv1.store, q) && q.id != r.id {
        RestReady(key, kv.store, kv1.store, rs, q);
      }
      BatchWritesSync(bs, kv1, key, rest);
      ApplyAppend(bs, kv, WritesOf(key, r), BatchWrites(key, rest));
      var kv2 := ApplyOps(bs, kv1, BatchWrites(key, rest)).value;
      assert r.id !in IdsOf(rest);
      FilledElsewhere(key, kv1.store, kv2.store, IdsOf(rest), r, |Tokens(r)|);
      OnlyOfBoth(kv.store, kv1.store, kv2.store, rs);
    }
  }

  lemma RestReady<V>(key: Model<V>, a: Store<V>, b: Store<V>, rs: seq<Req>, q: Req)
    requires rs != [] && IdsDiffer(rs) && q in rs[1..] && OnlyOf(a, b, {rs[0].id}) && Ready(key, a, q)
    ensures q.id != rs[0].id && Ready(key, b, q)
  {
    var i :| 0 <= i < |rs[1..]| && rs[1..][i] == q;
    assert rs[i + 1] == q;
    FilledElsewhere(key, a, b, {rs[0].id}, q, if q.output == [] then 0 else |Tokens(q)| - 1);
  }

  lemma OnlyOfBoth<V>(a: Store<V>, b: Store<V>, d: Store<V>, rs: seq<Req>)
    requires rs != [] && OnlyOf(a, b, {rs[0].id}) && OnlyOf(b, d, IdsOf(rs[1..]))
    ensures OnlyOf(a, d, IdsOf(rs))
  {
    forall id | id !in IdsOf(rs) && id in a ensures id in d && d[id] == a[id] {
      assert rs[0] in rs;
      assert id != rs[0].id;
      assert id !in IdsOf(rs[1..]);
    }
  }

  /** One more token leaves the earlier positions as they are. */
  lemma FilledGrows<V>(key: Model<V>, store: Store<V>, r: Req, r2: Req, t: Token)
    requires Extended(r, r2, t) && Full1(key, store, r)
    ensures AllButLast(key, store, r2) && r2.id == r.id && |Tokens(r2)| == |Tokens(r)| + 1
  {
    assert Tokens(r2) == Tokens(r) + [t.id];
    forall pos: nat | pos < |Tokens(r)| ensures ValueAt(key, r2, pos) == ValueAt(key, r, pos) {
      assert Tokens(r2)[..pos + 1] == Tokens(r)[..pos + 1];
    }
  }
}
