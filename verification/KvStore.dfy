/** What the paged cache is for: every live request reads back what was written for it, whatever
    the blocks went through. A copy takes effect when it is issued. */
module KvStore {
  import opened Common
  import opened Requests
  import opened Blocks

  /** The cells of one device: (block, offset) to contents. */
  type Mem<!V> = (nat, nat) -> V

  function CopyBlock<V>(from: Mem<V>, to: Mem<V>, src: nat, dst: nat): Mem<V> {
    (b: nat, o: nat) => if b == dst then from(src, o) else to(b, o)
  }

  /** swap_blocks and migrate_blocks: source[i] to target[i], in order. */
  function CopyBlocks<V>(from: Mem<V>, to: Mem<V>, source: seq<nat>, target: seq<nat>): Mem<V>
    decreases |source|
  {
    if source == [] || target == [] then to
    else CopyBlocks(from, CopyBlock(from, to, source[0], target[0]), source[1..], target[1..])
  }

  ghost predicate Distinct(s: seq<nat>) { forall i, j :: 0 <= i < j < |s| ==> s[i] != s[j] }

  lemma {:induction false} CopyBlocksOther<V>(from: Mem<V>, to: Mem<V>, source: seq<nat>, target: seq<nat>,
                                              b: nat, o: nat)
    requires b !in target
    ensures CopyBlocks(from, to, source, target)(b, o) == to(b, o)
    decreases |source|
  {
    if source != [] && target != [] {
      CopyBlocksOther(from, CopyBlock(from, to, source[0], target[0]), source[1..], target[1..], b, o);
    }
  }

  lemma {:induction false} CopyBlocksAt<V>(from: Mem<V>, to: Mem<V>, source: seq<nat>, target: seq<nat>, k: nat, o: nat)
    requires |source| == |target| && k < |target| && Distinct(target)
    ensures CopyBlocks(from, to, source, target)(target[k], o) == from(source[k], o)
    decreases |source|
  {
    var to1 := CopyBlock(from, to, source[0], target[0]);
    if k == 0 {
      CopyBlocksOther(from, to1, source[1..], target[1..], target[0], o);
    } else {
      CopyBlocksAt(from, to1, source[1..], target[1..], k - 1, o);
    }
  }

  lemma {:induction false} CopyBlocksAppend<V>(from: Mem<V>, to: Mem<V>, a: seq<nat>, b: seq<nat>,
                                               s: seq<nat>, t: seq<nat>)
    requires |a| == |b|
    ensures CopyBlocks(from, to, a + s, b + t) == CopyBlocks(from, CopyBlocks(from, to, a, b), s, t)
    decreases |a|
  {
    if a == [] {
      assert a + s == s && b + t == t;
    } else {
      CopyBlocksAppend(from, CopyBlock(from, to, a[0], b[0]), a[1..], b[1..], s, t);
      assert (a + s)[1..] == a[1..] + s && (b + t)[1..] == b[1..] + t;
    }
  }

  /** One engine's cache, and the plain per-request store it stands for. */
  datatype Kv<!V> = Kv(bm: BlockState, gpu: Mem<V>, cpu: Mem<V>, store: map<int, map<nat, V>>) {
    function MemAt(loc: Location): Mem<V> { if loc.GPU? then gpu else cpu }
  }

  /** Position pos of a request, through its block table. */
  function Read<V>(bs: nat, kv: Kv<V>, id: int, pos: nat): V
    requires bs >= 1 && id in kv.bm.table && id in kv.bm.location && pos / bs < |kv.bm.table[id]|
  {
    kv.MemAt(kv.bm.location[id])(kv.bm.table[id][pos / bs], pos % bs)
  }

  ghost predicate ReadsBack<V>(bs: nat, kv: Kv<V>, id: int, pos: nat)
    requires bs >= 1 && id in kv.store && pos in kv.store[id]
  {
    && id in kv.bm.table && id in kv.bm.location && pos / bs < |kv.bm.table[id]|
    && Read(bs, kv, id, pos) == kv.store[id][pos]
  }

  /** The paged cache agrees with the plain store at every position ever written. */
  ghost predicate Refines<V>(bs: nat, kv: Kv<V>)
    requires bs >= 1
  {
    forall id, pos :: id in kv.store && pos in kv.store[id] ==> ReadsBack(bs, kv, id, pos)
  }

  ghost predicate KvInv<V>(bs: nat, kv: Kv<V>, maxGpu: nat, maxCpu: nat)
    requires bs >= 1
  {
    Partitioned(kv.bm, maxGpu, maxCpu) && Refines(bs, kv)
  }

  function InitKv<V>(gpu: Mem<V>, cpu: Mem<V>, maxGpu: nat, maxCpu: nat): Kv<V> {
    Kv(InitState(maxGpu, maxCpu), gpu, cpu, map[])
  }

  // ---------------------------------------------------------------- operations

  datatype Op<V> =
    | Manage(op: ManagerOp)
    | Write(id: int, pos: nat, val: V)  // a forward pass filling one slot

  function StoreOf<V>(kv: Kv<V>, id: int): map<nat, V> {
    if id in kv.store then kv.store[id] else map[]
  }

  function WriteCell<V>(m: Mem<V>, block: nat, off: nat, v: V): Mem<V> {
    (b: nat, o: nat) => if b == block && o == off then v else m(b, o)
  }

  function SwapMem<V>(kv: Kv<V>, source: seq<nat>, target: seq<nat>, isSwapIn: bool): Kv<V> {
    if isSwapIn then kv.(gpu := CopyBlocks(kv.cpu, kv.gpu, source, target))
    else kv.(cpu := CopyBlocks(kv.gpu, kv.cpu, source, target))
  }

  /** The contents after an operation that left the manager in state bm: a swap is the copy it issued. */
  function Follow<V>(bs: nat, kv: Kv<V>, op: ManagerOp, bm: BlockState): Kv<V>
    requires bs >= 1 && ApplyOp(bs, kv.bm, op) == Ok(bm)
  {
    match op
    case Alloc(r) => kv.(bm := bm, store := kv.store[r.id := StoreOf(kv, r.id)])
    case Free(id) => kv.(bm := bm, store := kv.store - {id})
    case Swap(ids, isSwapIn) =>
      var call := bm.calls[|bm.calls| - 1];
      SwapMem(kv, call.source, call.target, isSwapIn).(bm := bm)
  }

  function Apply<V>(bs: nat, kv: Kv<V>, op: Op<V>): Result<Kv<V>>
    requires bs >= 1
  {
    match op
    case Manage(o) =>
      var bm :- ApplyOp(bs, kv.bm, o);
      Ok(Follow(bs, kv, o, bm))
    case Write(id, pos, v) =>
      if !kv.bm.OnGpu(id) || pos / bs >= |kv.bm.table[id]| then Err(NotAllocated)
      else Ok(kv.(gpu := WriteCell(kv.gpu, kv.bm.table[id][pos / bs], pos % bs, v),
                  store := kv.store[id := StoreOf(kv, id)[pos := v]]))
  }

  /** Both engines: the context side (false) and the decoding side (true). */
  datatype Pair<!V> = Pair(ctx: Kv<V>, dec: Kv<V>)

  datatype PairOp<V> =
    | OnContext(op: Op<V>)
    | OnDecoding(op: Op<V>)
    | Migrate(id: int)  // the copy of _migrate_blocks, both sides holding as many blocks

  function MigrateKv<V>(p: Pair<V>, id: int): Result<Pair<V>> {
    if !p.ctx.bm.OnGpu(id) || !p.dec.bm.OnGpu(id) then Err(NotAllocated)
    else if |p.ctx.bm.table[id]| != |p.dec.bm.table[id]| then Err(MigrationSizeMismatch)
    else Ok(p.(dec := p.dec.(gpu := CopyBlocks(p.ctx.gpu, p.dec.gpu, p.ctx.bm.table[id], p.dec.bm.table[id]),
                             store := p.dec.store[id := StoreOf(p.ctx, id)])))
  }

  function ApplyPair<V>(bs: nat, p: Pair<V>, op: PairOp<V>): Result<Pair<V>>
    requires bs >= 1
  {
    match op
    case OnContext(o) =>
      var kv :- Apply(bs, p.ctx, o);
      Ok(p.(ctx := kv))
    case OnDecoding(o) =>
      var kv :- Apply(bs, p.dec, o);
      Ok(p.(dec := kv))
    case Migrate(id) => MigrateKv(p, id)
  }

  function ApplyAll<V>(bs: nat, p: Pair<V>, ops: seq<PairOp<V>>): Result<Pair<V>>
    requires bs >= 1
    decreases |ops|
  {
    if ops == [] then Ok(p)
    else
      var p1 :- ApplyPair(bs, p, ops[0]);
      ApplyAll(bs, p1, ops[1..])
  }

  // ---------------------------------------------------------------- tables do not overlap

  lemma OnceMeansDistinct(s: seq<nat>)
    requires forall b :: b in s ==> multiset(s)[b] == 1
    ensures Distinct(s)
  {
    forall i, j | 0 <= i < j < |s| ensures s[i] != s[j] {
      assert s == s[..i] + [s[i]] + s[i + 1..];
      assert multiset(s)[s[i]] == multiset(s[..i])[s[i]] + 1 + multiset(s[i + 1..])[s[i]];
      assert s[j] in multiset(s[i + 1..]) by {
        assert s[i + 1..][j - i - 1] == s[j];
      }
    }
  }

  lemma TableDistinct(bm: BlockState, loc: Location, max: nat, id: int)
    requires PoolOk(bm, loc, max) && bm.At(id, loc)
    ensures Distinct(bm.table[id])
  {
    forall b | b in bm.table[id] ensures multiset(bm.table[id])[b] == 1 {
      PartitionSeparates(bm, loc, max, id, b);
    }
    OnceMeansDistinct(bm.table[id]);
  }

  // ---------------------------------------------------------------- one operation at a time

  lemma AllocRefines<V>(bs: nat, kv: Kv<V>, r: Req, maxGpu: nat, maxCpu: nat)
    requires bs >= 1 && KvInv(bs, kv, maxGpu, maxCpu) && Apply(bs, kv, Manage(Alloc(r))).Ok?
    ensures KvInv(bs, Apply(bs, kv, Manage(Alloc(r))).value, maxGpu, maxCpu)
  {
    AllocatePartitioned(bs, kv.bm, r, maxGpu, maxCpu);
    var taken := AllocateExtends(bs, kv.bm, r);
    var kv1 := Apply(bs, kv, Manage(Alloc(r))).value;
    forall id, pos | id in kv1.store && pos in kv1.store[id] ensures ReadsBack(bs, kv1, id, pos) {
      assert id in kv.store && pos in kv.store[id];
      assert ReadsBack(bs, kv, id, pos);
    }
  }

  lemma FreeRefines<V>(bs: nat, kv: Kv<V>, gone: int, maxGpu: nat, maxCpu: nat)
    requires bs >= 1 && KvInv(bs, kv, maxGpu, maxCpu) && Apply(bs, kv, Manage(Free(gone))).Ok?
    ensures KvInv(bs, Apply(bs, kv, Manage(Free(gone))).value, maxGpu, maxCpu)
  {
    FreePartitioned(kv.bm, gone, maxGpu, maxCpu);
    var kv1 := Apply(bs, kv, Manage(Free(gone))).value;
    forall id, pos | id in kv1.store && pos in kv1.store[id] ensures ReadsBack(bs, kv1, id, pos) {
      assert ReadsBack(bs, kv, id, pos);
    }
  }

  lemma SameSlot(bs: nat, p: nat, q: nat)
    requires bs >= 1 && p / bs == q / bs && p % bs == q % bs
    ensures p == q
  {
    assert p == p / bs * bs + p % bs;
    assert q == q / bs * bs + q % bs;
  }

  /** Different positions live in different cells. */
  lemma CellsApart(bs: nat, bm: BlockState, maxGpu: nat, id: int, pos: nat, id2: int, pos2: nat)
    requires bs >= 1 && PoolOk(bm, GPU, maxGpu) && bm.OnGpu(id) && bm.OnGpu(id2)
    requires pos / bs < |bm.table[id]| && pos2 / bs < |bm.table[id2]|
    requires id != id2 || pos != pos2
    ensures bm.table[id][pos / bs] != bm.table[id2][pos2 / bs] || pos % bs != pos2 % bs
  {
    if id != id2 {
      PartitionSeparates(bm, GPU, maxGpu, id, bm.table[id][pos / bs]);
    } else {
      TableDistinct(bm, GPU, maxGpu, id);
      if pos / bs == pos2 / bs && pos % bs == pos2 % bs {
        SameSlot(bs, pos, pos2);
      }
    }
  }

  lemma WriteRefines<V>(bs: nat, kv: Kv<V>, wid: int, wpos: nat, v: V, maxGpu: nat, maxCpu: nat)
    requires bs >= 1 && KvInv(bs, kv, maxGpu, maxCpu) && Apply(bs, kv, Write(wid, wpos, v)).Ok?
    ensures KvInv(bs, Apply(bs, kv, Write(wid, wpos, v)).value, maxGpu, maxCpu)
  {
    var kv1 := Apply(bs, kv, Write(wid, wpos, v)).value;
    forall id, pos | id in kv1.store && pos in kv1.store[id] ensures ReadsBack(bs, kv1, id, pos) {
      if id != wid || pos != wpos {
        assert id in kv.store && pos in kv.store[id];
        assert ReadsBack(bs, kv, id, pos);
        if kv.bm.OnGpu(id) {
          CellsApart(bs, kv.bm, maxGpu, wid, wpos, id, pos);
        }
      }
    }
  }

  /** The copy of one request's blocks, as if issued right away. */
  function SwapOneKv<V>(kv: Kv<V>, id: int, isSwapIn: bool): Kv<V>
    requires SwapOne(kv.bm, id, isSwapIn).Ok?
  {
    var (bm, blocks) := SwapOne(kv.bm, id, isSwapIn).value;
    SwapMem(kv, kv.bm.table[id], blocks, isSwapIn).(bm := bm)
  }

  lemma SwapOneRefines<V>(bs: nat, kv: Kv<V>, sid: int, isSwapIn: bool, maxGpu: nat, maxCpu: nat)
    requires bs >= 1 && KvInv(bs, kv, maxGpu, maxCpu) && SwapOne(kv.bm, sid, isSwapIn).Ok?
    ensures KvInv(bs, SwapOneKv(kv, sid, isSwapIn), maxGpu, maxCpu)
  {
    SwapOnePartitioned(kv.bm, sid, isSwapIn, maxGpu, maxCpu);
    var (bm, blocks) := SwapOne(kv.bm, sid, isSwapIn).value;
    GetFreeBlocksSpec(kv.bm, |kv.bm.table[sid]|, Target(isSwapIn));
    var kv1 := SwapOneKv(kv, sid, isSwapIn);
    var dst, max := Target(isSwapIn), MaxAt(Target(isSwapIn), maxGpu, maxCpu);
    TableDistinct(bm, dst, max, sid);
    forall id, pos | id in kv1.store && pos in kv1.store[id] ensures ReadsBack(bs, kv1, id, pos) {
      assert ReadsBack(bs, kv, id, pos);
      SwapOneReads(bs, kv, sid, isSwapIn, maxGpu, maxCpu, id, pos);
    }
  }

  /** A position reads the same before and after the copy. */
  lemma SwapOneReads<V>(bs: nat, kv: Kv<V>, sid: int, isSwapIn: bool, maxGpu: nat, maxCpu: nat, id: int, pos: nat)
    requires bs >= 1 && SwapOne(kv.bm, sid, isSwapIn).Ok?
    requires Partitioned(SwapOneKv(kv, sid, isSwapIn).bm, maxGpu, maxCpu)
    requires id in kv.bm.table && id in kv.bm.location && pos / bs < |kv.bm.table[id]|
    ensures var kv1 := SwapOneKv(kv, sid, isSwapIn);
            && id in kv1.bm.table && id in kv1.bm.location && pos / bs < |kv1.bm.table[id]|
            && Read(bs, kv1, id, pos) == Read(bs, kv, id, pos)
  {
    var src, dst := Source(isSwapIn), Target(isSwapIn);
    var max := MaxAt(dst, maxGpu, maxCpu);
    var (bm, blocks) := SwapOne(kv.bm, sid, isSwapIn).value;
    GetFreeBlocksSpec(kv.bm, |kv.bm.table[sid]|, dst);
    if id == sid {
      TableDistinct(bm, dst, max, sid);
      CopyBlocksAt(kv.MemAt(src), kv.MemAt(dst), kv.bm.table[sid], blocks, pos / bs, pos % bs);
    } else if kv.bm.location[id] == dst {
      var b := kv.bm.table[id][pos / bs];
      PartitionSeparates(bm, dst, max, id, b);
      assert b !in blocks;
      CopyBlocksOther(kv.MemAt(src), kv.MemAt(dst), kv.bm.table[sid], blocks, b, pos % bs);
    }
  }

  /** Requests copied one by one as they are moved, ids in order. */
  function SwapEach<V>(kv: Kv<V>, ids: seq<int>, isSwapIn: bool): Result<Kv<V>>
    decreases |ids|
  {
    if ids == [] then Ok(kv)
    else
      var one :- SwapOne(kv.bm, ids[0], isSwapIn);
      SwapEach(SwapOneKv(kv, ids[0], isSwapIn), ids[1..], isSwapIn)
  }

  lemma {:induction false} SwapEachRefines<V>(bs: nat, kv: Kv<V>, ids: seq<int>, isSwapIn: bool,
                                              maxGpu: nat, maxCpu: nat)
    requires bs >= 1 && KvInv(bs, kv, maxGpu, maxCpu) && SwapEach(kv, ids, isSwapIn).Ok?
    ensures KvInv(bs, SwapEach(kv, ids, isSwapIn).value, maxGpu, maxCpu)
    decreases |ids|
  {
    if ids != [] {
      SwapOneRefines(bs, kv, ids[0], isSwapIn, maxGpu, maxCpu);
      SwapEachRefines(bs, SwapOneKv(kv, ids[0], isSwapIn), ids[1..], isSwapIn, maxGpu, maxCpu);
    }
  }

  /** One batched copy at the end does the same as copying request by request, because a batch
      reads one device and writes the other. */
  lemma {:induction false} BatchedIsEach<V>(kv: Kv<V>, bm: BlockState, ids: seq<int>, isSwapIn: bool,
                                            source: seq<nat>, target: seq<nat>)
    requires SwapLoop(bm, ids, isSwapIn, source, target).Ok? && |source| == |target|
    ensures var r := SwapLoop(bm, ids, isSwapIn, source, target).value;
            && |r.source| == |r.target|
            && SwapEach(SwapMem(kv, source, target, isSwapIn).(bm := bm), ids, isSwapIn)
            == Ok(SwapMem(kv, r.source, r.target, isSwapIn).(bm := r.state))
    decreases |ids|
  {
    if ids != [] {
      var id := ids[0];
      var (bm1, blocks) := SwapOne(bm, id, isSwapIn).value;
      GetFreeBlocksSpec(bm, |bm.table[id]|, Target(isSwapIn));
      var kv1 := SwapMem(kv, source, target, isSwapIn).(bm := bm);
      var src, dst := Source(isSwapIn), Target(isSwapIn);
      CopyBlocksAppend(kv.MemAt(src), kv.MemAt(dst), source, target, bm.table[id], blocks);
      assert SwapOneKv(kv1, id, isSwapIn)
          == SwapMem(kv, source + bm.table[id], target + blocks, isSwapIn).(bm := bm1);
      BatchedIsEach(kv, bm1, ids[1..], isSwapIn, source + bm.table[id], target + blocks);
    }
  }

  /** What a batched swap does to the cache, with the blocks its loop gathered. */
  lemma SwapFollows<V>(bs: nat, kv: Kv<V>, ids: seq<int>, isSwapIn: bool)
    requires bs >= 1 && SwapRequests(kv.bm, ids, isSwapIn).Ok?
    ensures SwapLoop(kv.bm, ids, isSwapIn, [], []).Ok?
    ensures var r, bm := SwapLoop(kv.bm, ids, isSwapIn, [], []).value, SwapRequests(kv.bm, ids, isSwapIn).value;
            && bm == r.state.(calls := bm.calls)
            && Apply(bs, kv, Manage(Swap(ids, isSwapIn)))
               == Ok(SwapMem(kv, r.source, r.target, isSwapIn).(bm := bm))
  {
  }

  lemma LoopRefines<V>(bs: nat, kv: Kv<V>, ids: seq<int>, isSwapIn: bool, maxGpu: nat, maxCpu: nat)
    requires bs >= 1 && KvInv(bs, kv, maxGpu, maxCpu) && SwapLoop(kv.bm, ids, isSwapIn, [], []).Ok?
    ensures var r := SwapLoop(kv.bm, ids, isSwapIn, [], []).value;
            KvInv(bs, SwapMem(kv, r.source, r.target, isSwapIn).(bm := r.state), maxGpu, maxCpu)
  {
    BatchedIsEach(kv, kv.bm, ids, isSwapIn, [], []);
    assert SwapMem(kv, [], [], isSwapIn).(bm := kv.bm) == kv;
    SwapEachRefines(bs, kv, ids, isSwapIn, maxGpu, maxCpu);
  }

  /** The calls issued so far matter to nobody's contents. */
  lemma CallsIrrelevant<V>(bs: nat, kv: Kv<V>, bm: BlockState, maxGpu: nat, maxCpu: nat)
    requires bs >= 1 && KvInv(bs, kv, maxGpu, maxCpu)
    requires bm == kv.bm.(calls := bm.calls) && Partitioned(bm, maxGpu, maxCpu)
    ensures KvInv(bs, kv.(bm := bm), maxGpu, maxCpu)
  {
    var kv1 := kv.(bm := bm);
    forall id, pos | id in kv1.store && pos in kv1.store[id] ensures ReadsBack(bs, kv1, id, pos) {
      assert ReadsBack(bs, kv, id, pos);
    }
  }

  lemma SwapRefines<V>(bs: nat, kv: Kv<V>, ids: seq<int>, isSwapIn: bool, maxGpu: nat, maxCpu: nat)
    requires bs >= 1 && KvInv(bs, kv, maxGpu, maxCpu) && Apply(bs, kv, Manage(Swap(ids, isSwapIn))).Ok?
    ensures KvInv(bs, Apply(bs, kv, Manage(Swap(ids, isSwapIn))).value, maxGpu, maxCpu)
  {
    SwapFollows(bs, kv, ids, isSwapIn);
    LoopRefines(bs, kv, ids, isSwapIn, maxGpu, maxCpu);
    SwapPartitioned(kv.bm, ids, isSwapIn, maxGpu, maxCpu);
    var r := SwapLoop(kv.bm, ids, isSwapIn, [], []).value;
    var each := SwapMem(kv, r.source, r.target, isSwapIn).(bm := r.state);
    CallsIrrelevant(bs, each, SwapRequests(kv.bm, ids, isSwapIn).value, maxGpu, maxCpu);
  }

  lemma MigrateRefines<V>(bs: nat, p: Pair<V>, mid: int, ctxGpu: nat, ctxCpu: nat, decGpu: nat, decCpu: nat)
    requires bs >= 1 && KvInv(bs, p.ctx, ctxGpu, ctxCpu) && KvInv(bs, p.dec, decGpu, decCpu)
    requires MigrateKv(p, mid).Ok?
    ensures KvInv(bs, MigrateKv(p, mid).value.dec, decGpu, decCpu)
  {
    var source, target := p.ctx.bm.table[mid], p.dec.bm.table[mid];
    var kv1 := MigrateKv(p, mid).value.dec;
    TableDistinct(p.dec.bm, GPU, decGpu, mid);
    forall id, pos | id in kv1.store && pos in kv1.store[id] ensures ReadsBack(bs, kv1, id, pos) {
      if id == mid {
        assert ReadsBack(bs, p.ctx, mid, pos);
        CopyBlocksAt(p.ctx.gpu, p.dec.gpu, source, target, pos / bs, pos % bs);
      } else {
        assert ReadsBack(bs, p.dec, id, pos);
        if p.dec.bm.OnGpu(id) {
          var b := p.dec.bm.table[id][pos / bs];
          PartitionSeparates(p.dec.bm, GPU, decGpu, id, b);
          CopyBlocksOther(p.ctx.gpu, p.dec.gpu, source, target, b, pos % bs);
        }
      }
    }
  }

  // ---------------------------------------------------------------- any run

  lemma ApplyRefines<V>(bs: nat, kv: Kv<V>, op: Op<V>, maxGpu: nat, maxCpu: nat)
    requires bs >= 1 && KvInv(bs, kv, maxGpu, maxCpu) && Apply(bs, kv, op).Ok?
    ensures KvInv(bs, Apply(bs, kv, op).value, maxGpu, maxCpu)
  {
    match op
    case Manage(o) =>
      match o {
        case Alloc(r) => AllocRefines(bs, kv, r, maxGpu, maxCpu);
        case Free(id) => FreeRefines(bs, kv, id, maxGpu, maxCpu);
        case Swap(ids, isSwapIn) => SwapRefines(bs, kv, ids, isSwapIn, maxGpu, maxCpu);
      }
    case Write(id, pos, v) => WriteRefines(bs, kv, id, pos, v, maxGpu, maxCpu);
  }

  lemma {:induction false} ApplyAllRefines<V>(bs: nat, p: Pair<V>, ops: seq<PairOp<V>>,
                                              ctxGpu: nat, ctxCpu: nat, decGpu: nat, decCpu: nat)
    requires bs >= 1 && KvInv(bs, p.ctx, ctxGpu, ctxCpu) && KvInv(bs, p.dec, decGpu, decCpu)
    requires ApplyAll(bs, p, ops).Ok?
    ensures var q := ApplyAll(bs, p, ops).value;
            KvInv(bs, q.ctx, ctxGpu, ctxCpu) && KvInv(bs, q.dec, decGpu, decCpu)
    decreases |ops|
  {
    if ops != [] {
      match ops[0] {
        case OnContext(o) => ApplyRefines(bs, p.ctx, o, ctxGpu, ctxCpu);
        case OnDecoding(o) => ApplyRefines(bs, p.dec, o, decGpu, decCpu);
        case Migrate(id) => MigrateRefines(bs, p, id, ctxGpu, ctxCpu, decGpu, decCpu);
      }
      ApplyAllRefines(bs, ApplyPair(bs, p, ops[0]).value, ops[1..], ctxGpu, ctxCpu, decGpu, decCpu);
    }
  }

  /** Across any interleaving of allocations, frees, batched swaps, writes and migrations, on
      both engines and from any initial memory, reading a live request through its block table
      gives what a plain per-request store would hold. */
  lemma CacheReadsBack<V>(bs: nat, gpu: Mem<V>, cpu: Mem<V>, gpu2: Mem<V>, cpu2: Mem<V>, ops: seq<PairOp<V>>,
                          ctxGpu: nat, ctxCpu: nat, decGpu: nat, decCpu: nat)
    requires bs >= 1
    requires ApplyAll(bs, Pair(InitKv(gpu, cpu, ctxGpu, ctxCpu), InitKv(gpu2, cpu2, decGpu, decCpu)), ops).Ok?
    ensures var p := Pair(InitKv(gpu, cpu, ctxGpu, ctxCpu), InitKv(gpu2, cpu2, decGpu, decCpu));
            var q := ApplyAll(bs, p, ops).value;
            Refines(bs, q.ctx) && Refines(bs, q.dec)
  {
    InitPartitioned(ctxGpu, ctxCpu);
    InitPartitioned(decGpu, decCpu);
    ApplyAllRefines(bs, Pair(InitKv(gpu, cpu, ctxGpu, ctxCpu), InitKv(gpu2, cpu2, decGpu, decCpu)), ops,
                    ctxGpu, ctxCpu, decGpu, decCpu);
  }
}
