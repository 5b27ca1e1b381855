/** Migrate or recompute (distserve/rom_decision.py), over exact reals. */
module CostModel {
  import opened Common

  datatype Policy = Rom | AlwaysMigrate | AlwaysRecompute

  datatype Decision = Migrate | Recompute

  /** A latency in seconds, or math.inf. */
  datatype Cost = Finite(seconds: real) | Infinite {
    /** this <= r for a finite latency r. */
    predicate AtMost(r: real) { Finite? && seconds <= r }

    /** r <= this. */
    predicate AtLeast(r: real) { Infinite? || r <= seconds }
  }

  function Product(factors: seq<int>): int {
    if factors == [] then 1 else factors[0] * Product(factors[1..])
  }

  datatype RomConfig = RomConfig(policy: Policy, numLayers: int, numKvHeads: int, headDim: int,
                                 dtypeBytes: int, table: map<int, real>)
  {
    /** The checks of ROMConfig.validate that matter here. */
    predicate Valid() {
      numLayers > 0 && numKvHeads > 0 && headDim > 0 && dtypeBytes in {1, 2, 4} && |table| > 0
    }

    function BytesPerToken(): int { Product([2, numLayers, numKvHeads, headDim, dtypeBytes]) }
  }

  // ---------------------------------------------------------------- costs

  function KvSizeBytes(promptLen: int, c: RomConfig): int {
    if promptLen <= 0 then 0
    else Product([2, c.numLayers, c.numKvHeads, c.headDim, promptLen, c.dtypeBytes])
  }

  function CostOfMigration(kvSizeBytes: int, bandwidth: real): Cost {
    if bandwidth <= 0.0 || kvSizeBytes < 0 then Infinite
    else if kvSizeBytes == 0 then Finite(0.0)
    else Finite(kvSizeBytes as real / (bandwidth * 1000000.0))
  }

  /** bisect.bisect_right: how many leading keys are at most x. */
  function BisectRight(keys: seq<int>, x: int): (i: nat)
    ensures i <= |keys|
    ensures forall j :: 0 <= j < i ==> keys[j] <= x
    ensures i < |keys| ==> keys[i] > x
  {
    if keys == [] || keys[0] > x then 0 else 1 + BisectRight(keys[1..], x)
  }

  predicate Increasing(keys: seq<int>) { forall i, j :: 0 <= i < j < |keys| ==> keys[i] < keys[j] }

  /** The line through (lo, tLo) and (hi, tHi) at x. */
  function Segment(lo: int, tLo: real, hi: int, tHi: real, x: int): real
    requires lo < hi
  {
    var frac := (x - lo) as real / (hi - lo) as real;
    tLo + frac * (tHi - tLo)
  }

  function Interpolate(keys: seq<int>, values: seq<real>, x: int): real
    requires |keys| == |values| > 0 && Increasing(keys)
  {
    if x <= keys[0] then values[0]
    else if x >= keys[|keys| - 1] then values[|values| - 1]
    else
      var i := BisectRight(keys, x);
      Segment(keys[i - 1], values[i - 1], keys[i], values[i], x)
  }

  ghost predicate IsMin(s: set<int>, m: int) { m in s && forall x :: x in s ==> m <= x }

  lemma {:induction false} MinExists(s: set<int>)
    requires exists a :: a in s
    ensures exists m :: IsMin(s, m)
    decreases |s|
  {
    var a :| a in s;
    var rest := s - {a};
    if exists b :: b in rest {
      MinExists(rest);
      var m :| IsMin(rest, m);
      assert IsMin(s, if a < m then a else m) by {
        assert forall x :: x in s ==> x == a || x in rest;
      }
    } else {
      assert IsMin(s, a) by {
        assert forall x :: x in s ==> x == a || x in rest;
      }
    }
  }

  function Least(s: set<int>): (m: int)
    requires exists a :: a in s
    ensures IsMin(s, m)
  {
    MinExists(s);
    assert exists m :: m in s && forall x :: x in s ==> m <= x by {
      var m :| IsMin(s, m);
      assert m in s && forall x :: x in s ==> m <= x;
    }
    var m :| m in s && forall x :: x in s ==> m <= x;
    m
  }

  /** sorted(dict.keys()). */
  function SortedKeys(s: set<int>): (q: seq<int>)
    ensures Increasing(q)
    ensures forall x :: x in q <==> x in s
    decreases |s|
  {
    if exists a :: a in s then
      var m := Least(s);
      [m] + SortedKeys(s - {m})
    else []
  }

  function Keys(c: RomConfig): (q: seq<int>)
    ensures Increasing(q) && (forall x :: x in q ==> x in c.table)
    ensures |c.table| > 0 ==> |q| > 0
  {
    var q := SortedKeys(c.table.Keys);
    assert |c.table| > 0 ==> q != [] by {
      if x :| x in c.table {
        assert x in q;
      }
    }
    q
  }

  function Values(c: RomConfig): (v: seq<real>)
    ensures |v| == |Keys(c)|
    ensures forall i :: 0 <= i < |v| ==> v[i] == c.table[Keys(c)[i]]
  {
    seq(|Keys(c)|, i requires 0 <= i < |Keys(c)| => c.table[Keys(c)[i]])
  }

  /** None stands for the ValueError on an empty table. */
  function CostOfRecompute(promptLen: int, c: RomConfig): Option<real> {
    if |c.table| == 0 then None
    else if promptLen <= 0 then Some(0.0)
    else Some(Interpolate(Keys(c), Values(c), promptLen))
  }

  function MakeDecision(promptLen: int, bandwidth: real, c: RomConfig): Option<(Decision, Cost, real)> {
    var mig := CostOfMigration(KvSizeBytes(promptLen, c), bandwidth);
    match CostOfRecompute(promptLen, c)
    case None => None
    case Some(recomp) =>
      var decision :=
        if c.policy == AlwaysMigrate then Migrate
        else if c.policy == AlwaysRecompute then Recompute
        else if mig.AtMost(recomp) then Migrate else Recompute;
      Some((decision, mig, recomp))
  }

  /** The index of the first breakpoint at which recomputing is no dearer, from index i on. */
  function FirstHit(keys: seq<int>, i: nat, bandwidth: real, c: RomConfig): Option<nat>
    requires i <= |keys|
    decreases |keys| - i
  {
    if i == |keys| then None
    else
      match MakeDecision(keys[i], bandwidth, c)
      case None => None
      case Some((_, mig, recomp)) =>
        if mig.AtLeast(recomp) then Some(i) else FirstHit(keys, i + 1, bandwidth, c)
  }

  const MAX_SIZE: int := 0x7FFF_FFFF_FFFF_FFFF  // sys.maxsize

  function BreakevenPromptLen(bandwidth: real, c: RomConfig): int {
    match FirstHit(Keys(c), 0, bandwidth, c)
    case None => MAX_SIZE
    case Some(i) => if i < |Keys(c)| then Keys(c)[i] else MAX_SIZE
  }

  // ---------------------------------------------------------------- the table hypothesis

  predicate Positive(keys: seq<int>, values: seq<real>) {
    && |keys| == |values|
    && (forall i :: 0 <= i < |keys| ==> keys[i] > 0 && values[i] > 0.0)
  }

  /** Latency per token does not grow from breakpoint i to the next. */
  predicate EconomicalAt(keys: seq<int>, values: seq<real>, i: nat)
    requires |keys| == |values| && i + 1 < |keys|
  {
    values[i + 1] * keys[i] as real <= values[i] * keys[i + 1] as real
  }

  predicate Economical(keys: seq<int>, values: seq<real>)
    requires |keys| == |values|
  {
    forall i :: 0 <= i && i + 1 < |keys| ==> EconomicalAt(keys, values, i)
  }

  ghost predicate Sound(keys: seq<int>, values: seq<real>) {
    |keys| > 0 && Increasing(keys) && Positive(keys, values) && Economical(keys, values)
  }

  /** a per x against b per y: the second is no dearer per token. */
  ghost predicate Cheaper(a: real, x: real, b: real, y: real) { b * x <= a * y }

  lemma MulMono(a: real, b: real, k: real)
    requires a <= b && k >= 0.0
    ensures a * k <= b * k
  {
  }

  lemma DivPositive(a: real, b: real, k: real)
    requires a * k <= b * k && k > 0.0
    ensures a <= b
  {
    PositiveProduct(a - b, k);
    assert (a - b) * k == a * k - b * k;
  }

  lemma PositiveProduct(d: real, k: real)
    requires k > 0.0
    ensures d > 0.0 ==> d * k > 0.0
  {
  }

  lemma CheaperTransitive(a: real, x: real, b: real, y: real, d: real, z: real)
    requires x > 0.0 && y > 0.0 && z > 0.0
    requires Cheaper(a, x, b, y) && Cheaper(b, y, d, z)
    ensures Cheaper(a, x, d, z)
  {
    MulMono(b * x, a * y, z);
    MulMono(d * y, b * z, x);
    assert (d * x) * y == (d * y) * x;
    assert (b * z) * x == (b * x) * z;
    assert (a * y) * z == (a * z) * y;
    DivPositive(d * x, a * z, y);
  }

  // ---------------------------------------------------------------- interpolation, cross-multiplied

  /** r is the value at x of the segment from (k1, v1) to (k2, v2). */
  ghost predicate OnSegment(k1: real, v1: real, k2: real, v2: real, x: real, r: real) {
    k1 < k2 && r * (k2 - k1) == v1 * (k2 - x) + v2 * (x - k1)
  }

  lemma SegmentCheaper(k1: real, v1: real, k2: real, v2: real, x: real, rx: real, y: real, ry: real)
    requires OnSegment(k1, v1, k2, v2, x, rx) && OnSegment(k1, v1, k2, v2, y, ry)
    requires x <= y && Cheaper(v1, k1, v2, k2)
    ensures Cheaper(rx, x, ry, y)
  {
    var w := k2 - k1;
    calc {
      (rx * y - ry * x) * w;
      (rx * w) * y - (ry * w) * x;
      (v1 * (k2 - x) + v2 * (x - k1)) * y - (v1 * (k2 - y) + v2 * (y - k1)) * x;
      v1 * k2 * y - v2 * k1 * y - v1 * k2 * x + v2 * k1 * x;
      (v1 * k2 - v2 * k1) * (y - x);
    }
    assert (v1 * k2 - v2 * k1) * (y - x) >= 0.0;
    assert 0.0 * w <= (rx * y - ry * x) * w;
    DivPositive(0.0, rx * y - ry * x, w);
  }

  lemma SegmentValue(k1: int, v1: real, k2: int, v2: real, x: int)
    requires k1 < k2
    ensures OnSegment(k1 as real, v1, k2 as real, v2, x as real, Segment(k1, v1, k2, v2, x))
  {
    var w, d := (k2 - k1) as real, (x - k1) as real;
    var f := d / w;
    assert f * w == d;
    calc {
      (v1 + f * (v2 - v1)) * w;
      v1 * w + (f * w) * (v2 - v1);
      v1 * w + d * (v2 - v1);
      v1 * (w - d) + v2 * d;
    }
  }

  // ---------------------------------------------------------------- latency per token

  lemma {:induction false} BreakpointsCheaper(keys: seq<int>, values: seq<real>, i: nat, j: nat)
    requires Sound(keys, values) && i <= j < |keys|
    ensures Cheaper(values[i], keys[i] as real, values[j], keys[j] as real)
    decreases j
  {
    if i < j {
      BreakpointsCheaper(keys, values, i, j - 1);
      assert EconomicalAt(keys, values, j - 1);
      CheaperTransitive(values[i], keys[i] as real, values[j - 1], keys[j - 1] as real, values[j], keys[j] as real);
    }
  }

  /** r is the interpolated latency at x, which lies on segment i. */
  ghost predicate At(keys: seq<int>, values: seq<real>, i: nat, x: int, r: real) {
    && |keys| == |values| && i + 1 < |keys| && keys[i] <= x <= keys[i + 1]
    && OnSegment(keys[i] as real, values[i], keys[i + 1] as real, values[i + 1], x as real, r)
  }

  lemma EndsAt(keys: seq<int>, values: seq<real>, i: nat)
    requires |keys| == |values| && i + 1 < |keys| && Increasing(keys)
    ensures At(keys, values, i, keys[i], values[i]) && At(keys, values, i, keys[i + 1], values[i + 1])
  {
  }

  lemma SameSegment(keys: seq<int>, values: seq<real>, i: nat, x: int, rx: real, y: int, ry: real)
    requires Sound(keys, values) && At(keys, values, i, x, rx) && At(keys, values, i, y, ry) && x <= y
    ensures Cheaper(rx, x as real, ry, y as real)
  {
    assert EconomicalAt(keys, values, i);
    SegmentCheaper(keys[i] as real, values[i], keys[i + 1] as real, values[i + 1], x as real, rx, y as real, ry);
  }

  lemma AcrossSegments(keys: seq<int>, values: seq<real>, i: nat, x: int, rx: real, j: nat, y: int, ry: real)
    requires Sound(keys, values) && At(keys, values, i, x, rx) && At(keys, values, j, y, ry) && x <= y && i < j
    ensures Cheaper(rx, x as real, ry, y as real)
  {
    EndsAt(keys, values, i);
    EndsAt(keys, values, j);
    SameSegment(keys, values, i, x, rx, keys[i + 1], values[i + 1]);
    BreakpointsCheaper(keys, values, i + 1, j);
    SameSegment(keys, values, j, keys[j], values[j], y, ry);
    CheaperTransitive(rx, x as real, values[i + 1], keys[i + 1] as real, values[j], keys[j] as real);
    CheaperTransitive(rx, x as real, values[j], keys[j] as real, ry, y as real);
  }

  /** The segment a length falls on, ends included. */
  lemma Locate(keys: seq<int>, values: seq<real>, x: int) returns (i: nat)
    requires |keys| == |values| >= 2 && Increasing(keys) && keys[0] <= x <= keys[|keys| - 1]
    ensures At(keys, values, i, x, Interpolate(keys, values, x))
  {
    if x == keys[0] {
      i := 0;
      EndsAt(keys, values, 0);
    } else if x == keys[|keys| - 1] {
      i := |keys| - 2;
      EndsAt(keys, values, i);
    } else {
      i := BisectRight(keys, x) - 1;
      SegmentValue(keys[i], values[i], keys[i + 1], values[i + 1], x);
    }
  }

  lemma WithinTable(keys: seq<int>, values: seq<real>, x: int, y: int)
    requires Sound(keys, values) && keys[0] <= x < y <= keys[|keys| - 1]
    ensures Cheaper(Interpolate(keys, values, x), x as real, Interpolate(keys, values, y), y as real)
  {
    var i := Locate(keys, values, x);
    var j := Locate(keys, values, y);
    AnySegments(keys, values, i, x, Interpolate(keys, values, x), j, y, Interpolate(keys, values, y));
  }

  lemma AnySegments(keys: seq<int>, values: seq<real>, i: nat, x: int, rx: real, j: nat, y: int, ry: real)
    requires Sound(keys, values) && At(keys, values, i, x, rx) && At(keys, values, j, y, ry) && x < y
    ensures Cheaper(rx, x as real, ry, y as real)
  {
    if i == j {
      SameSegment(keys, values, i, x, rx, y, ry);
    } else if i < j {
      AcrossSegments(keys, values, i, x, rx, j, y, ry);
    }
  }

  lemma FlatCheaper(v: real, x: int, y: int)
    requires v > 0.0 && x <= y
    ensures Cheaper(v, x as real, v, y as real)
  {
    MulMono(x as real, y as real, v);
  }

  /** Outside the table the prediction is that of its nearer end. */
  function Clamp(keys: seq<int>, x: int): int
    requires |keys| > 0
  {
    if x < keys[0] then keys[0] else if x > keys[|keys| - 1] then keys[|keys| - 1] else x
  }

  lemma ClampedValue(keys: seq<int>, values: seq<real>, x: int)
    requires |keys| == |values| > 0 && Increasing(keys)
    ensures Interpolate(keys, values, Clamp(keys, x)) == Interpolate(keys, values, x)
  {
  }

  lemma LatencyPositive(keys: seq<int>, values: seq<real>, x: int)
    requires |keys| > 0 && Increasing(keys) && Positive(keys, values)
    ensures Interpolate(keys, values, x) > 0.0
  {
    if keys[0] < x < keys[|keys| - 1] {
      var i := Locate(keys, values, x);
      SegmentPositive(keys[i] as real, values[i], keys[i + 1] as real, values[i + 1], x as real,
                      Interpolate(keys, values, x));
    }
  }

  lemma ThreeParts(v: real, w: real, x: int, x1: int, y1: int, y: int)
    requires 0 < x <= x1 && y1 <= y && 0 < y1 && v > 0.0 && w > 0.0
    requires Cheaper(v, x1 as real, w, y1 as real)
    ensures Cheaper(v, x as real, w, y as real)
  {
    FlatCheaper(v, x, x1);
    FlatCheaper(w, y1, y);
    CheaperTransitive(v, x as real, v, x1 as real, w, y1 as real);
    CheaperTransitive(v, x as real, w, y1 as real, w, y as real);
  }

  /** Predicted latency per token never grows with the length: neither between breakpoints, nor
      across them, nor on the flat ends. */
  lemma LatencyPerTokenFalls(keys: seq<int>, values: seq<real>, x: int, y: int)
    requires Sound(keys, values) && 0 < x <= y
    ensures Cheaper(Interpolate(keys, values, x), x as real, Interpolate(keys, values, y), y as real)
  {
    var first, last := keys[0], keys[|keys| - 1];
    var x1, y1 := Clamp(keys, x), Clamp(keys, y);
    ClampedValue(keys, values, x);
    ClampedValue(keys, values, y);
    LatencyPositive(keys, values, x);
    LatencyPositive(keys, values, y);
    if x1 == y1 {
      FlatCheaper(Interpolate(keys, values, x), x, y);
    } else {
      WithinTable(keys, values, x1, y1);
      ThreeParts(Interpolate(keys, values, x), Interpolate(keys, values, y), x, x1, y1, y);
    }
  }

  lemma SegmentPositive(k1: real, v1: real, k2: real, v2: real, x: real, r: real)
    requires OnSegment(k1, v1, k2, v2, x, r) && k1 <= x <= k2 && v1 > 0.0 && v2 > 0.0
    ensures r > 0.0
  {
    var a, b := k2 - x, x - k1;
    assert v1 * a >= 0.0 && v2 * b >= 0.0;
    assert a > 0.0 || b > 0.0;
    PositiveProduct(v1, if a > 0.0 then a else 1.0);
    PositiveProduct(v2, if b > 0.0 then b else 1.0);
    assert r * (k2 - k1) > 0.0;
    DivPositive(0.0, r, k2 - k1);
  }

  // ---------------------------------------------------------------- migration cost is linear

  lemma {:induction false} ProductPositive(factors: seq<int>)
    requires forall i :: 0 <= i < |factors| ==> factors[i] > 0
    ensures Product(factors) > 0
  {
    if factors != [] {
      ProductPositive(factors[1..]);
      PositiveTimes(factors[0], Product(factors[1..]));
    }
  }

  lemma PositiveTimes(a: int, b: int)
    requires a > 0 && b > 0
    ensures a * b > 0
  {
  }

  lemma BytesPositive(c: RomConfig)
    requires c.Valid()
    ensures c.BytesPerToken() > 0
  {
    ProductPositive([2, c.numLayers, c.numKvHeads, c.headDim, c.dtypeBytes]);
  }

  /** A factor can be taken out of a product wherever it stands. */
  lemma {:induction false} ProductTakesOut(a: seq<int>, x: int, b: seq<int>)
    ensures Product(a + [x] + b) == Product(a + b) * x
  {
    if a == [] {
      assert a + [x] + b == [x] + b && ([x] + b)[1..] == b && a + b == b;
    } else {
      ProductTakesOut(a[1..], x, b);
      assert (a + [x] + b)[1..] == a[1..] + [x] + b && (a + b)[1..] == a[1..] + b;
      assert a[0] * (Product(a[1..] + b) * x) == (a[0] * Product(a[1..] + b)) * x;
    }
  }

  function MigrationCost(len: int, bandwidth: real, c: RomConfig): Cost {
    CostOfMigration(KvSizeBytes(len, c), bandwidth)
  }

  /** Migrating costs u seconds per token. */
  ghost predicate Line(bandwidth: real, c: RomConfig, u: real) {
    u > 0.0 && forall len :: len > 0 ==> MigrationCost(len, bandwidth, c) == Finite(u * len as real)
  }

  lemma QuotientIsLine(bandwidth: real, c: RomConfig, u: real)
    requires c.Valid() && bandwidth > 0.0 && u > 0.0
    requires u * (bandwidth * 1000000.0) == c.BytesPerToken() as real
    ensures Line(bandwidth, c, u)
  {
    forall len | len > 0 ensures MigrationCost(len, bandwidth, c) == Finite(u * len as real) {
      BytesPositive(c);
      SizeIsProduct(len, c);
      PositiveTimes(c.BytesPerToken(), len);
      QuotientOfProduct(c.BytesPerToken(), len, u, bandwidth * 1000000.0);
    }
  }

  lemma QuotientOfProduct(a: int, b: int, u: real, w: real)
    requires w > 0.0 && u * w == a as real
    ensures (a * b) as real / w == u * b as real
  {
    assert (a * b) as real == a as real * b as real;
    assert (u * b as real) * w == a as real * b as real;
    RatioIsUnique(a as real * b as real, w, u * b as real);
  }

  lemma RatioIsUnique(n: real, w: real, q: real)
    requires w > 0.0 && q * w == n
    ensures n / w == q
  {
    assert (n / w) * w == n;
    DivPositive(n / w, q, w);
    DivPositive(q, n / w, w);
  }

  lemma Ratio(v: real, k: real) returns (u: real)
    requires v > 0.0 && k > 0.0
    ensures u > 0.0 && u * k == v
  {
    u := v / k;
  }

  /** On a link that is up, migration cost is linear in the length. */
  lemma MigrationIsLinear(bandwidth: real, c: RomConfig) returns (u: real)
    requires c.Valid() && bandwidth > 0.0
    ensures Line(bandwidth, c, u) && u * (bandwidth * 1000000.0) == c.BytesPerToken() as real
  {
    BytesPositive(c);
    u := Ratio(c.BytesPerToken() as real, bandwidth * 1000000.0);
    QuotientIsLine(bandwidth, c, u);
  }

  /** Every slope is the slope of some bandwidth. */
  lemma BandwidthFor(u: real, c: RomConfig) returns (bandwidth: real)
    requires c.Valid() && u > 0.0
    ensures bandwidth > 0.0 && Line(bandwidth, c, u)
  {
    BytesPositive(c);
    bandwidth := Ratio(c.BytesPerToken() as real, u * 1000000.0);
    assert u * (bandwidth * 1000000.0) == bandwidth * (u * 1000000.0);
    QuotientIsLine(bandwidth, c, u);
  }

  lemma SizeIsProduct(len: int, c: RomConfig)
    requires len > 0
    ensures KvSizeBytes(len, c) == c.BytesPerToken() * len
  {
    var a, b := [2, c.numLayers, c.numKvHeads, c.headDim], [c.dtypeBytes];
    ProductTakesOut(a, len, b);
    assert a + [len] + b == [2, c.numLayers, c.numKvHeads, c.headDim, len, c.dtypeBytes];
    assert a + b == [2, c.numLayers, c.numKvHeads, c.headDim, c.dtypeBytes];
  }

  // ---------------------------------------------------------------- single crossing

  function Chosen(len: int, bandwidth: real, c: RomConfig): Decision
    requires |c.table| > 0
  {
    MakeDecision(len, bandwidth, c).value.0
  }

  ghost predicate Applicable(c: RomConfig) {
    c.Valid() && c.policy == Rom && Positive(Keys(c), Values(c))
  }

  function Predicted(len: int, c: RomConfig): real
    requires |c.table| > 0
  {
    Interpolate(Keys(c), Values(c), len)
  }

  lemma DownRecomputes(len: int, bandwidth: real, c: RomConfig)
    requires c.Valid() && c.policy == Rom && bandwidth <= 0.0
    ensures Chosen(len, bandwidth, c) == Recompute
  {
  }

  lemma NothingMigrates(len: int, bandwidth: real, c: RomConfig)
    requires c.Valid() && c.policy == Rom && bandwidth > 0.0 && len <= 0
    ensures Chosen(len, bandwidth, c) == Migrate
  {
  }

  /** What the "rom" policy compares. */
  lemma ChosenCompares(len: int, bandwidth: real, c: RomConfig, u: real)
    requires c.Valid() && c.policy == Rom && len > 0 && Line(bandwidth, c, u)
    ensures Chosen(len, bandwidth, c) == Recompute <==> u * len as real > Predicted(len, c)
  {
    assert MigrationCost(len, bandwidth, c) == Finite(u * len as real);
  }

  /** Two tensors of numLayers x numKvHeads x headDim numbers for each token. */
  function TokenBytes(c: RomConfig): int { 2 * (c.numLayers * (c.numKvHeads * (c.headDim * c.dtypeBytes))) }

  lemma TokenBytesIs(c: RomConfig)
    ensures c.BytesPerToken() == TokenBytes(c)
  {
    FirstFactor(c.dtypeBytes, []);
    FirstFactor(c.headDim, [c.dtypeBytes]);
    FirstFactor(c.numKvHeads, [c.headDim, c.dtypeBytes]);
    FirstFactor(c.numLayers, [c.numKvHeads, c.headDim, c.dtypeBytes]);
    FirstFactor(2, [c.numLayers, c.numKvHeads, c.headDim, c.dtypeBytes]);
  }

  lemma FirstFactor(x: int, rest: seq<int>)
    ensures Product([x] + rest) == x * Product(rest)
  {
    assert ([x] + rest)[1..] == rest;
  }

  lemma ScaledBothWays(a: real, b: real, w: real)
    requires w > 0.0
    ensures a <= b <==> a * w <= b * w
  {
    if a <= b {
      MulMono(a, b, w);
    } else if a * w <= b * w {
      DivPositive(a, b, w);
    }
  }

  /** The "rom" policy migrates exactly when the link carries the bytes of the prompt within the time
      predicted for recomputing it; on a tie it migrates. */
  lemma RomMigratesIff(len: int, bandwidth: real, c: RomConfig)
    requires c.Valid() && c.policy == Rom && len > 0 && bandwidth > 0.0
    ensures Chosen(len, bandwidth, c) == Migrate
            <==> TokenBytes(c) as real * len as real <= Predicted(len, c) * (bandwidth * 1000000.0)
  {
    var u := MigrationIsLinear(bandwidth, c);
    var w := bandwidth * 1000000.0;
    TokenBytesIs(c);
    ChosenCompares(len, bandwidth, c, u);
    ScaledBothWays(u * len as real, Predicted(len, c), w);
    assert (u * len as real) * w == (u * w) * len as real;
  }

  /** The prediction is the measurement at a measured length, the chord between two of them, and the
      nearer end outside the table. */
  lemma PredictsOnChords(keys: seq<int>, values: seq<real>, x: int, i: nat)
    requires |keys| == |values| && i < |keys| && Increasing(keys)
    ensures var r := Interpolate(keys, values, x);
            && (x == keys[i] || (x < keys[i] && i == 0) || (x > keys[i] && i == |keys| - 1) ==> r == values[i])
            && (i + 1 < |keys| && keys[i] < x < keys[i + 1] ==>
                  OnSegment(keys[i] as real, values[i], keys[i + 1] as real, values[i + 1], x as real, r))
  {
    BreakpointValue(keys, values, i);
    if i + 1 < |keys| && keys[i] < x < keys[i + 1] {
      BisectIs(keys, x, i + 1);
      SegmentValue(keys[i], values[i], keys[i + 1], values[i + 1], x);
    }
  }

  /** A line through the origin that is above the prediction at x stays above it. */
  lemma StaysAbove(u: real, rx: real, x: real, ry: real, y: real)
    requires 0.0 < x && 0.0 < y && Cheaper(rx, x, ry, y)
    ensures u * x > rx ==> u * y > ry
    ensures u * x >= rx ==> u * y >= ry
  {
    if u * y <= ry {
      MulMono(u * y, ry, x);
      assert (u * y) * x == (u * x) * y;
      DivPositive(u * x, rx, y);
    }
    if u * y < ry {
      PositiveProduct(ry - u * y, x);
      PositiveProduct(u * x - rx, y);
      assert (u * y) * x == (u * x) * y;
      assert (u * x) * y < rx * y;
      StrictDiv(u * x, rx, y);
    }
  }

  lemma StrictDiv(a: real, b: real, k: real)
    requires a * k < b * k && k > 0.0
    ensures a < b
  {
    DivPositive(a, b, k);
  }

  lemma PredictionFalls(c: RomConfig, len: int, longer: int)
    requires Applicable(c) && Economical(Keys(c), Values(c)) && 0 < len <= longer
    ensures Cheaper(Predicted(len, c), len as real, Predicted(longer, c), longer as real)
  {
    LatencyPerTokenFalls(Keys(c), Values(c), len, longer);
  }

  /** The two predictions a comparison of lengths needs. */
  lemma ChosenAtBoth(len: int, longer: int, bandwidth: real, c: RomConfig, u: real) returns (r1: real, r2: real)
    requires Applicable(c) && Economical(Keys(c), Values(c)) && 0 < len <= longer && Line(bandwidth, c, u)
    ensures Cheaper(r1, len as real, r2, longer as real)
    ensures Chosen(len, bandwidth, c) == Recompute <==> Above(u, len, r1)
    ensures Chosen(longer, bandwidth, c) == Recompute <==> Above(u, longer, r2)
  {
    r1, r2 := Predicted(len, c), Predicted(longer, c);
    PredictionFalls(c, len, longer);
    ChosenCompares(len, bandwidth, c, u);
    ChosenCompares(longer, bandwidth, c, u);
  }

  lemma CrossingUp(len: int, longer: int, bandwidth: real, c: RomConfig)
    requires Applicable(c) && Economical(Keys(c), Values(c)) && 0 < len <= longer && bandwidth > 0.0
    requires Chosen(len, bandwidth, c) == Recompute
    ensures Chosen(longer, bandwidth, c) == Recompute
  {
    var u := MigrationIsLinear(bandwidth, c);
    var r1, r2 := ChosenAtBoth(len, longer, bandwidth, c, u);
    StaysStrictlyAbove(u, r1, len, r2, longer);
  }

  lemma StaysStrictlyAbove(u: real, r1: real, len: int, r2: real, longer: int)
    requires 0 < len && 0 < longer && Cheaper(r1, len as real, r2, longer as real)
    ensures Above(u, len, r1) ==> Above(u, longer, r2)
  {
    StaysAbove(u, r1, len as real, r2, longer as real);
  }

  /** Single crossing: once the policy recomputes at some length it recomputes at every longer
      one, whatever the bandwidth. */
  lemma SingleCrossing(len: int, longer: int, bandwidth: real, c: RomConfig)
    requires Applicable(c) && Economical(Keys(c), Values(c)) && len <= longer
    requires Chosen(len, bandwidth, c) == Recompute
    ensures Chosen(longer, bandwidth, c) == Recompute
  {
    if bandwidth <= 0.0 {
      DownRecomputes(longer, bandwidth, c);
    } else {
      if len <= 0 {
        NothingMigrates(len, bandwidth, c);
      }
      CrossingUp(len, longer, bandwidth, c);
    }
  }

  ghost predicate CrossesOnce(c: RomConfig)
    requires |c.table| > 0
  {
    forall len, longer, bandwidth: real ::
      len <= longer && Chosen(len, bandwidth, c) == Recompute ==> Chosen(longer, bandwidth, c) == Recompute
  }

  lemma BisectIs(keys: seq<int>, x: int, i: nat)
    requires Increasing(keys) && 0 < i < |keys| && keys[i - 1] <= x < keys[i]
    ensures BisectRight(keys, x) == i
  {
    var b := BisectRight(keys, x);
    assert forall j :: 0 <= j < b ==> keys[j] <= x;
    assert forall j :: 0 <= j < i ==> keys[j] <= keys[i - 1];
  }

  lemma BreakpointValue(keys: seq<int>, values: seq<real>, i: nat)
    requires |keys| == |values| && i < |keys| && Increasing(keys)
    ensures Interpolate(keys, values, keys[i]) == values[i]
  {
    if 0 < i < |keys| - 1 {
      BisectIs(keys, keys[i], i + 1);
    }
  }

  lemma RisingSlope(k1: real, v1: real, k2: real, v2: real) returns (u: real)
    requires k1 > 0.0 && k2 > 0.0 && v2 > 0.0 && v2 * k1 > v1 * k2
    ensures u > 0.0 && u * k2 == v2 && u * k1 > v1
  {
    u := Ratio(v2, k2);
    assert (u * k1) * k2 == v2 * k1;
    StrictDiv(v1, u * k1, k2);
  }

  /** A migration line of slope u is above, or not above, v at length k. */
  ghost predicate Above(u: real, k: int, v: real) { u * k as real > v }

  ghost predicate NotAbove(u: real, k: int, v: real) { u * k as real <= v }

  lemma SlopeBetween(keys: seq<int>, values: seq<real>, i: nat) returns (u: real)
    requires Positive(keys, values) && i + 1 < |keys| && !EconomicalAt(keys, values, i)
    ensures u > 0.0 && Above(u, keys[i], values[i]) && NotAbove(u, keys[i + 1], values[i + 1])
  {
    u := RisingSlope(keys[i] as real, values[i], keys[i + 1] as real, values[i + 1]);
  }

  /** Where latency per token rises between two breakpoints, some bandwidth recomputes at the
      first and migrates at the second. */
  lemma RisingBreaks(c: RomConfig, i: nat) returns (bandwidth: real)
    requires Applicable(c) && i + 1 < |Keys(c)| && !EconomicalAt(Keys(c), Values(c), i)
    ensures Chosen(Keys(c)[i], bandwidth, c) == Recompute && Chosen(Keys(c)[i + 1], bandwidth, c) == Migrate
  {
    bandwidth := RisingBandwidth(c, Keys(c), Values(c), i);
  }

  lemma RisingBandwidth(c: RomConfig, keys: seq<int>, values: seq<real>, i: nat) returns (bandwidth: real)
    requires c.Valid() && c.policy == Rom && keys == Keys(c) && values == Values(c)
    requires Positive(keys, values) && i + 1 < |keys| && !EconomicalAt(keys, values, i)
    ensures Chosen(keys[i], bandwidth, c) == Recompute && Chosen(keys[i + 1], bandwidth, c) == Migrate
  {
    var u := SlopeBetween(keys, values, i);
    bandwidth := BandwidthFor(u, c);
    var j := i + 1;
    BelowBreakpoint(c, keys, values, j, bandwidth, u);
    AboveBreakpoint(c, keys, values, i, bandwidth, u);
  }

  lemma AboveBreakpoint(c: RomConfig, keys: seq<int>, values: seq<real>, i: nat, bandwidth: real, u: real)
    requires c.Valid() && c.policy == Rom && keys == Keys(c) && values == Values(c) && i < |keys|
    requires Line(bandwidth, c, u) && keys[i] > 0 && Above(u, keys[i], values[i])
    ensures Chosen(keys[i], bandwidth, c) == Recompute
  {
    BreakpointValue(keys, values, i);
    ChosenCompares(keys[i], bandwidth, c, u);
  }

  lemma BelowBreakpoint(c: RomConfig, keys: seq<int>, values: seq<real>, i: nat, bandwidth: real, u: real)
    requires c.Valid() && c.policy == Rom && keys == Keys(c) && values == Values(c) && i < |keys|
    requires Line(bandwidth, c, u) && keys[i] > 0 && NotAbove(u, keys[i], values[i])
    ensures Chosen(keys[i], bandwidth, c) == Migrate
  {
    BreakpointValue(keys, values, i);
    ChosenCompares(keys[i], bandwidth, c, u);
  }

  /** The table hypothesis is exactly what single crossing takes. */
  lemma CrossesOnceIffEconomical(c: RomConfig)
    requires Applicable(c)
    ensures CrossesOnce(c) <==> Economical(Keys(c), Values(c))
  {
    if Economical(Keys(c), Values(c)) {
      forall len, longer, bandwidth: real | len <= longer && Chosen(len, bandwidth, c) == Recompute
        ensures Chosen(longer, bandwidth, c) == Recompute
      {
        SingleCrossing(len, longer, bandwidth, c);
      }
    } else {
      var i :| 0 <= i && i + 1 < |Keys(c)| && !EconomicalAt(Keys(c), Values(c), i);
      var bandwidth := RisingBreaks(c, i);
      assert Keys(c)[i] <= Keys(c)[i + 1];
    }
  }

  // ---------------------------------------------------------------- more bandwidth

  lemma QuotientShrinks(a: real, w: real, w2: real)
    requires a >= 0.0 && 0.0 < w <= w2
    ensures a / w2 <= a / w
  {
    var q := a / w;
    assert q * w == a;
    assert q >= 0.0;
    MulMono(w, w2, q);
    assert (a / w2) * w2 == a;
    DivPositive(a / w2, q, w2);
  }

  lemma BytesNonNegative(len: int, c: RomConfig)
    requires c.Valid()
    ensures KvSizeBytes(len, c) >= 0
  {
    if len > 0 {
      BytesPositive(c);
      SizeIsProduct(len, c);
      PositiveTimes(c.BytesPerToken(), len);
    }
  }

  lemma FasterIsCheaper(bytes: int, bandwidth: real, faster: real, r: real)
    requires bytes >= 0 && bandwidth <= faster && CostOfMigration(bytes, bandwidth).AtMost(r)
    ensures CostOfMigration(bytes, faster).AtMost(r)
  {
    if bytes > 0 {
      QuotientShrinks(bytes as real, bandwidth * 1000000.0, faster * 1000000.0);
    }
  }

  /** For any table and any policy: once the choice is to migrate, a faster link does not change it. */
  lemma FasterStillMigrates(len: int, bandwidth: real, faster: real, c: RomConfig)
    requires c.Valid() && bandwidth <= faster && Chosen(len, bandwidth, c) == Migrate
    ensures Chosen(len, faster, c) == Migrate
  {
    if c.policy == Rom {
      BytesNonNegative(len, c);
      FasterIsCheaper(KvSizeBytes(len, c), bandwidth, faster, CostOfRecompute(len, c).value);
    }
  }

  /** The migration is dearer than the predicted prefill latency. */
  predicate Dearer(mig: Cost, recomp: real) { mig.Infinite? || mig.seconds > recomp }

  /** The forced policies answer what their names say and report the costs rom would weigh: at every
      length and bandwidth the answer differs from rom's exactly when migrating is dearer, under
      always_migrate, and exactly when it is not, ties included, under always_recompute. */
  lemma ForcedPolicies(len: int, bandwidth: real, c: RomConfig)
    requires |c.table| > 0
    ensures var rom := MakeDecision(len, bandwidth, c.(policy := Rom));
            var mig := MakeDecision(len, bandwidth, c.(policy := AlwaysMigrate));
            var rec := MakeDecision(len, bandwidth, c.(policy := AlwaysRecompute));
            && rom.Some? && mig.Some? && rec.Some?
            && mig.value.0 == Migrate && rec.value.0 == Recompute
            && rom.value.1 == mig.value.1 == rec.value.1 && rom.value.2 == mig.value.2 == rec.value.2
            && (mig.value.0 != rom.value.0 <==> Dearer(rom.value.1, rom.value.2))
            && (rec.value.0 != rom.value.0 <==> !Dearer(rom.value.1, rom.value.2))
  {
    var rom, mig, rec := c.(policy := Rom), c.(policy := AlwaysMigrate), c.(policy := AlwaysRecompute);
    assert Keys(rom) == Keys(mig) == Keys(rec);
    assert Values(rom) == Values(mig) == Values(rec);
    assert KvSizeBytes(len, rom) == KvSizeBytes(len, mig) == KvSizeBytes(len, rec);
  }

  // ---------------------------------------------------------------- breakeven

  /** Recomputing costs no more than migrating at this length. */
  predicate RecomputeWins(len: int, bandwidth: real, c: RomConfig)
    requires |c.table| > 0
  {
    MigrationCost(len, bandwidth, c).AtLeast(CostOfRecompute(len, c).value)
  }

  lemma HitStep(keys: seq<int>, i: nat, bandwidth: real, c: RomConfig)
    requires |c.table| > 0 && i < |keys|
    ensures FirstHit(keys, i, bandwidth, c)
         == if RecomputeWins(keys[i], bandwidth, c) then Some(i) else FirstHit(keys, i + 1, bandwidth, c)
  {
  }

  /** h is the first of keys[i..] where recomputing wins, if there is one. */
  ghost predicate IsFirstHit(keys: seq<int>, i: nat, bandwidth: real, c: RomConfig, h: Option<nat>)
    requires |c.table| > 0 && i <= |keys|
  {
    if h.None? then forall j :: i <= j < |keys| ==> !RecomputeWins(keys[j], bandwidth, c)
    else
      && i <= h.value < |keys| && RecomputeWins(keys[h.value], bandwidth, c)
      && forall j :: i <= j < h.value ==> !RecomputeWins(keys[j], bandwidth, c)
  }

  lemma HitLater(keys: seq<int>, i: nat, bandwidth: real, c: RomConfig, h: Option<nat>)
    requires |c.table| > 0 && i < |keys| && !RecomputeWins(keys[i], bandwidth, c)
    requires IsFirstHit(keys, i + 1, bandwidth, c, h)
    ensures IsFirstHit(keys, i, bandwidth, c, h)
  {
  }

  lemma {:induction false} FirstHitSpec(keys: seq<int>, i: nat, bandwidth: real, c: RomConfig)
    requires |c.table| > 0 && i <= |keys|
    ensures IsFirstHit(keys, i, bandwidth, c, FirstHit(keys, i, bandwidth, c))
    decreases |keys| - i
  {
    if i < |keys| {
      HitStep(keys, i, bandwidth, c);
      if !RecomputeWins(keys[i], bandwidth, c) {
        FirstHitSpec(keys, i + 1, bandwidth, c);
        HitLater(keys, i, bandwidth, c, FirstHit(keys, i + 1, bandwidth, c));
      }
    }
  }

  ghost predicate RecomputeWinsFrom(c: RomConfig, bandwidth: real, from: int)
    requires |c.table| > 0
  {
    forall len :: len >= from ==> RecomputeWins(len, bandwidth, c)
  }

  /** Migrating is strictly cheaper at every positive length up to `upTo`. */
  ghost predicate MigrateWinsUpTo(c: RomConfig, bandwidth: real, upTo: int)
    requires |c.table| > 0
  {
    forall len :: 0 < len <= upTo ==> !RecomputeWins(len, bandwidth, c)
  }

  lemma WinsIsLine(len: int, bandwidth: real, c: RomConfig, u: real)
    requires c.Valid() && len > 0 && Line(bandwidth, c, u)
    ensures RecomputeWins(len, bandwidth, c) <==> u * len as real >= Predicted(len, c)
  {
    assert MigrationCost(len, bandwidth, c) == Finite(u * len as real);
  }

  /** Once recomputing wins it keeps winning. */
  lemma WinsLonger(c: RomConfig, bandwidth: real, len: int, longer: int)
    requires Applicable(c) && Economical(Keys(c), Values(c)) && 0 < len <= longer
    requires RecomputeWins(len, bandwidth, c)
    ensures RecomputeWins(longer, bandwidth, c)
  {
    if bandwidth > 0.0 {
      WinsLongerUp(c, bandwidth, len, longer);
    }
  }

  lemma WinsLongerUp(c: RomConfig, bandwidth: real, len: int, longer: int)
    requires Applicable(c) && Economical(Keys(c), Values(c)) && 0 < len <= longer && bandwidth > 0.0
    requires RecomputeWins(len, bandwidth, c)
    ensures RecomputeWins(longer, bandwidth, c)
  {
    var u := MigrationIsLinear(bandwidth, c);
    var r1, r2 := WinsAtBoth(len, longer, bandwidth, c, u);
    StaysOnOrAbove(u, r1, len, r2, longer);
  }

  /** A migration line of slope u is on or above v at length k. */
  ghost predicate OnOrAbove(u: real, k: int, v: real) { u * k as real >= v }

  lemma StaysOnOrAbove(u: real, r1: real, len: int, r2: real, longer: int)
    requires 0 < len && 0 < longer && Cheaper(r1, len as real, r2, longer as real)
    ensures OnOrAbove(u, len, r1) ==> OnOrAbove(u, longer, r2)
  {
    StaysAbove(u, r1, len as real, r2, longer as real);
  }

  lemma WinsAtBoth(len: int, longer: int, bandwidth: real, c: RomConfig, u: real) returns (r1: real, r2: real)
    requires Applicable(c) && Economical(Keys(c), Values(c)) && 0 < len <= longer && Line(bandwidth, c, u)
    ensures Cheaper(r1, len as real, r2, longer as real)
    ensures RecomputeWins(len, bandwidth, c) <==> OnOrAbove(u, len, r1)
    ensures RecomputeWins(longer, bandwidth, c) <==> OnOrAbove(u, longer, r2)
  {
    r1, r2 := Predicted(len, c), Predicted(longer, c);
    PredictionFalls(c, len, longer);
    WinsIsLine(len, bandwidth, c, u);
    WinsIsLine(longer, bandwidth, c, u);
  }

  lemma WinsFrom(c: RomConfig, bandwidth: real, k: int)
    requires Applicable(c) && Economical(Keys(c), Values(c)) && k > 0 && RecomputeWins(k, bandwidth, c)
    ensures RecomputeWinsFrom(c, bandwidth, k)
  {
    forall len | len >= k ensures RecomputeWins(len, bandwidth, c) {
      WinsLonger(c, bandwidth, k, len);
    }
  }

  lemma WinsUpTo(c: RomConfig, bandwidth: real, k: int)
    requires Applicable(c) && Economical(Keys(c), Values(c)) && !RecomputeWins(k, bandwidth, c)
    ensures MigrateWinsUpTo(c, bandwidth, k)
  {
    forall len | 0 < len <= k ensures !RecomputeWins(len, bandwidth, c) {
      if RecomputeWins(len, bandwidth, c) {
        WinsLonger(c, bandwidth, len, k);
      }
    }
  }

  lemma AfterHit(c: RomConfig, bandwidth: real, h: nat)
    requires Applicable(c) && Economical(Keys(c), Values(c)) && FirstHit(Keys(c), 0, bandwidth, c) == Some(h)
    ensures h < |Keys(c)| && RecomputeWinsFrom(c, bandwidth, Keys(c)[h])
    ensures h > 0 ==> MigrateWinsUpTo(c, bandwidth, Keys(c)[h - 1])
  {
    FirstHitSpec(Keys(c), 0, bandwidth, c);
    WinsFrom(c, bandwidth, Keys(c)[h]);
    if h > 0 {
      WinsUpTo(c, bandwidth, Keys(c)[h - 1]);
    }
  }

  lemma AfterNoHit(c: RomConfig, bandwidth: real)
    requires Applicable(c) && Economical(Keys(c), Values(c)) && FirstHit(Keys(c), 0, bandwidth, c) == None
    ensures MigrateWinsUpTo(c, bandwidth, Keys(c)[|Keys(c)| - 1])
  {
    FirstHitSpec(Keys(c), 0, bandwidth, c);
    WinsUpTo(c, bandwidth, Keys(c)[|Keys(c)| - 1]);
  }

  lemma BreakevenIs(bandwidth: real, c: RomConfig)
    ensures var h := FirstHit(Keys(c), 0, bandwidth, c);
            && (h.None? ==> BreakevenPromptLen(bandwidth, c) == MAX_SIZE)
            && (h.Some? && h.value < |Keys(c)| ==> BreakevenPromptLen(bandwidth, c) == Keys(c)[h.value])
  {
  }

  /** breakeven_prompt_len brackets the true crossover: from the breakpoint it returns on,
      recomputing costs no more; up to the breakpoint before it, migrating is strictly cheaper;
      sys.maxsize means migrating is strictly cheaper up to the last breakpoint. */
  lemma BreakevenBrackets(bandwidth: real, c: RomConfig)
    requires Applicable(c) && Economical(Keys(c), Values(c))
    ensures var h := FirstHit(Keys(c), 0, bandwidth, c);
            && (h.None? ==>
                  && BreakevenPromptLen(bandwidth, c) == MAX_SIZE
                  && MigrateWinsUpTo(c, bandwidth, Keys(c)[|Keys(c)| - 1]))
            && (h.Some? ==>
                  && h.value < |Keys(c)| && BreakevenPromptLen(bandwidth, c) == Keys(c)[h.value]
                  && RecomputeWinsFrom(c, bandwidth, Keys(c)[h.value])
                  && (h.value > 0 ==> MigrateWinsUpTo(c, bandwidth, Keys(c)[h.value - 1])))
  {
    BreakevenIs(bandwidth, c);
    var h := FirstHit(Keys(c), 0, bandwidth, c);
    if h.None? {
      AfterNoHit(c, bandwidth);
    } else {
      AfterHit(c, bandwidth, h.value);
    }
  }

  // ---------------------------------------------------------------- the default table

  /** There is only one increasing sequence of given elements. */
  lemma {:induction false} SortedIsUnique(a: seq<int>, b: seq<int>)
    requires Increasing(a) && Increasing(b) && forall x :: x in a <==> x in b
    ensures a == b
    decreases |a|
  {
    if a == [] {
      assert forall i :: 0 <= i < |b| ==> b[i] in a;
    } else {
      assert a[0] in b && b != [];
      assert b[0] in a;
      assert a[0] == b[0];
      forall x ensures x in a[1..] <==> x in b[1..] {
        InTail(a, x);
        InTail(b, x);
      }
      SortedIsUnique(a[1..], b[1..]);
    }
  }

  lemma InTail(a: seq<int>, x: int)
    requires Increasing(a) && a != []
    ensures x in a[1..] <==> x in a && x != a[0]
  {
    assert a == [a[0]] + a[1..];
  }

  const DEFAULT_KEYS: seq<int> := [64, 128, 256, 512, 1024, 2048, 4096, 8192]
  const DEFAULT_VALUES: seq<real> := [0.005, 0.010, 0.018, 0.032, 0.060, 0.115, 0.225, 0.440]

  /** The defaults of ROMConfig meet the hypothesis of single crossing. */
  lemma DefaultTableIsEconomical(c: RomConfig)
    requires forall k :: k in c.table <==> k in DEFAULT_KEYS
    requires forall i :: 0 <= i < |DEFAULT_KEYS| ==> c.table[DEFAULT_KEYS[i]] == DEFAULT_VALUES[i]
    ensures Keys(c) == DEFAULT_KEYS && Values(c) == DEFAULT_VALUES
    ensures Positive(Keys(c), Values(c)) && Economical(Keys(c), Values(c))
  {
    SortedIsUnique(SortedKeys(c.table.Keys), DEFAULT_KEYS);
    assert Keys(c) == DEFAULT_KEYS;
    assert Values(c) == DEFAULT_VALUES;
    DefaultsAreEconomical();
  }

  lemma DefaultsAreEconomical()
    ensures Positive(DEFAULT_KEYS, DEFAULT_VALUES) && Economical(DEFAULT_KEYS, DEFAULT_VALUES)
  {
  }

  // ---------------------------------------------------------------- a table that crosses twice

  /** Two breakpoints, the second dearer per token than the first; the rest is the default. */
  function RisingConfig(): RomConfig { RomConfig(Rom, 32, 32, 128, 2, map[64 := 0.005, 128 := 0.011]) }

  lemma RisingTable()
    ensures Keys(RisingConfig()) == [64, 128] && Values(RisingConfig()) == [0.005, 0.011]
  {
    var c := RisingConfig();
    assert 64 in c.table && 128 in c.table;
    forall x ensures x in Keys(c) <==> x in [64, 128] {
      assert x in Keys(c) <==> x in c.table;
    }
    SortedIsUnique(Keys(c), [64, 128]);
    assert c.table[64] == 0.005 && c.table[128] == 0.011;
  }

  lemma RisingApplies()
    ensures Applicable(RisingConfig()) && !Economical(Keys(RisingConfig()), Values(RisingConfig()))
  {
    var c := RisingConfig();
    RisingTable();
    assert 64 in c.table;
    assert !EconomicalAt(Keys(c), Values(c), 0);
  }

  lemma RisingSizes()
    ensures KvSizeBytes(64, RisingConfig()) == 33554432 && KvSizeBytes(128, RisingConfig()) == 67108864
  {
    var c := RisingConfig();
    assert Product([2, 32, 32, 128, 64, 2]) == 33554432 by { Product6(2, 32, 32, 128, 64, 2); }
    assert Product([2, 32, 32, 128, 128, 2]) == 67108864 by { Product6(2, 32, 32, 128, 128, 2); }
  }

  lemma Product6(a: int, b: int, d: int, e: int, f: int, g: int)
    ensures Product([a, b, d, e, f, g]) == a * (b * (d * (e * (f * g))))
  {
    assert [g][1..] == [] && Product([g]) == g;
    assert [f, g][1..] == [g] && Product([f, g]) == f * g;
    assert [e, f, g][1..] == [f, g] && Product([e, f, g]) == e * (f * g);
    assert [d, e, f, g][1..] == [e, f, g] && Product([d, e, f, g]) == d * (e * (f * g));
    assert [b, d, e, f, g][1..] == [d, e, f, g] && Product([b, d, e, f, g]) == b * (d * (e * (f * g)));
    assert [a, b, d, e, f, g][1..] == [b, d, e, f, g];
  }

  lemma RisingCosts()
    ensures CostOfRecompute(64, RisingConfig()) == Some(0.005)
    ensures CostOfRecompute(128, RisingConfig()) == Some(0.011)
  {
    RisingTable();
  }

  /** A transfer of that many bytes at 6500 MB/s. */
  lemma RisingTransfers()
    ensures 33554432.0 / (6500.0 * 1000000.0) > 0.005
    ensures 67108864.0 / (6500.0 * 1000000.0) <= 0.011
  {
  }

  /** A configuration that is valid and not economical: at 6500 MB/s the policy recomputes a prompt
      of 64 tokens and migrates one of 128. */
  lemma RisingTableCrossesBack()
    ensures Applicable(RisingConfig()) && !Economical(Keys(RisingConfig()), Values(RisingConfig()))
    ensures Chosen(64, 6500.0, RisingConfig()) == Recompute
    ensures Chosen(128, 6500.0, RisingConfig()) == Migrate
    ensures !CrossesOnce(RisingConfig())
  {
    RisingApplies();
    RisingChoices();
  }

  lemma RisingChoices()
    ensures Chosen(64, 6500.0, RisingConfig()) == Recompute
    ensures Chosen(128, 6500.0, RisingConfig()) == Migrate
  {
    RisingSizes();
    RisingCosts();
    RisingTransfers();
    assert CostOfMigration(33554432, 6500.0) == Finite(33554432.0 / (6500.0 * 1000000.0));
    assert CostOfMigration(67108864, 6500.0) == Finite(67108864.0 / (6500.0 * 1000000.0));
  }
}
