/** Placement groups (distserve/engine.py) and the assignment of pipeline stages to them
    (distserve/single_stage_engine.py). */
module Placement {
  import opened Common
  import opened Quotients

  predicate Divides(d: nat, n: nat) { d > 0 && n % d == 0 }

  predicate CommonMultiple(a: nat, b: nat, m: nat) { m > 0 && Divides(a, m) && Divides(b, m) }

  /** math.lcm on positive arguments, found by counting up from m. */
  function LcmFrom(a: nat, b: nat, m: nat): (r: nat)
    requires a > 0 && b > 0 && 0 < m <= a * b
    ensures CommonMultiple(a, b, r) && m <= r <= a * b
    ensures forall k :: m <= k < r ==> !CommonMultiple(a, b, k)
    decreases a * b - m
  {
    if CommonMultiple(a, b, m) then m
    else
      ProductIsCommon(a, b);
      LcmFrom(a, b, m + 1)
  }

  lemma ProductIsCommon(a: nat, b: nat)
    requires a > 0 && b > 0
    ensures CommonMultiple(a, b, a * b)
  {
    MultipleDivides(a, b);
    MultipleDivides(b, a);
  }

  lemma MultipleDivides(d: nat, q: nat)
    requires d > 0
    ensures (d * q) % d == 0 && (q * d) % d == 0 && (q * d) / d == q
  {
    QuotientUnique(q * d, d, q, 0);
  }

  function Lcm(a: nat, b: nat): (r: nat)
    requires a > 0 && b > 0
    ensures CommonMultiple(a, b, r)
    ensures forall k :: 0 < k < r ==> !CommonMultiple(a, b, k)
  {
    ProductIsCommon(a, b);
    Bounded(a, b);
    assert a * b >= 1;
    LcmFrom(a, b, 1)
  }

  /** The least common multiple divides every other one. */
  lemma LcmDivides(a: nat, b: nat, n: nat)
    requires a > 0 && b > 0 && CommonMultiple(a, b, n)
    ensures n % Lcm(a, b) == 0
  {
    var g := Lcm(a, b);
    var r := n % g;
    RemainderDivisible(n, g, a);
    RemainderDivisible(n, g, b);
    if r > 0 {
      assert CommonMultiple(a, b, r);
    }
  }

  lemma RemainderDivisible(n: nat, g: nat, a: nat)
    requires a > 0 && g > 0 && n % a == 0 && g % a == 0
    ensures (n % g) % a == 0
  {
    var q := n / g;
    assert n % g == n - q * g;
    assert n == (n / a) * a && g == (g / a) * a;
    assert q * g == (q * (g / a)) * a;
    assert n % g == (n / a - q * (g / a)) * a;
    var x := n / a - q * (g / a);
    NonNegativeFactor(x, a);
    QuotientUnique(x * a, a, x, 0);
  }

  lemma NonNegativeFactor(x: int, a: nat)
    requires a > 0 && x * a >= 0
    ensures x >= 0
  {
    Bounded(-x, a);
    assert (-x) * a == -(x * a);
  }

  // ---------------------------------------------------------------- the layout

  datatype Parallel = Parallel(pp: nat, tp: nat)

  datatype Layout = Layout(layers: nat, context: Parallel, decoding: Parallel) {
    /** What get_num_layers asserts: both pipelines split the layers evenly. */
    predicate Valid() {
      layers > 0 && Divides(context.pp, layers) && Divides(decoding.pp, layers)
    }

    function LayersPerStage(p: Parallel): (n: nat)
      requires layers > 0 && Divides(p.pp, layers)
      ensures n > 0 && n * p.pp == layers
    {
      StagePositive(layers, p.pp);
      layers / p.pp
    }

    function LayersPerGroup(): (g: nat)
      requires Valid()
      ensures g > 0
    {
      Lcm(LayersPerStage(context), LayersPerStage(decoding))
    }

    function WorkersPerGroup(): nat
      requires Valid()
    {
      LayersPerGroup() / LayersPerStage(context) * context.tp
      + LayersPerGroup() / LayersPerStage(decoding) * decoding.tp
    }

    function NumGroups(): nat
      requires Valid()
    {
      layers / LayersPerGroup()
    }
  }

  lemma StagePositive(layers: nat, pp: nat)
    requires layers > 0 && Divides(pp, layers)
    ensures layers / pp > 0 && (layers / pp) * pp == layers
  {
    assert layers == (layers / pp) * pp;
  }

  /** The arithmetic behind the layout: a group is m whole stages, the model is n whole groups. */
  lemma Factors(y: Layout, p: Parallel) returns (m: nat)
    requires y.Valid() && (p == y.context || p == y.decoding)
    ensures m > 0 && y.LayersPerGroup() == m * y.LayersPerStage(p)
    ensures y.LayersPerGroup() / y.LayersPerStage(p) == m
    ensures y.NumGroups() > 0 && y.layers == y.NumGroups() * y.LayersPerGroup()
    ensures p.pp == y.NumGroups() * m
    ensures y.layers / y.NumGroups() == y.LayersPerGroup()
  {
    var a, b, g := y.LayersPerStage(y.context), y.LayersPerStage(y.decoding), y.LayersPerGroup();
    MultipleDivides(a, y.context.pp);
    MultipleDivides(b, y.decoding.pp);
    LcmDivides(a, b, y.layers);
    assert Divides(y.LayersPerStage(p), g);
    m := WholeGroups(y.layers, y.LayersPerStage(p), g, p.pp);
  }

  lemma WholeGroups(layers: nat, l: nat, g: nat, pp: nat) returns (m: nat)
    requires layers > 0 && l > 0 && g > 0 && layers == l * pp && g % l == 0 && layers % g == 0
    ensures m == g / l && m > 0 && g == m * l
    ensures layers / g > 0 && layers == (layers / g) * g && pp == (layers / g) * m
    ensures layers / (layers / g) == g
  {
    m := g / l;
    var n := layers / g;
    assert g == m * l && layers == n * g;
    CancelFactor(n, m, l, pp, layers);
    MultipleDivides(n, g);
  }

  lemma CancelFactor(n: nat, m: nat, l: nat, pp: nat, layers: nat)
    requires l > 0 && layers == l * pp && layers == n * (m * l)
    ensures pp == n * m
  {
    assert n * (m * l) == (n * m) * l;
    MultipleDivides(l, n * m);
    MultipleDivides(l, pp);
  }

  /** The assertion of _init_placement_groups always holds. */
  lemma WorkerCount(y: Layout)
    requires y.Valid()
    ensures y.NumGroups() * y.WorkersPerGroup() == y.context.pp * y.context.tp + y.decoding.pp * y.decoding.tp
  {
    var m := Factors(y, y.context);
    var k := Factors(y, y.decoding);
    Distribute(y.NumGroups(), m, y.context.tp, k, y.decoding.tp);
  }

  lemma Distribute(n: nat, m: nat, s: nat, k: nat, t: nat)
    ensures n * (m * s + k * t) == (n * m) * s + (n * k) * t
  {
  }

  // ---------------------------------------------------------------- stages to groups

  function StagesPerGroup(y: Layout, p: Parallel, numGroups: nat): Option<int>
    requires y.layers > 0 && Divides(p.pp, y.layers)
  {
    if numGroups == 0 then None else Some((y.layers / numGroups) / y.LayersPerStage(p))
  }

  /** The arithmetic of _init_workers for stage i, given the number of groups there are; None
      where it would divide by zero. */
  function StageGroup(y: Layout, p: Parallel, numGroups: nat, i: nat): Option<int>
    requires y.layers > 0 && Divides(p.pp, y.layers)
  {
    match StagesPerGroup(y, p, numGroups)
    case None => None
    case Some(m) => if m == 0 then None else Some(i / m)
  }

  function StageOfLayer(y: Layout, p: Parallel, layer: nat): nat
    requires y.layers > 0 && Divides(p.pp, y.layers)
  {
    layer / y.LayersPerStage(p)
  }

  lemma Regroup(q: int, m: int, r: int, l: int, t: int)
    ensures (q * m + r) * l + t == q * (m * l) + (r * l + t)
  {
  }

  lemma RemainderBelow(r: nat, l: nat, t: nat, m: nat)
    requires r < m && t < l
    ensures 0 <= r * l + t < m * l
  {
    NonNegativeProduct(r, l);
    Bounded(m - r, l);
    assert (m - r) * l == m * l - r * l;
  }

  lemma ChainQuotient(x: nat, l: nat, m: nat, s: nat, t: nat, q: nat, r: nat)
    requires x == s * l + t && s == q * m + r && r < m && t < l
    ensures m * l > 0 && x / (m * l) == q
  {
    Bounded(m, l);
    Regroup(q, m, r, l, t);
    RemainderBelow(r, l, t, m);
    QuotientUnique(x, m * l, q, r * l + t);
  }

  lemma NestedQuotient(x: nat, l: nat, m: nat)
    requires l > 0 && m > 0
    ensures m * l > 0 && (x / l) / m == x / (m * l)
  {
    var s, t := x / l, x % l;
    var q, r := s / m, s % m;
    ChainQuotient(x, l, m, s, t, q, r);
  }

  lemma NonNegativeProduct(r: nat, l: nat)
    ensures r * l >= 0
  {
  }

  lemma GroupStages(y: Layout, p: Parallel) returns (m: nat)
    requires y.Valid() && (p == y.context || p == y.decoding)
    ensures m > 0 && StagesPerGroup(y, p, y.NumGroups()) == Some(m)
    ensures y.LayersPerGroup() == m * y.LayersPerStage(p) && y.layers == y.NumGroups() * y.LayersPerGroup()
  {
    m := Factors(y, p);
  }

  lemma StageGroupIs(y: Layout, p: Parallel, i: nat, m: nat)
    requires y.Valid() && (p == y.context || p == y.decoding)
    requires m > 0 && StagesPerGroup(y, p, y.NumGroups()) == Some(m)
    ensures StageGroup(y, p, y.NumGroups(), i) == Some(i / m)
  {
  }

  lemma LayerQuotients(y: Layout, p: Parallel, layer: nat, m: nat)
    requires y.Valid() && (p == y.context || p == y.decoding) && layer < y.layers
    requires m > 0 && y.LayersPerGroup() == m * y.LayersPerStage(p)
    requires y.layers == y.NumGroups() * y.LayersPerGroup()
    ensures StageOfLayer(y, p, layer) < p.pp
    ensures StageOfLayer(y, p, layer) / m == layer / y.LayersPerGroup() < y.NumGroups()
  {
    AlignedQuotients(y.layers, layer, y.LayersPerStage(p), m, y.LayersPerGroup(), y.NumGroups(), p.pp);
  }

  /** Layer alignment: a layer sits in the same placement group in both engines, namely its index
      divided by the layers per group, and that group exists. */
  lemma LayersAligned(y: Layout, p: Parallel, layer: nat)
    requires y.Valid() && (p == y.context || p == y.decoding) && layer < y.layers
    ensures StageOfLayer(y, p, layer) < p.pp
    ensures StageGroup(y, p, y.NumGroups(), StageOfLayer(y, p, layer)) == Some(layer / y.LayersPerGroup())
    ensures layer / y.LayersPerGroup() < y.NumGroups()
  {
    var m := GroupStages(y, p);
    LayerQuotients(y, p, layer, m);
    StageGroupIs(y, p, StageOfLayer(y, p, layer), m);
  }

  lemma AlignedQuotients(layers: nat, layer: nat, l: nat, m: nat, g: nat, n: nat, pp: nat)
    requires l > 0 && m > 0 && g == m * l && layers == n * g && layers == l * pp && layer < layers
    ensures g > 0 && layer / l < pp && (layer / l) / m == layer / g < n
  {
    NestedQuotient(layer, l, m);
    QuotientBelow(layer, l, pp);
    QuotientBelow(layer, g, n);
  }

  // ---------------------------------------------------------------- stages per group

  /** How many of the first n stages go to group k, when a group takes m stages. */
  function CountInGroup(n: nat, m: nat, k: nat): nat
    requires m > 0
  {
    if n == 0 then 0 else CountInGroup(n - 1, m, k) + (if (n - 1) / m == k then 1 else 0)
  }

  /** Stages fill the groups in order: after n of them group k has min(max(n - k m, 0), m). */
  lemma {:induction false} CountIs(n: nat, m: nat, k: nat)
    requires m > 0
    ensures CountInGroup(n, m, k) == if n <= k * m then 0 else if n >= k * m + m then m else n - k * m
  {
    if n > 0 {
      CountIs(n - 1, m, k);
      InGroup(n - 1, m, k);
    }
  }

  lemma InGroup(i: nat, m: nat, k: nat)
    requires m > 0
    ensures i / m == k <==> k * m <= i < k * m + m
  {
    assert i == i / m * m + i % m;
    if k * m <= i < k * m + m {
      QuotientUnique(i, m, k, i - k * m);
    }
  }

  /** Every group receives exactly workers_per_placement_group workers, both engines together. */
  lemma GroupsAreFull(y: Layout, k: nat)
    requires y.Valid() && k < y.NumGroups()
    ensures y.LayersPerGroup() / y.LayersPerStage(y.context) > 0
    ensures y.LayersPerGroup() / y.LayersPerStage(y.decoding) > 0
    ensures CountInGroup(y.context.pp, y.LayersPerGroup() / y.LayersPerStage(y.context), k) * y.context.tp
          + CountInGroup(y.decoding.pp, y.LayersPerGroup() / y.LayersPerStage(y.decoding), k) * y.decoding.tp
         == y.WorkersPerGroup()
  {
    var m := Factors(y, y.context);
    FullGroup(y.NumGroups(), m, k);
    var j := Factors(y, y.decoding);
    FullGroup(y.NumGroups(), j, k);
  }

  lemma FullGroup(n: nat, m: nat, k: nat)
    requires m > 0 && k < n
    ensures CountInGroup(n * m, m, k) == m
  {
    CountIs(n * m, m, k);
    Bounded(n - k, m);
    assert (n - k) * m == n * m - k * m;
  }

  // ---------------------------------------------------------------- the loops

  /** _init_placement_groups: one entry per group, the number of GPU bundles it asks for. */
  method InitPlacementGroups(y: Layout) returns (groups: seq<nat>)
    requires y.Valid()
    ensures |groups| == y.NumGroups()
    ensures forall k :: 0 <= k < |groups| ==> groups[k] == y.WorkersPerGroup()
    ensures |groups| * y.WorkersPerGroup() == y.context.pp * y.context.tp + y.decoding.pp * y.decoding.tp
  {
    WorkerCount(y);
    var numGroups, workersPerGroup := y.NumGroups(), y.WorkersPerGroup();
    groups := [];
    for i := 0 to numGroups
      invariant |groups| == i
      invariant forall k :: 0 <= k < i ==> groups[k] == workersPerGroup
    {
      groups := groups + [workersPerGroup];
    }
  }

  /** _init_workers: for every worker, stage by stage, the group it is scheduled on. */
  method InitWorkers(y: Layout, p: Parallel, numGroups: nat) returns (workers: seq<seq<int>>)
    requires y.Valid() && (p == y.context || p == y.decoding) && numGroups == y.NumGroups()
    ensures |workers| == p.pp
    ensures forall i :: 0 <= i < p.pp ==> |workers[i]| == p.tp
    ensures forall i, j :: 0 <= i < p.pp && 0 <= j < p.tp ==>
              0 <= workers[i][j] < numGroups && StageGroup(y, p, numGroups, i) == Some(workers[i][j])
  {
    var m := Factors(y, p);
    var stagesPerGroup := StagesPerGroup(y, p, numGroups).value;
    workers := [];
    for i := 0 to p.pp
      invariant |workers| == i
      invariant forall a :: 0 <= a < i ==> |workers[a]| == p.tp
      invariant forall a, j :: 0 <= a < i && 0 <= j < p.tp ==>
                  0 <= workers[a][j] < numGroups && StageGroup(y, p, numGroups, a) == Some(workers[a][j])
    {
      var group := StageOnGroup(y, p, numGroups, i);
      workers := workers + [seq(p.tp, _ => group)];
    }
  }

  method StageOnGroup(y: Layout, p: Parallel, numGroups: nat, i: nat) returns (group: int)
    requires y.Valid() && (p == y.context || p == y.decoding) && numGroups == y.NumGroups() && i < p.pp
    ensures 0 <= group < numGroups && StageGroup(y, p, numGroups, i) == Some(group)
  {
    var m := Factors(y, p);
    QuotientBelow(i, m, numGroups);
    group := i / StagesPerGroup(y, p, numGroups).value;
  }
}
