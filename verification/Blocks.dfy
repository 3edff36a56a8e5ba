/**
 Planning the prediction blocks: which samples may support the predictions of a block, and which queries belong to it.
 Everything a block may learn from was known before the block began.
 */
module Blocks {
  import opened Domain

  type Day = int
  type Ticker = nat

  /** The day a label becomes known, and the net return that decides it. */
  datatype Forward = Forward(day: Day, ret: real)

  datatype Sample = Sample(ticker: Ticker, day: Day, x: seq<real>, liquid: bool, fwd: map<nat, Forward>)
  {
    predicate Labeled(horizon: nat) {
      horizon in fwd
    }

    function LabelDay(horizon: nat): Day
      requires Labeled(horizon)
    {
      fwd[horizon].day
    }

    function IsUp(horizon: nat): bool
      requires Labeled(horizon)
    {
      fwd[horizon].ret > 0.0
    }

    function Key(): (Ticker, Day) {
      (ticker, day)
    }
  }

  /** Support [lo, hi) in label-day order, and the queries of the block. */
  datatype BlockPlan = BlockPlan(block: Day, lo: nat, hi: nat, queries: seq<Sample>)

  datatype Limits = Limits(maxSupport: nat, minSupport: nat, minClass: nat)

  predicate AllLabeled(xs: seq<Sample>, horizon: nat) {
    forall i :: 0 <= i < |xs| ==> xs[i].Labeled(horizon)
  }

  // ------------------------------------------------------------------
  // Sorting by label day
  // ------------------------------------------------------------------

  predicate ByLabelDay(xs: seq<Sample>, horizon: nat)
    requires AllLabeled(xs, horizon)
  {
    forall i, j :: 0 <= i < j < |xs| ==> xs[i].LabelDay(horizon) <= xs[j].LabelDay(horizon)
  }

  /** Put a sample behind those of the same or an earlier label day. */
  function Inserted(xs: seq<Sample>, s: Sample, horizon: nat): (r: seq<Sample>)
    requires AllLabeled(xs, horizon) && s.Labeled(horizon)
    ensures AllLabeled(r, horizon) && |r| == |xs| + 1
  {
    if xs == [] then [s] else
    var n := |xs| - 1;
    if xs[n].LabelDay(horizon) <= s.LabelDay(horizon) then xs + [s] else Inserted(xs[..n], s, horizon) + [xs[n]]
  }

  /** The labeled samples of the pool, sorted by label day. */
  function LabeledByDay(pool: seq<Sample>, horizon: nat): (r: seq<Sample>)
    ensures AllLabeled(r, horizon)
  {
    if pool == [] then [] else
    var n := |pool| - 1;
    var before := LabeledByDay(pool[..n], horizon);
    if pool[n].Labeled(horizon) then Inserted(before, pool[n], horizon) else before
  }

  /** The samples with the given label day, in order. */
  function OfLabelDay(xs: seq<Sample>, horizon: nat, d: Day): seq<Sample> {
    if xs == [] then [] else
    var n := |xs| - 1;
    OfLabelDay(xs[..n], horizon, d) + if xs[n].Labeled(horizon) && xs[n].LabelDay(horizon) == d then [xs[n]] else []
  }

  lemma OfLabelDayAppend(xs: seq<Sample>, s: Sample, horizon: nat, d: Day)
    ensures OfLabelDay(xs + [s], horizon, d)
         == OfLabelDay(xs, horizon, d) + if s.Labeled(horizon) && s.LabelDay(horizon) == d then [s] else []
  {
    assert (xs + [s])[..|xs|] == xs;
  }

  lemma {:induction false} InsertedKeepsDays(xs: seq<Sample>, s: Sample, horizon: nat, d: Day)
    requires AllLabeled(xs, horizon) && s.Labeled(horizon)
    ensures OfLabelDay(Inserted(xs, s, horizon), horizon, d) == OfLabelDay(xs + [s], horizon, d)
  {
    if xs == [] {
      assert xs + [s] == [s];
    } else {
      var (ys, y) := (xs[..|xs| - 1], xs[|xs| - 1]);
      assert xs == ys + [y];
      InsertedKeepsDays(ys, s, horizon, d);
      hide OfLabelDay;
      if y.LabelDay(horizon) > s.LabelDay(horizon) {
        OvertakenKeepsDays(ys, y, s, Inserted(ys, s, horizon), horizon, d);
      }
    }
  }

  /** A sample that overtakes one of a later label day changes no day's order. */
  lemma OvertakenKeepsDays(ys: seq<Sample>, y: Sample, s: Sample, front: seq<Sample>, horizon: nat, d: Day)
    requires y.Labeled(horizon) && s.Labeled(horizon) && y.LabelDay(horizon) > s.LabelDay(horizon)
    requires OfLabelDay(front, horizon, d) == OfLabelDay(ys + [s], horizon, d)
    ensures OfLabelDay(front + [y], horizon, d) == OfLabelDay(ys + [y] + [s], horizon, d)
  {
    hide OfLabelDay;
    OfLabelDayAppend(front, y, horizon, d);
    OfLabelDayAppend(ys, s, horizon, d);
    OfLabelDayAppend(ys, y, horizon, d);
    OfLabelDayAppend(ys + [y], s, horizon, d);
  }

  lemma {:induction false} InsertedIsSorted(xs: seq<Sample>, s: Sample, horizon: nat)
    requires AllLabeled(xs, horizon) && s.Labeled(horizon) && ByLabelDay(xs, horizon)
    ensures ByLabelDay(Inserted(xs, s, horizon), horizon)
    ensures forall x :: x in Inserted(xs, s, horizon) ==> x == s || x in xs
  {
    if xs != [] {
      var n := |xs| - 1;
      if xs[n].LabelDay(horizon) > s.LabelDay(horizon) {
        InsertedIsSorted(xs[..n], s, horizon);
        var front := Inserted(xs[..n], s, horizon);
        forall i | 0 <= i < |front|
          ensures front[i].LabelDay(horizon) <= xs[n].LabelDay(horizon)
        {
          assert front[i] in front;
        }
      }
    }
  }

  /** A stable sort of the labeled samples: ascending, and per label day the pool's own samples in the pool's own order. */
  lemma {:induction false} LabeledIsStableSort(pool: seq<Sample>, horizon: nat)
    ensures ByLabelDay(LabeledByDay(pool, horizon), horizon)
    ensures forall d :: OfLabelDay(LabeledByDay(pool, horizon), horizon, d) == OfLabelDay(pool, horizon, d)
  {
    if pool != [] {
      var n := |pool| - 1;
      LabeledIsStableSort(pool[..n], horizon);
      if pool[n].Labeled(horizon) {
        var before := LabeledByDay(pool[..n], horizon);
        InsertedIsSorted(before, pool[n], horizon);
        forall d
          ensures OfLabelDay(Inserted(before, pool[n], horizon), horizon, d) == OfLabelDay(pool, horizon, d)
        {
          InsertedKeepsDays(before, pool[n], horizon, d);
          OfLabelDayAppend(before, pool[n], horizon, d);
        }
      }
    }
  }

  // ------------------------------------------------------------------
  // Bisection on ascending lists
  // ------------------------------------------------------------------

  /** bisect_left on label days: how many labels are known strictly before b. */
  function KnownBefore(labeled: seq<Sample>, horizon: nat, b: Day): (hi: nat)
    requires AllLabeled(labeled, horizon)
    ensures hi <= |labeled|
  {
    if labeled == [] then 0
    else if labeled[|labeled| - 1].LabelDay(horizon) < b then |labeled|
    else KnownBefore(labeled[..|labeled| - 1], horizon, b)
  }

  lemma {:induction false} KnownBeforeSplits(labeled: seq<Sample>, horizon: nat, b: Day)
    requires AllLabeled(labeled, horizon) && ByLabelDay(labeled, horizon)
    ensures var hi := KnownBefore(labeled, horizon, b);
      forall i :: 0 <= i < |labeled| ==> (labeled[i].LabelDay(horizon) < b <==> i < hi)
  {
    if labeled != [] {
      var n := |labeled| - 1;
      KnownBeforeSplits(labeled[..n], horizon, b);
    }
  }

  predicate Ascending(blocks: seq<Day>) {
    forall i, j :: 0 <= i < j < |blocks| ==> blocks[i] < blocks[j]
  }

  /** bisect_right on block starts: how many blocks have started by d. */
  function StartedBy(blocks: seq<Day>, d: Day): (k: nat)
    ensures k <= |blocks|
  {
    if blocks == [] then 0
    else if blocks[|blocks| - 1] <= d then |blocks|
    else StartedBy(blocks[..|blocks| - 1], d)
  }

  lemma {:induction false} StartedBySplits(blocks: seq<Day>, d: Day)
    requires Ascending(blocks)
    ensures forall i :: 0 <= i < |blocks| ==> (blocks[i] <= d <==> i < StartedBy(blocks, d))
  {
    if blocks != [] {
      StartedBySplits(blocks[..|blocks| - 1], d);
    }
  }

  /** The block a day falls in. */
  function BlockOf(blocks: seq<Day>, d: Day): Option<Day> {
    var k := StartedBy(blocks, d);
    if k == 0 then None else Some(blocks[k - 1])
  }

  /** The queries of a block, in order. */
  function QueriesOf(queries: seq<Sample>, blocks: seq<Day>, b: Day): seq<Sample> {
    if queries == [] then [] else
    var n := |queries| - 1;
    QueriesOf(queries[..n], blocks, b) + if BlockOf(blocks, queries[n].day) == Some(b) then [queries[n]] else []
  }

  // ------------------------------------------------------------------
  // The plan
  // ------------------------------------------------------------------

  function Ups(xs: seq<Sample>, horizon: nat): (n: nat)
    requires AllLabeled(xs, horizon)
    ensures n <= |xs|
  {
    if xs == [] then 0
    else Ups(xs[..|xs| - 1], horizon) + if xs[|xs| - 1].IsUp(horizon) then 1 else 0
  }

  function SupportLo(hi: nat, max: nat): nat {
    if hi > max then hi - max else 0
  }

  /** Large enough, with enough of both classes. */
  predicate Sufficient(support: seq<Sample>, horizon: nat, limits: Limits)
    requires AllLabeled(support, horizon)
  {
    && |support| >= limits.minSupport
    && Ups(support, horizon) >= limits.minClass && |support| - Ups(support, horizon) >= limits.minClass
  }

  function PlanOf(labeled: seq<Sample>, horizon: nat, qs: seq<Sample>, b: Day, limits: Limits): Option<BlockPlan>
    requires AllLabeled(labeled, horizon)
  {
    var hi := KnownBefore(labeled, horizon, b);
    var lo := SupportLo(hi, limits.maxSupport);
    if qs == [] || !Sufficient(labeled[lo..hi], horizon, limits) then None else Some(BlockPlan(b, lo, hi, qs))
  }

  function Plans(labeled: seq<Sample>, horizon: nat, queries: seq<Sample>, blocks: seq<Day>, n: nat, limits: Limits): seq<BlockPlan>
    requires AllLabeled(labeled, horizon) && n <= |blocks|
  {
    if n == 0 then [] else
    var p := PlanOf(labeled, horizon, QueriesOf(queries, blocks, blocks[n - 1]), blocks[n - 1], limits);
    Plans(labeled, horizon, queries, blocks, n - 1, limits) + if p.Some? then [p.value] else []
  }

  /** What the planner returns: the support in label-day order and the plans; no plans without labeled samples. */
  function Planned(pool: seq<Sample>, queries: seq<Sample>, horizon: nat, blocks: seq<Day>, limits: Limits): (seq<Sample>, seq<BlockPlan>) {
    var labeled := LabeledByDay(pool, horizon);
    (labeled, if labeled == [] then [] else Plans(labeled, horizon, queries, blocks, |blocks|, limits))
  }

  /** The queries grouped so far. */
  ghost predicate Grouped(byBlock: map<Day, seq<Sample>>, queries: seq<Sample>, blocks: seq<Day>) {
    forall b :: QueriesOf(queries, blocks, b) == if b in byBlock then byBlock[b] else []
  }

  method GroupByBlock(queries: seq<Sample>, blocks: seq<Day>) returns (byBlock: map<Day, seq<Sample>>)
    ensures Grouped(byBlock, queries, blocks)
  {
    byBlock := map[];
    for i := 0 to |queries|
      invariant Grouped(byBlock, queries[..i], blocks)
    {
      assert queries[..i + 1][..i] == queries[..i];
      var k := StartedBy(blocks, queries[i].day);
      if k > 0 {
        var b := blocks[k - 1];
        byBlock := byBlock[b := (if b in byBlock then byBlock[b] else []) + [queries[i]]];
      }
    }
    assert queries[..|queries|] == queries;
  }

  method CountUps(xs: seq<Sample>, horizon: nat) returns (pos: nat)
    requires AllLabeled(xs, horizon)
    ensures pos == Ups(xs, horizon)
  {
    pos := 0;
    for i := 0 to |xs|
      invariant AllLabeled(xs[..i], horizon) && pos == Ups(xs[..i], horizon)
    {
      assert xs[..i + 1][..i] == xs[..i];
      pos := pos + if xs[i].IsUp(horizon) then 1 else 0;
    }
    assert xs[..|xs|] == xs;
  }

  lemma PlansNext(labeled: seq<Sample>, horizon: nat, queries: seq<Sample>, blocks: seq<Day>, k: nat, limits: Limits)
    requires AllLabeled(labeled, horizon) && k < |blocks|
    ensures var p := PlanOf(labeled, horizon, QueriesOf(queries, blocks, blocks[k]), blocks[k], limits);
      Plans(labeled, horizon, queries, blocks, k + 1, limits)
      == Plans(labeled, horizon, queries, blocks, k, limits) + if p.Some? then [p.value] else []
  {
    hide PlanOf, QueriesOf;
  }

  method PlanBlock(labeled: seq<Sample>, horizon: nat, qs: seq<Sample>, b: Day, limits: Limits) returns (p: Option<BlockPlan>)
    requires AllLabeled(labeled, horizon)
    ensures p == PlanOf(labeled, horizon, qs, b, limits)
  {
    if qs == [] {
      return None;
    }
    var hi := KnownBefore(labeled, horizon, b);
    var lo := if hi > limits.maxSupport then hi - limits.maxSupport else 0;
    var pos := CountUps(labeled[lo..hi], horizon);
    if hi - lo < limits.minSupport || pos < limits.minClass || hi - lo - pos < limits.minClass {
      return None;
    }
    p := Some(BlockPlan(b, lo, hi, qs));
  }

  method PlanBlocks(pool: seq<Sample>, queries: seq<Sample>, horizon: nat, blocks: seq<Day>, limits: Limits)
    returns (labeled: seq<Sample>, plans: seq<BlockPlan>)
    ensures (labeled, plans) == Planned(pool, queries, horizon, blocks, limits)
  {
    labeled, plans := LabeledByDay(pool, horizon), [];
    if labeled == [] {
      return;
    }
    var byBlock := GroupByBlock(queries, blocks);
    for k := 0 to |blocks|
      invariant plans == Plans(labeled, horizon, queries, blocks, k, limits)
    {
      PlansNext(labeled, horizon, queries, blocks, k, limits);
      hide LabeledByDay, PlanOf, QueriesOf, Plans, AllLabeled;
      var b := blocks[k];
      var p := PlanBlock(labeled, horizon, if b in byBlock then byBlock[b] else [], b, limits);
      if p.Some? {
        plans := plans + [p.value];
      }
    }
  }

  // ------------------------------------------------------------------
  // No look-ahead
  // ------------------------------------------------------------------

  /** A block learns only from labels known before it starts, and uses the most recent of them. */
  ghost predicate SeesOnlyThePast(p: BlockPlan, labeled: seq<Sample>, horizon: nat, limits: Limits)
    requires AllLabeled(labeled, horizon)
  {
    && p.lo <= p.hi <= |labeled| && p.hi - p.lo <= limits.maxSupport
    && (forall i :: p.lo <= i < p.hi ==> labeled[i].LabelDay(horizon) < p.block)
    && (forall q :: q in p.queries ==> p.block <= q.day)
    && (forall i :: p.hi <= i < |labeled| ==> p.block <= labeled[i].LabelDay(horizon))
    && (p.lo > 0 ==> p.hi - p.lo == limits.maxSupport)
    && (forall i, j :: 0 <= i < p.lo <= j < p.hi ==> labeled[i].LabelDay(horizon) <= labeled[j].LabelDay(horizon))
    && Sufficient(labeled[p.lo..p.hi], horizon, limits)
  }

  lemma {:induction false} QueriesAreInBlock(queries: seq<Sample>, blocks: seq<Day>, k: nat)
    requires Ascending(blocks) && k < |blocks|
    ensures forall q :: q in QueriesOf(queries, blocks, blocks[k]) <==>
      q in queries && blocks[k] <= q.day && (k + 1 < |blocks| ==> q.day < blocks[k + 1])
  {
    if queries != [] {
      var n := |queries| - 1;
      QueriesAreInBlock(queries[..n], blocks, k);
      BlockOfIs(blocks, queries[n].day, k);
      assert queries == queries[..n] + [queries[n]];
    }
  }

  /** A day is in the block that started last; before the first block it is in none. */
  lemma BlockOfIs(blocks: seq<Day>, d: Day, k: nat)
    requires Ascending(blocks) && k < |blocks|
    ensures BlockOf(blocks, d) == Some(blocks[k]) <==> blocks[k] <= d && (k + 1 < |blocks| ==> d < blocks[k + 1])
    ensures BlockOf(blocks, d) == None ==> d < blocks[0]
  {
    StartedBySplits(blocks, d);
    var n := StartedBy(blocks, d);
    assert n > 0 && blocks[n - 1] == blocks[k] ==> n - 1 == k;
  }

  lemma {:induction false} PlansAre(
    labeled: seq<Sample>, horizon: nat, queries: seq<Sample>, blocks: seq<Day>, n: nat, limits: Limits, p: BlockPlan)
    requires AllLabeled(labeled, horizon) && n <= |blocks|
    ensures p in Plans(labeled, horizon, queries, blocks, n, limits) <==>
      exists k :: 0 <= k < n && PlanOf(labeled, horizon, QueriesOf(queries, blocks, blocks[k]), blocks[k], limits) == Some(p)
    decreases n
  {
    hide PlanOf, QueriesOf;
    if n > 0 {
      PlansAre(labeled, horizon, queries, blocks, n - 1, limits, p);
    }
  }

  /** No look-ahead, for every pool, every query list and every planned block. */
  lemma NoLookAhead(pool: seq<Sample>, queries: seq<Sample>, horizon: nat, blocks: seq<Day>, limits: Limits, p: BlockPlan)
    requires Ascending(blocks) && p in Planned(pool, queries, horizon, blocks, limits).1
    ensures SeesOnlyThePast(p, LabeledByDay(pool, horizon), horizon, limits)
  {
    var labeled := LabeledByDay(pool, horizon);
    PlansAre(labeled, horizon, queries, blocks, |blocks|, limits, p);
    var k :| 0 <= k < |blocks| && PlanOf(labeled, horizon, QueriesOf(queries, blocks, blocks[k]), blocks[k], limits) == Some(p);
    LabeledIsStableSort(pool, horizon);
    KnownBeforeSplits(labeled, horizon, blocks[k]);
    QueriesAreInBlock(queries, blocks, k);
  }

  /** A planned block holds exactly the queries from its start up to the next block's, in order. */
  lemma PlannedBlockIsWhole(
    pool: seq<Sample>, queries: seq<Sample>, horizon: nat, blocks: seq<Day>, limits: Limits, p: BlockPlan) returns (k: nat)
    requires Ascending(blocks) && p in Planned(pool, queries, horizon, blocks, limits).1
    ensures k < |blocks| && p.block == blocks[k] && p.queries == QueriesOf(queries, blocks, blocks[k])
    ensures forall q :: q in p.queries <==> q in queries && InBlock(blocks, k, q.day)
  {
    var labeled := LabeledByDay(pool, horizon);
    hide LabeledByDay, QueriesOf, Sufficient, Plans;
    PlansAre(labeled, horizon, queries, blocks, |blocks|, limits, p);
    k :| 0 <= k < |blocks| && PlanOf(labeled, horizon, QueriesOf(queries, blocks, blocks[k]), blocks[k], limits) == Some(p);
    QueriesAreInBlock(queries, blocks, k);
  }

  predicate InBlock(blocks: seq<Day>, k: nat, d: Day)
    requires k < |blocks|
  {
    blocks[k] <= d && (k + 1 < |blocks| ==> d < blocks[k + 1])
  }

  predicate FallsIn(queries: seq<Sample>, blocks: seq<Day>, q: Sample, k: nat) {
    k < |blocks| && q in QueriesOf(queries, blocks, blocks[k])
  }

  /** Every query from the first block on falls in exactly one block. */
  lemma EveryQueryInOneBlock(queries: seq<Sample>, blocks: seq<Day>, q: Sample)
    requires Ascending(blocks) && q in queries && |blocks| > 0
    ensures blocks[0] <= q.day ==> exists k: nat :: FallsIn(queries, blocks, q, k)
    ensures forall j: nat, k: nat :: FallsIn(queries, blocks, q, j) && FallsIn(queries, blocks, q, k) ==> j == k
  {
    StartedBySplits(blocks, q.day);
    var n := StartedBy(blocks, q.day);
    if blocks[0] <= q.day {
      QueriesAreInBlock(queries, blocks, n - 1);
      assert FallsIn(queries, blocks, q, n - 1);
    }
    forall j: nat | FallsIn(queries, blocks, q, j)
      ensures j + 1 == n
    {
      QueriesAreInBlock(queries, blocks, j);
    }
  }

  lemma PlannedIff(labeled: seq<Sample>, horizon: nat, queries: seq<Sample>, blocks: seq<Day>, limits: Limits, k: nat)
    requires AllLabeled(labeled, horizon) && Ascending(blocks) && k < |blocks|
    ensures (exists p :: p in Plans(labeled, horizon, queries, blocks, |blocks|, limits) && p.block == blocks[k])
            <==> PlanOf(labeled, horizon, QueriesOf(queries, blocks, blocks[k]), blocks[k], limits).Some?
  {
    hide QueriesOf, Sufficient;
    var plan := PlanOf(labeled, horizon, QueriesOf(queries, blocks, blocks[k]), blocks[k], limits);
    if plan.Some? {
      PlansAre(labeled, horizon, queries, blocks, |blocks|, limits, plan.value);
    }
    forall p | p in Plans(labeled, horizon, queries, blocks, |blocks|, limits) && p.block == blocks[k]
      ensures plan == Some(p)
    {
      PlansAre(labeled, horizon, queries, blocks, |blocks|, limits, p);
    }
  }

  /** A block is planned exactly when it has queries and its most recent support suffices. */
  lemma PlannedExactlyWhen(pool: seq<Sample>, queries: seq<Sample>, horizon: nat, blocks: seq<Day>, limits: Limits, k: nat)
    requires Ascending(blocks) && k < |blocks|
    ensures var (labeled, plans) := Planned(pool, queries, horizon, blocks, limits);
            var hi := KnownBefore(labeled, horizon, blocks[k]);
            (exists p :: p in plans && p.block == blocks[k])
            <==> labeled != [] && (exists q :: q in queries && InBlock(blocks, k, q.day))
                 && Sufficient(labeled[SupportLo(hi, limits.maxSupport)..hi], horizon, limits)
  {
    var labeled := LabeledByDay(pool, horizon);
    hide LabeledByDay, Sufficient, Plans;
    PlannedIff(labeled, horizon, queries, blocks, limits, k);
    QueriesAreInBlock(queries, blocks, k);
    var qs := QueriesOf(queries, blocks, blocks[k]);
    hide QueriesOf;
    assert qs != [] ==> qs[0] in qs;
  }

  predicate InBlockOrder(ps: seq<BlockPlan>) {
    forall i, j :: 0 <= i < j < |ps| ==> ps[i].block < ps[j].block
  }

  /** Plans come in block order, one per block at most. */
  lemma {:induction false} PlansAscend(
    labeled: seq<Sample>, horizon: nat, queries: seq<Sample>, blocks: seq<Day>, n: nat, limits: Limits)
    requires AllLabeled(labeled, horizon) && n <= |blocks| && Ascending(blocks)
    ensures InBlockOrder(Plans(labeled, horizon, queries, blocks, n, limits))
    decreases n
  {
    hide QueriesOf, Sufficient;
    if n > 0 {
      PlansAscend(labeled, horizon, queries, blocks, n - 1, limits);
      var before := Plans(labeled, horizon, queries, blocks, n - 1, limits);
      var p := PlanOf(labeled, horizon, QueriesOf(queries, blocks, blocks[n - 1]), blocks[n - 1], limits);
      assert Plans(labeled, horizon, queries, blocks, n, limits) == before + if p.Some? then [p.value] else [];
      forall i | 0 <= i < |before|
        ensures before[i].block < blocks[n - 1]
      {
        assert before[i] in before;
        PlansAre(labeled, horizon, queries, blocks, n - 1, limits, before[i]);
        var k :| 0 <= k < n - 1
                 && PlanOf(labeled, horizon, QueriesOf(queries, blocks, blocks[k]), blocks[k], limits) == Some(before[i]);
        assert before[i].block == blocks[k];
      }
    }
  }
}
