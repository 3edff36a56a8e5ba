/** Predicting block by block, and picking up an interrupted prediction file where it is still whole. */
module Predictions {
  import opened Domain
  import opened Blocks

  type Features = seq<real>
  type Key = (Ticker, Day)

  /** Sees the support and the features of the queries, nothing else. */
  type Predictor = (seq<Features>, seq<bool>, seq<Features>) -> seq<real>

  ghost predicate OnePerQuery(predict: Predictor) {
    forall xs, ys, xq :: |predict(xs, ys, xq)| == |xq|
  }

  /** One prediction; base is undefined for an empty support, label and return while they are not known. */
  datatype Pred = Pred(
    ticker: Ticker, day: Day, block: Day, p: real, base: Option<real>, nSupport: nat,
    up: Option<bool>, netRet: Option<real>, liquid: bool)
  {
    function Key(): Key {
      (ticker, day)
    }
  }

  predicate Fits(plan: BlockPlan, labeled: seq<Sample>) {
    plan.lo <= plan.hi <= |labeled| && plan.queries != []
  }

  predicate AllFit(plans: seq<BlockPlan>, labeled: seq<Sample>) {
    forall i :: 0 <= i < |plans| ==> Fits(plans[i], labeled)
  }

  function FeaturesOf(xs: seq<Sample>): (r: seq<Features>)
    ensures |r| == |xs|
  {
    seq(|xs|, i requires 0 <= i < |xs| => xs[i].x)
  }

  function LabelsOf(xs: seq<Sample>, horizon: nat): seq<bool>
    requires AllLabeled(xs, horizon)
  {
    seq(|xs|, i requires 0 <= i < |xs| => xs[i].IsUp(horizon))
  }

  function BaseRate(support: seq<Sample>, horizon: nat): Option<real>
    requires AllLabeled(support, horizon)
  {
    if support == [] then None else Some(Ups(support, horizon) as real / |support| as real)
  }

  function RowOf(q: Sample, horizon: nat, block: Day, p: real, base: Option<real>, n: nat): Pred {
    Pred(q.ticker, q.day, block, p, base, n,
         if q.Labeled(horizon) then Some(q.IsUp(horizon)) else None,
         if q.Labeled(horizon) then Some(q.fwd[horizon].ret) else None,
         q.liquid)
  }

  /** The predictions of one block. */
  ghost function BlockRows(labeled: seq<Sample>, horizon: nat, predict: Predictor, plan: BlockPlan): (rows: seq<Pred>)
    requires AllLabeled(labeled, horizon) && Fits(plan, labeled) && OnePerQuery(predict)
    ensures |rows| == |plan.queries|
    ensures forall j :: 0 <= j < |rows| ==> rows[j].block == plan.block && rows[j].Key() == plan.queries[j].Key()
  {
    var support := labeled[plan.lo..plan.hi];
    var p := predict(FeaturesOf(support), LabelsOf(support, horizon), FeaturesOf(plan.queries));
    seq(|plan.queries|, j requires 0 <= j < |plan.queries| =>
      RowOf(plan.queries[j], horizon, plan.block, p[j], BaseRate(support, horizon), plan.hi - plan.lo))
  }

  /** The predictions of all blocks not done yet. */
  ghost function Rows(labeled: seq<Sample>, horizon: nat, predict: Predictor, plans: seq<BlockPlan>, done: set<Day>): seq<Pred>
    requires AllLabeled(labeled, horizon) && AllFit(plans, labeled) && OnePerQuery(predict)
  {
    if plans == [] then [] else
    var n := |plans| - 1;
    Rows(labeled, horizon, predict, plans[..n], done)
    + if plans[n].block in done then [] else BlockRows(labeled, horizon, predict, plans[n])
  }

  lemma PlannedFit(pool: seq<Sample>, queries: seq<Sample>, horizon: nat, blocks: seq<Day>, limits: Limits)
    ensures var (labeled, plans) := Planned(pool, queries, horizon, blocks, limits); AllFit(plans, labeled)
  {
    var labeled := LabeledByDay(pool, horizon);
    var plans := Plans(labeled, horizon, queries, blocks, |blocks|, limits);
    forall i | 0 <= i < |plans|
      ensures Fits(plans[i], labeled)
    {
      assert plans[i] in plans;
      PlansAre(labeled, horizon, queries, blocks, |blocks|, limits, plans[i]);
    }
  }

  method PredictBlock(labeled: seq<Sample>, horizon: nat, predict: Predictor, plan: BlockPlan) returns (rows: seq<Pred>)
    requires AllLabeled(labeled, horizon) && Fits(plan, labeled) && OnePerQuery(predict)
    ensures rows == BlockRows(labeled, horizon, predict, plan)
  {
    var support := labeled[plan.lo..plan.hi];
    var p := predict(FeaturesOf(support), LabelsOf(support, horizon), FeaturesOf(plan.queries));
    var ups := CountUps(support, horizon);
    var base := if support == [] then None else Some(ups as real / |support| as real);
    rows := [];
    for j := 0 to |plan.queries|
      invariant rows == BlockRows(labeled, horizon, predict, plan)[..j]
    {
      rows := rows + [RowOf(plan.queries[j], horizon, plan.block, p[j], base, plan.hi - plan.lo)];
    }
  }

  method WalkForward(pool: seq<Sample>, queries: seq<Sample>, horizon: nat, predict: Predictor, blocks: seq<Day>,
                     done: set<Day>, limits: Limits) returns (out: seq<Pred>)
    requires OnePerQuery(predict)
    ensures var (labeled, plans) := Planned(pool, queries, horizon, blocks, limits);
      AllFit(plans, labeled) && out == Rows(labeled, horizon, predict, plans, done)
  {
    var labeled, plans := PlanBlocks(pool, queries, horizon, blocks, limits);
    PlannedFit(pool, queries, horizon, blocks, limits);
    out := [];
    for i := 0 to |plans|
      invariant out == Rows(labeled, horizon, predict, plans[..i], done)
    {
      hide BlockRows;
      assert plans[..i + 1][..i] == plans[..i];
      if plans[i].block in done {
        continue;
      }
      var rows := PredictBlock(labeled, horizon, predict, plans[i]);
      out := out + rows;
    }
    assert plans[..|plans|] == plans;
  }

  // ------------------------------------------------------------------
  // Which blocks of a file are whole
  // ------------------------------------------------------------------

  function KeysOf(qs: seq<Sample>): set<Key> {
    set q | q in qs :: q.Key()
  }

  /** The keys each planned block should have. */
  function Expected(plans: seq<BlockPlan>): map<Day, set<Key>> {
    if plans == [] then map[] else
    var n := |plans| - 1;
    Expected(plans[..n])[plans[n].block := KeysOf(plans[n].queries)]
  }

  /** The keys a file has for a block, in order. */
  function KeysIn(rows: seq<Pred>, b: Day): seq<Key> {
    if rows == [] then [] else
    var n := |rows| - 1;
    KeysIn(rows[..n], b) + if rows[n].block == b then [rows[n].Key()] else []
  }

  function Elements(keys: seq<Key>): set<Key> {
    set k | k in keys
  }

  /** Neither missing nor doubled nor extra. */
  predicate Exactly(keys: seq<Key>, want: set<Key>) {
    keys != [] && |keys| == |Elements(keys)| && Elements(keys) == want
  }

  function CompleteBlocks(rows: seq<Pred>, expected: map<Day, set<Key>>): set<Day> {
    set b | b in expected && Exactly(KeysIn(rows, b), expected[b])
  }

  predicate IsComplete(rows: seq<Pred>, expected: map<Day, set<Key>>) {
    CompleteBlocks(rows, expected) == expected.Keys && forall i :: 0 <= i < |rows| ==> rows[i].block in expected
  }

  ghost predicate Collected(got: map<Day, seq<Key>>, rows: seq<Pred>) {
    forall b :: KeysIn(rows, b) == if b in got then got[b] else []
  }

  method FindCompleteBlocks(rows: seq<Pred>, expected: map<Day, set<Key>>) returns (done: set<Day>)
    ensures done == CompleteBlocks(rows, expected)
  {
    var got: map<Day, seq<Key>> := map[];
    for i := 0 to |rows|
      invariant Collected(got, rows[..i])
    {
      assert rows[..i + 1][..i] == rows[..i];
      var b := rows[i].block;
      got := got[b := (if b in got then got[b] else []) + [rows[i].Key()]];
    }
    assert rows[..|rows|] == rows;
    done := set b | b in got && b in expected && Exactly(got[b], expected[b]);
  }

  predicate NoTwice(keys: seq<Key>) {
    forall i, j :: 0 <= i < j < |keys| ==> keys[i] != keys[j]
  }

  /** As many distinct keys as keys means no key twice. */
  lemma {:induction false} CountMeansNoTwice(keys: seq<Key>)
    ensures |Elements(keys)| <= |keys|
    ensures |Elements(keys)| == |keys| <==> NoTwice(keys)
  {
    if keys != [] {
      var n := |keys| - 1;
      CountMeansNoTwice(keys[..n]);
      assert keys == keys[..n] + [keys[n]];
      assert Elements(keys) == Elements(keys[..n]) + {keys[n]};
      if keys[n] in keys[..n] {
        assert Elements(keys) == Elements(keys[..n]);
        var i :| 0 <= i < n && keys[i] == keys[n];
        assert !NoTwice(keys);
      } else {
        assert NoTwice(keys) <==> NoTwice(keys[..n]);
      }
    }
  }

  function FullKey(r: Pred): (Day, Key) {
    (r.block, r.Key())
  }

  predicate DistinctRows(rows: seq<Pred>) {
    forall i, j :: 0 <= i < j < |rows| ==> FullKey(rows[i]) != FullKey(rows[j])
  }

  predicate HasKey(rows: seq<Pred>, b: Day, k: Key) {
    exists r :: r in rows && FullKey(r) == (b, k)
  }

  lemma HasKeyAppend(rows: seq<Pred>, last: Pred, b: Day, k: Key)
    ensures HasKey(rows + [last], b, k) <==> HasKey(rows, b, k) || FullKey(last) == (b, k)
  {
    assert last in rows + [last];
    forall r | r in rows
      ensures r in rows + [last]
    {
    }
  }

  lemma KeysInAppend(rows: seq<Pred>, last: Pred, b: Day)
    ensures KeysIn(rows + [last], b) == KeysIn(rows, b) + if last.block == b then [last.Key()] else []
  {
    assert (rows + [last])[..|rows|] == rows;
  }

  lemma {:induction false} KeysInAre(rows: seq<Pred>, b: Day, k: Key)
    ensures k in KeysIn(rows, b) <==> HasKey(rows, b, k)
  {
    if rows != [] {
      var n := |rows| - 1;
      KeysInAre(rows[..n], b, k);
      assert rows == rows[..n] + [rows[n]];
      hide KeysIn, HasKey;
      KeysInAppend(rows[..n], rows[n], b);
      HasKeyAppend(rows[..n], rows[n], b, k);
    }
  }

  ghost predicate NoTwicePerBlock(rows: seq<Pred>) {
    forall b :: NoTwice(KeysIn(rows, b))
  }

  lemma NoTwicePerBlockAppend(rows: seq<Pred>, last: Pred)
    ensures NoTwicePerBlock(rows + [last]) <==> NoTwicePerBlock(rows) && last.Key() !in KeysIn(rows, last.block)
  {
    hide KeysIn, NoTwice;
    KeysInAppend(rows, last, last.block);
    NoTwiceAppend(KeysIn(rows, last.block), last.Key());
    forall b | b != last.block
      ensures KeysIn(rows + [last], b) == KeysIn(rows, b)
    {
      KeysInAppend(rows, last, b);
    }
    if NoTwicePerBlock(rows + [last]) {
      assert NoTwice(KeysIn(rows + [last], last.block));
      forall b
        ensures NoTwice(KeysIn(rows, b))
      {
        assert NoTwice(KeysIn(rows + [last], b));
      }
    }
  }

  lemma {:induction false} DistinctBlockwise(rows: seq<Pred>)
    ensures DistinctRows(rows) <==> NoTwicePerBlock(rows)
  {
    if rows != [] {
      var n := |rows| - 1;
      var last := rows[n];
      DistinctBlockwise(rows[..n]);
      assert rows == rows[..n] + [last];
      hide KeysIn, HasKey, NoTwicePerBlock, DistinctRows;
      KeysInAre(rows[..n], last.block, last.Key());
      DistinctAppend(rows[..n], last);
      NoTwicePerBlockAppend(rows[..n], last);
    }
  }

  lemma DistinctAppend(rows: seq<Pred>, last: Pred)
    ensures DistinctRows(rows + [last]) <==> DistinctRows(rows) && !HasKey(rows, last.block, last.Key())
  {
    var all := rows + [last];
    if DistinctRows(all) {
      forall i, j | 0 <= i < j < |rows|
        ensures FullKey(rows[i]) != FullKey(rows[j])
      {
        assert all[i] == rows[i] && all[j] == rows[j];
      }
      forall r | r in rows
        ensures FullKey(r) != FullKey(last)
      {
        var i :| 0 <= i < |rows| && rows[i] == r;
        assert all[i] == r && all[|rows|] == last;
      }
    }
  }

  lemma NoTwiceAppend(keys: seq<Key>, k: Key)
    ensures NoTwice(keys + [k]) <==> NoTwice(keys) && k !in keys
  {
    var all := keys + [k];
    if NoTwice(all) {
      forall i, j | 0 <= i < j < |keys|
        ensures keys[i] != keys[j]
      {
        assert all[i] == keys[i] && all[j] == keys[j];
      }
      forall i | 0 <= i < |keys|
        ensures keys[i] != k
      {
        assert all[i] == keys[i] && all[|keys|] == k;
      }
    }
  }

  /** Complete means: every expected key exactly once, and nothing else. */
  lemma CompleteMeansExact(rows: seq<Pred>, expected: map<Day, set<Key>>)
    requires forall b :: b in expected ==> expected[b] != {}
    ensures IsComplete(rows, expected) <==>
      DistinctRows(rows) && forall b, k :: HasKey(rows, b, k) <==> b in expected && k in expected[b]
  {
    DistinctBlockwise(rows);
    forall b, k
      ensures k in KeysIn(rows, b) <==> HasKey(rows, b, k)
    {
      KeysInAre(rows, b, k);
    }
    forall b
      ensures |KeysIn(rows, b)| == |Elements(KeysIn(rows, b))| <==> NoTwice(KeysIn(rows, b))
    {
      CountMeansNoTwice(KeysIn(rows, b));
    }
    if IsComplete(rows, expected) {
      CompleteIsExact(rows, expected);
    }
    if DistinctRows(rows) && forall b, k :: HasKey(rows, b, k) <==> b in expected && k in expected[b] {
      ExactIsComplete(rows, expected);
    }
  }

  lemma CompleteIsExact(rows: seq<Pred>, expected: map<Day, set<Key>>)
    requires IsComplete(rows, expected)
    ensures DistinctRows(rows) && forall b, k :: HasKey(rows, b, k) <==> b in expected && k in expected[b]
  {
    forall b
      ensures NoTwice(KeysIn(rows, b))
    {
      CountMeansNoTwice(KeysIn(rows, b));
      if b in expected {
        assert b in CompleteBlocks(rows, expected);
      } else {
        NoKeysOutside(rows, b);
      }
    }
    DistinctBlockwise(rows);
    forall b, k
      ensures HasKey(rows, b, k) <==> b in expected && k in expected[b]
    {
      KeysInAre(rows, b, k);
      if b in expected {
        assert b in CompleteBlocks(rows, expected);
        assert k in Elements(KeysIn(rows, b)) <==> k in KeysIn(rows, b);
      }
    }
  }

  lemma {:induction false} NoKeysOutside(rows: seq<Pred>, b: Day)
    requires forall i :: 0 <= i < |rows| ==> rows[i].block != b
    ensures KeysIn(rows, b) == []
  {
    if rows != [] {
      NoKeysOutside(rows[..|rows| - 1], b);
    }
  }

  lemma ExactIsComplete(rows: seq<Pred>, expected: map<Day, set<Key>>)
    requires forall b :: b in expected ==> expected[b] != {}
    requires DistinctRows(rows) && forall b, k :: HasKey(rows, b, k) <==> b in expected && k in expected[b]
    ensures IsComplete(rows, expected)
  {
    DistinctBlockwise(rows);
    forall b | b in expected
      ensures b in CompleteBlocks(rows, expected)
    {
      var keys := KeysIn(rows, b);
      CountMeansNoTwice(keys);
      forall k
        ensures k in Elements(keys) <==> k in expected[b]
      {
        KeysInAre(rows, b, k);
      }
      assert Elements(keys) == expected[b];
      var k :| k in expected[b];
      assert k in keys;
    }
    forall i | 0 <= i < |rows|
      ensures rows[i].block in expected
    {
      assert rows[i] in rows;
      assert HasKey(rows, rows[i].block, rows[i].Key());
    }
  }
}
