/** An interrupted prediction run, resumed any number of times, ends with exactly the rows of an uninterrupted one. */
module Resume {
  import opened Domain
  import opened Blocks
  import opened Predictions

  // ------------------------------------------------------------------
  // Pool and queries
  // ------------------------------------------------------------------

  predicate InPool(s: Sample, supportStart: Day) {
    s.liquid && s.day >= supportStart
  }

  predicate IsQuery(s: Sample, evalTickers: set<Ticker>, evalStart: Day, supportStart: Day) {
    s.day >= evalStart && (InPool(s, supportStart) || s.ticker in evalTickers)
  }

  predicate UniqueKeys(qs: seq<Sample>) {
    forall i, j :: 0 <= i < j < |qs| ==> qs[i].Key() != qs[j].Key()
  }

  /** The pool samples, in order. */
  function PoolOf(samples: seq<Sample>, supportStart: Day): seq<Sample> {
    if samples == [] then [] else
    var n := |samples| - 1;
    PoolOf(samples[..n], supportStart) + if InPool(samples[n], supportStart) then [samples[n]] else []
  }

  /** No earlier sample qualifies under the same key. */
  predicate IsFirst(samples: seq<Sample>, i: nat, evalTickers: set<Ticker>, evalStart: Day, supportStart: Day) {
    && i < |samples| && IsQuery(samples[i], evalTickers, evalStart, supportStart)
    && forall j :: 0 <= j < i && IsQuery(samples[j], evalTickers, evalStart, supportStart) ==> samples[j].Key() != samples[i].Key()
  }

  /** The first qualifying sample of every key, in order. */
  function FirstQueries(samples: seq<Sample>, n: nat, evalTickers: set<Ticker>, evalStart: Day, supportStart: Day): seq<Sample>
    requires n <= |samples|
  {
    if n == 0 then [] else
    FirstQueries(samples, n - 1, evalTickers, evalStart, supportStart)
    + if IsFirst(samples, n - 1, evalTickers, evalStart, supportStart) then [samples[n - 1]] else []
  }

  /** The pool is every pool sample in order; the queries are the first sample of every key that qualifies. */
  method SplitPoolQueries(samples: seq<Sample>, evalTickers: set<Ticker>, evalStart: Day, supportStart: Day)
    returns (pool: seq<Sample>, queries: seq<Sample>)
    ensures pool == PoolOf(samples, supportStart)
    ensures queries == FirstQueries(samples, |samples|, evalTickers, evalStart, supportStart)
    ensures UniqueKeys(queries)
    ensures forall s :: s in samples && IsQuery(s, evalTickers, evalStart, supportStart) ==> s.Key() in KeysOf(queries)
  {
    pool, queries := [], [];
    var seen: set<Key> := {};
    for i := 0 to |samples|
      invariant pool == PoolOf(samples[..i], supportStart)
      invariant queries == FirstQueries(samples, i, evalTickers, evalStart, supportStart)
      invariant UniqueKeys(queries) && seen == KeysOf(queries)
      invariant SeenAre(samples, i, seen, evalTickers, evalStart, supportStart)
    {
      var s := samples[i];
      assert samples[..i + 1][..i] == samples[..i];
      if InPool(s, supportStart) {
        pool := pool + [s];
      }
      if s.day < evalStart || !(InPool(s, supportStart) || s.ticker in evalTickers) {
        continue;
      }
      if s.Key() !in seen {
        seen := seen + {s.Key()};
        UniqueAppend(queries, s);
        queries := queries + [s];
      }
    }
    assert samples[..|samples|] == samples;
  }

  /** The keys seen are those of the qualifying samples so far. */
  ghost predicate SeenAre(samples: seq<Sample>, n: nat, seen: set<Key>, evalTickers: set<Ticker>, evalStart: Day, supportStart: Day)
    requires n <= |samples|
  {
    && (forall i :: 0 <= i < n && IsQuery(samples[i], evalTickers, evalStart, supportStart) ==> samples[i].Key() in seen)
    && (forall k :: k in seen ==>
          exists i :: 0 <= i < n && IsQuery(samples[i], evalTickers, evalStart, supportStart) && samples[i].Key() == k)
  }

  lemma UniqueAppend(qs: seq<Sample>, s: Sample)
    requires UniqueKeys(qs) && s.Key() !in KeysOf(qs)
    ensures UniqueKeys(qs + [s]) && KeysOf(qs + [s]) == KeysOf(qs) + {s.Key()}
  {
    forall q | q in qs
      ensures q.Key() in KeysOf(qs)
    {
    }
    assert forall q :: q in qs + [s] <==> q in qs || q == s;
  }

  /** The queries of a block keep their keys unique. */
  lemma {:induction false} BlockKeysUnique(queries: seq<Sample>, blocks: seq<Day>, b: Day)
    requires UniqueKeys(queries)
    ensures UniqueKeys(QueriesOf(queries, blocks, b)) && KeysOf(QueriesOf(queries, blocks, b)) <= KeysOf(queries)
  {
    if queries != [] {
      var n := |queries| - 1;
      BlockKeysUnique(queries[..n], blocks, b);
      assert queries[n].Key() !in KeysOf(queries[..n]);
      UniqueAppend(queries[..n], queries[n]);
      assert queries == queries[..n] + [queries[n]];
      if BlockOf(blocks, queries[n].day) == Some(b) {
        UniqueAppend(QueriesOf(queries[..n], blocks, b), queries[n]);
      }
    }
  }

  // ------------------------------------------------------------------
  // The rows of a run
  // ------------------------------------------------------------------

  /** A run's fixed inputs: support, plans and a deterministic predictor. */
  datatype Setup = Setup(labeled: seq<Sample>, horizon: nat, predict: Predictor, plans: seq<BlockPlan>)
  {
    ghost predicate Valid() {
      && AllLabeled(labeled, horizon) && OnePerQuery(predict) && AllFit(plans, labeled)
      && InBlockOrder(plans) && forall i :: 0 <= i < |plans| ==> UniqueKeys(plans[i].queries)
    }

    ghost function RowsOf(plan: BlockPlan): seq<Pred>
      requires Valid() && Fits(plan, labeled)
    {
      BlockRows(labeled, horizon, predict, plan)
    }

    /** The rows a run writes when some blocks are done. */
    ghost function Fresh(done: set<Day>): seq<Pred>
      requires Valid()
    {
      Rows(labeled, horizon, predict, plans, done)
    }

    /** The rows of an uninterrupted run. */
    ghost function Full(): seq<Pred>
      requires Valid()
    {
      Fresh({})
    }

    function Want(): map<Day, set<Key>> {
      Expected(plans)
    }
  }

  lemma {:induction false} ExpectedIs(plans: seq<BlockPlan>, i: nat)
    requires InBlockOrder(plans)
    ensures Expected(plans).Keys == set p | p in plans :: p.block
    ensures i < |plans| ==> plans[i].block in Expected(plans) && Expected(plans)[plans[i].block] == KeysOf(plans[i].queries)
  {
    hide KeysOf;
    if plans != [] {
      var n := |plans| - 1;
      ExpectedIs(plans[..n], if i < n then i else 0);
      assert forall p :: p in plans <==> p in plans[..n] || p == plans[n];
      assert i < n ==> plans[..n][i] == plans[i] && plans[i].block < plans[n].block;
    }
  }

  /** A row of the full run: of some plan and one of its queries. */
  ghost predicate IsRowOf(s: Setup, r: Pred, i: nat, j: nat)
    requires s.Valid()
  {
    i < |s.plans| && j < |s.plans[i].queries| && r == s.RowsOf(s.plans[i])[j]
  }

  lemma {:induction false} FreshRowsAre(s: Setup, n: nat, done: set<Day>, r: Pred)
    requires s.Valid() && n <= |s.plans|
    ensures r in Rows(s.labeled, s.horizon, s.predict, s.plans[..n], done) <==>
      r.block !in done && exists i: nat, j: nat :: i < n && IsRowOf(s, r, i, j)
    decreases n
  {
    if n > 0 {
      assert s.plans[..n][..n - 1] == s.plans[..n - 1];
      FreshRowsAre(s, n - 1, done, r);
      var last := s.RowsOf(s.plans[n - 1]);
      if r in last {
        var j :| 0 <= j < |last| && last[j] == r;
        assert IsRowOf(s, r, n - 1, j);
      }
    }
  }

  lemma {:induction false} FreshRowsDistinct(s: Setup, n: nat, done: set<Day>)
    requires s.Valid() && n <= |s.plans|
    ensures DistinctRows(Rows(s.labeled, s.horizon, s.predict, s.plans[..n], done))
    decreases n
  {
    if n > 0 {
      assert s.plans[..n][..n - 1] == s.plans[..n - 1];
      FreshRowsDistinct(s, n - 1, done);
      var before := Rows(s.labeled, s.horizon, s.predict, s.plans[..n - 1], done);
      var last := s.RowsOf(s.plans[n - 1]);
      forall r | r in before
        ensures r.block != s.plans[n - 1].block
      {
        FreshRowsAre(s, n - 1, done, r);
        var i: nat, j: nat :| i < n - 1 && IsRowOf(s, r, i, j);
        assert r.block == s.plans[i].block;
      }
      BlockRowsDistinct(s, n - 1);
      DistinctConcat(before, last);
      assert before + [] == before;
    }
  }

  lemma BlockRowsDistinct(s: Setup, i: nat)
    requires s.Valid() && i < |s.plans|
    ensures DistinctRows(s.RowsOf(s.plans[i]))
    ensures forall r :: r in s.RowsOf(s.plans[i]) ==> r.block == s.plans[i].block
  {
    assert UniqueKeys(s.plans[i].queries);
  }

  lemma DistinctConcat(xs: seq<Pred>, ys: seq<Pred>)
    requires DistinctRows(xs) && DistinctRows(ys)
    requires forall x, y :: x in xs && y in ys ==> FullKey(x) != FullKey(y)
    ensures DistinctRows(xs + ys)
  {
    var all := xs + ys;
    forall i, j | 0 <= i < j < |all|
      ensures FullKey(all[i]) != FullKey(all[j])
    {
      if i < |xs| <= j {
        assert xs[i] in xs && ys[j - |xs|] in ys;
      }
    }
  }

  /** The full run has exactly the expected keys, each once. */
  lemma FullRunIsExact(s: Setup)
    requires s.Valid()
    ensures DistinctRows(s.Full())
    ensures forall b, k :: HasKey(s.Full(), b, k) <==> b in s.Want() && k in s.Want()[b]
    ensures forall b :: b in s.Want() ==> s.Want()[b] != {}
  {
    assert s.plans[..|s.plans|] == s.plans;
    FreshRowsDistinct(s, |s.plans|, {});
    ExpectedIs(s.plans, 0);
    forall b | b in s.Want()
      ensures s.Want()[b] != {}
    {
      var i :| 0 <= i < |s.plans| && s.plans[i].block == b;
      ExpectedIs(s.plans, i);
      assert s.plans[i].queries[0].Key() in KeysOf(s.plans[i].queries);
    }
    forall b, k
      ensures HasKey(s.Full(), b, k) <==> b in s.Want() && k in s.Want()[b]
    {
      FullKeyIsExpected(s, b, k);
    }
  }

  lemma FullKeyIsExpected(s: Setup, b: Day, k: Key)
    requires s.Valid()
    ensures HasKey(s.Full(), b, k) <==> b in s.Want() && k in s.Want()[b]
  {
    assert s.plans[..|s.plans|] == s.plans;
    ExpectedIs(s.plans, 0);
    if HasKey(s.Full(), b, k) {
      var r :| r in s.Full() && FullKey(r) == (b, k);
      FreshRowsAre(s, |s.plans|, {}, r);
      var i: nat, j: nat :| i < |s.plans| && IsRowOf(s, r, i, j);
      ExpectedIs(s.plans, i);
      assert s.plans[i].queries[j] in s.plans[i].queries;
    }
    if b in s.Want() && k in s.Want()[b] {
      var i :| 0 <= i < |s.plans| && s.plans[i].block == b;
      ExpectedIs(s.plans, i);
      var q :| q in s.plans[i].queries && q.Key() == k;
      var j :| 0 <= j < |s.plans[i].queries| && s.plans[i].queries[j] == q;
      var r := s.RowsOf(s.plans[i])[j];
      assert IsRowOf(s, r, i, j);
      FreshRowsAre(s, |s.plans|, {}, r);
    }
  }

  // ------------------------------------------------------------------
  // Resuming
  // ------------------------------------------------------------------

  /** Rows of planned keys are the run's own; anything else may be in the file too, in any number. */
  ghost predicate Trusted(s: Setup, rows: seq<Pred>)
    requires s.Valid()
  {
    forall r :: r in rows && r.block in s.Want() && r.Key() in s.Want()[r.block] ==> r in s.Full()
  }

  function Kept(rows: seq<Pred>, done: set<Day>): seq<Pred> {
    if rows == [] then [] else
    var n := |rows| - 1;
    Kept(rows[..n], done) + if rows[n].block in done then [rows[n]] else []
  }

  lemma {:induction false} KeptAre(rows: seq<Pred>, done: set<Day>, r: Pred)
    ensures r in Kept(rows, done) <==> r in rows && r.block in done
  {
    if rows != [] {
      var n := |rows| - 1;
      KeptAre(rows[..n], done, r);
      assert rows == rows[..n] + [rows[n]];
    }
  }

  lemma {:induction false} KeptKeys(rows: seq<Pred>, done: set<Day>, b: Day)
    ensures KeysIn(Kept(rows, done), b) == if b in done then KeysIn(rows, b) else []
  {
    if rows != [] {
      var n := |rows| - 1;
      KeptKeys(rows[..n], done, b);
      assert rows == rows[..n] + [rows[n]];
      assert Kept(rows[..n], done) + [] == Kept(rows[..n], done);
      hide KeysIn;
      KeysInAppend(rows[..n], rows[n], b);
      KeysInAppend(Kept(rows[..n], done), rows[n], b);
    }
  }

  /** What a resumed run leaves in the file. */
  ghost function Resumed(s: Setup, existing: seq<Pred>): seq<Pred>
    requires s.Valid()
  {
    var done := CompleteBlocks(existing, s.Want());
    Kept(existing, done) + s.Fresh(done)
  }

  lemma KeptDistinct(s: Setup, existing: seq<Pred>)
    requires s.Valid()
    ensures DistinctRows(Kept(existing, CompleteBlocks(existing, s.Want())))
  {
    var done := CompleteBlocks(existing, s.Want());
    var kept := Kept(existing, done);
    forall b
      ensures NoTwice(KeysIn(kept, b))
    {
      KeptKeys(existing, done, b);
      CountMeansNoTwice(KeysIn(existing, b));
    }
    DistinctBlockwise(kept);
  }

  /** A row is kept exactly when the full run has it in a complete block. */
  lemma KeptIsFull(s: Setup, existing: seq<Pred>, r: Pred)
    requires s.Valid() && Trusted(s, existing)
    ensures var done := CompleteBlocks(existing, s.Want());
      r in Kept(existing, done) <==> r in s.Full() && r.block in done
  {
    var done := CompleteBlocks(existing, s.Want());
    KeptAre(existing, done, r);
    if r.block in done {
      KeysInAre(existing, r.block, r.Key());
      if r in existing {
        assert HasKey(existing, r.block, r.Key());
        assert r.Key() in Elements(KeysIn(existing, r.block));
      }
      if r in s.Full() {
        assert HasKey(s.Full(), r.block, r.Key());
        FullKeyIsExpected(s, r.block, r.Key());
        assert r.Key() in Elements(KeysIn(existing, r.block));
        var x :| x in existing && FullKey(x) == (r.block, r.Key());
        FullRunIsExact(s);
        SameKeySameRow(s.Full(), x, r);
      }
    }
  }

  lemma SameKeySameRow(rows: seq<Pred>, x: Pred, y: Pred)
    requires DistinctRows(rows) && x in rows && y in rows && FullKey(x) == FullKey(y)
    ensures x == y
  {
  }

  lemma FreshIsRest(s: Setup, done: set<Day>, r: Pred)
    requires s.Valid()
    ensures r in s.Fresh(done) <==> r in s.Full() && r.block !in done
  {
    assert s.plans[..|s.plans|] == s.plans;
    FreshRowsAre(s, |s.plans|, done, r);
    FreshRowsAre(s, |s.plans|, {}, r);
  }

  /** Same rows, each once. */
  lemma DistinctSameRows(xs: seq<Pred>, ys: seq<Pred>)
    requires DistinctRows(xs) && DistinctRows(ys) && forall r :: r in xs <==> r in ys
    ensures multiset(xs) == multiset(ys)
  {
    forall r
      ensures multiset(xs)[r] == multiset(ys)[r]
    {
      OnceEach(xs, r);
      OnceEach(ys, r);
    }
  }

  lemma {:induction false} OnceEach(xs: seq<Pred>, r: Pred)
    requires DistinctRows(xs)
    ensures multiset(xs)[r] == if r in xs then 1 else 0
  {
    if xs != [] {
      var n := |xs| - 1;
      assert xs == xs[..n] + [xs[n]];
      OnceEach(xs[..n], r);
      if xs[n] == r {
        assert r !in xs[..n];
      }
    }
  }

  /** Resumed once from any trusted file: the rows of an uninterrupted run, each once, and complete. */
  lemma ResumedIsFull(s: Setup, existing: seq<Pred>)
    requires s.Valid() && Trusted(s, existing)
    ensures multiset(Resumed(s, existing)) == multiset(s.Full())
    ensures IsComplete(Resumed(s, existing), s.Want()) && IsComplete(s.Full(), s.Want())
  {
    var done := CompleteBlocks(existing, s.Want());
    var (kept, rest) := (Kept(existing, done), s.Fresh(done));
    var final := Resumed(s, existing);
    forall r
      ensures r in kept <==> r in s.Full() && r.block in done
      ensures r in rest <==> r in s.Full() && r.block !in done
    {
      KeptIsFull(s, existing, r);
      FreshIsRest(s, done, r);
    }
    KeptDistinct(s, existing);
    assert s.plans[..|s.plans|] == s.plans;
    FreshRowsDistinct(s, |s.plans|, done);
    DistinctConcat(kept, rest);
    FullRunIsExact(s);
    DistinctSameRows(final, s.Full());
    SameRowsSameKeys(final, s.Full());
    CompleteMeansExact(final, s.Want());
    CompleteMeansExact(s.Full(), s.Want());
  }

  lemma SameRowsSameKeys(xs: seq<Pred>, ys: seq<Pred>)
    requires forall r :: r in xs <==> r in ys
    ensures forall b, k :: HasKey(xs, b, k) <==> HasKey(ys, b, k)
  {
  }

  /** Cut off anywhere while it writes, a run leaves a file the next one can trust. */
  lemma InterruptedIsTrusted(s: Setup, existing: seq<Pred>, n: nat)
    requires s.Valid() && Trusted(s, existing) && n <= |Resumed(s, existing)|
    ensures Trusted(s, Resumed(s, existing)[..n])
  {
    var done := CompleteBlocks(existing, s.Want());
    forall r | r in Resumed(s, existing)[..n]
      ensures r in s.Full()
    {
      assert r in Resumed(s, existing);
      KeptIsFull(s, existing, r);
      FreshIsRest(s, done, r);
    }
  }

  /** The files left by a first run and its interrupted continuations: each a part of what the next run would have left. */
  ghost predicate IsHistory(s: Setup, files: seq<seq<Pred>>)
    requires s.Valid()
  {
    && |files| > 0 && Trusted(s, files[0])
    && forall i :: 0 <= i < |files| - 1 ==> CutOff(s, files[i], files[i + 1])
  }

  ghost predicate CutOff(s: Setup, before: seq<Pred>, after: seq<Pred>)
    requires s.Valid()
  {
    exists n: nat :: n <= |Resumed(s, before)| && after == Resumed(s, before)[..n]
  }

  /** However often a run was interrupted, the first one that finishes has everything, once. */
  lemma {:induction false} AnyInterruptionsThenFull(s: Setup, files: seq<seq<Pred>>)
    requires s.Valid() && IsHistory(s, files)
    ensures Trusted(s, files[|files| - 1])
    ensures multiset(Resumed(s, files[|files| - 1])) == multiset(s.Full())
    ensures IsComplete(Resumed(s, files[|files| - 1]), s.Want())
  {
    var m := |files| - 1;
    if m > 0 {
      var before := files[..m];
      forall i | 0 <= i < |before| - 1
        ensures CutOff(s, before[i], before[i + 1])
      {
        assert CutOff(s, files[i], files[i + 1]);
      }
      AnyInterruptionsThenFull(s, before);
      assert CutOff(s, files[m - 1], files[m - 1 + 1]);
      var n: nat :| n <= |Resumed(s, files[m - 1])| && files[m] == Resumed(s, files[m - 1])[..n];
      InterruptedIsTrusted(s, files[m - 1], n);
    }
    ResumedIsFull(s, files[m]);
  }

  // ------------------------------------------------------------------
  // The resume loop
  // ------------------------------------------------------------------

  lemma PlannedSetupIsValid(pool: seq<Sample>, queries: seq<Sample>, horizon: nat, predict: Predictor, blocks: seq<Day>, limits: Limits)
    requires OnePerQuery(predict) && Ascending(blocks) && UniqueKeys(queries)
    ensures var (labeled, plans) := Planned(pool, queries, horizon, blocks, limits);
      Setup(labeled, horizon, predict, plans).Valid()
  {
    var (labeled, plans) := Planned(pool, queries, horizon, blocks, limits);
    PlannedFit(pool, queries, horizon, blocks, limits);
    PlansAscend(labeled, horizon, queries, blocks, |blocks|, limits);
    forall i | 0 <= i < |plans|
      ensures UniqueKeys(plans[i].queries)
    {
      assert plans[i] in plans;
      var k := PlannedBlockIsWhole(pool, queries, horizon, blocks, limits, plans[i]);
      BlockKeysUnique(queries, blocks, blocks[k]);
    }
  }

  method KeepDone(existing: seq<Pred>, done: set<Day>) returns (kept: seq<Pred>)
    ensures kept == Kept(existing, done)
  {
    kept := [];
    for i := 0 to |existing|
      invariant kept == Kept(existing[..i], done)
    {
      assert existing[..i + 1][..i] == existing[..i];
      if existing[i].block in done {
        kept := kept + [existing[i]];
      }
    }
    assert existing[..|existing|] == existing;
  }

  /** One resumed prediction run over a file: everything an uninterrupted run writes, and nothing twice. */
  method PredictResumed(pool: seq<Sample>, queries: seq<Sample>, horizon: nat, predict: Predictor, blocks: seq<Day>,
                        limits: Limits, existing: seq<Pred>) returns (final: seq<Pred>, complete: bool)
    requires OnePerQuery(predict) && Ascending(blocks) && UniqueKeys(queries)
    ensures var (labeled, plans) := Planned(pool, queries, horizon, blocks, limits);
            var s := Setup(labeled, horizon, predict, plans);
      && s.Valid() && final == Resumed(s, existing) && complete == IsComplete(final, s.Want())
      && (Trusted(s, existing) ==> complete && multiset(final) == multiset(s.Full()))
  {
    PlannedSetupIsValid(pool, queries, horizon, predict, blocks, limits);
    var labeled, plans := PlanBlocks(pool, queries, horizon, blocks, limits);
    ghost var s := Setup(labeled, horizon, predict, plans);
    var expected := Expected(plans);
    var done := FindCompleteBlocks(existing, expected);
    var kept := KeepDone(existing, done);
    var rest := WalkForward(pool, queries, horizon, predict, blocks, done, limits);
    final := kept + rest;
    var whole := FindCompleteBlocks(final, expected);
    complete := whole == expected.Keys && forall i :: 0 <= i < |final| ==> final[i].block in expected;
    if Trusted(s, existing) {
      ResumedIsFull(s, existing);
    }
  }
}
