/** Exact bounds on the AUC when some labels are unknown: the exchange argument, and the loop that relies on it. */
module AucBounds {
  import opened Domain
  import opened SeqSums
  import opened Auc

  /** A prediction; its label is unknown for a censored sample. */
  datatype Pred = Pred(p: real, known: Option<Label>)

  function Scores(pool: seq<Pred>): (s: seq<real>)
    ensures |s| == |pool|
  {
    seq(|pool|, i requires 0 <= i < |pool| => pool[i].p)
  }

  /** The labels there are. */
  function KnownLabels(pool: seq<Pred>): seq<Label> {
    if pool == [] then [] else
    var n := |pool| - 1;
    KnownLabels(pool[..n]) + if pool[n].known.Some? then [pool[n].known.value] else []
  }

  predicate AllLabeled(pool: seq<Pred>) {
    forall i :: 0 <= i < |pool| ==> pool[i].known.Some?
  }

  lemma {:induction false} LabeledLengths(pool: seq<Pred>)
    ensures |KnownLabels(pool)| <= |pool|
    ensures |KnownLabels(pool)| == |pool| <==> AllLabeled(pool)
  {
    if pool != [] {
      var n := |pool| - 1;
      LabeledLengths(pool[..n]);
      assert AllLabeled(pool) <==> AllLabeled(pool[..n]) && pool[n].known.Some?;
    }
  }

  // ------------------------------------------------------------------
  // For a fixed number of positives only their rank sum matters
  // ------------------------------------------------------------------

  /** The AUC with some of the censored scores counted as positives. */
  ghost predicate SameCensored(cs: seq<real>, ys: seq<Label>, ds: seq<real>, zs: seq<Label>) {
    |cs| == |ys| && |ds| == |zs| && multiset(cs) == multiset(ds) && CountOnes(ys) == CountOnes(zs)
  }

  /** Ranks depend on the multiset of scores only. */
  lemma RankPermute(all: seq<real>, all': seq<real>, a: real)
    requires multiset(all) == multiset(all')
    ensures Rank(all, a) == Rank(all', a)
  {
    SumPermute(all, all', Beats(a));
  }

  lemma ShareMonotone(x: real, y: real, pos: nat, neg: nat)
    requires x <= y && pos > 0 && neg > 0
    ensures Share(x, pos, neg) <= Share(y, pos, neg)
  {
    Times(pos, neg);
    var t := pos as real * neg as real;
    assert y / t - x / t == (y - x) / t >= 0.0;
  }

  lemma {:induction false} OnesConcat(xs: seq<Label>, ys: seq<Label>)
    ensures CountOnes(xs + ys) == CountOnes(xs) + CountOnes(ys)
  {
    if ys == [] {
      assert xs + ys == xs;
    } else {
      var n := |ys| - 1;
      assert (xs + ys)[..|xs + ys| - 1] == xs + ys[..n];
      OnesConcat(xs, ys[..n]);
    }
  }

  /** Two labelings with as many positives compare as the rank sums of their censored positives do. */
  lemma RankSumDecides(s: seq<real>, y: seq<Label>, cs: seq<real>, ys: seq<Label>, ds: seq<real>, zs: seq<Label>)
    requires |s| == |y| && SameCensored(cs, ys, ds, zs)
    requires SumBy(Pick(cs, ys, 1), RankIn(s + cs)) <= SumBy(Pick(ds, zs, 1), RankIn(s + cs))
    ensures AucOf(s + cs, y + ys).Some? <==> AucOf(s + ds, y + zs).Some?
    ensures AucOf(s + cs, y + ys).Some? ==> AucOf(s + cs, y + ys).value <= AucOf(s + ds, y + zs).value
  {
    hide SumBy, RankIn, Pick, Share, PairsWon, Triangular;
    var (u, v) := (y + ys, y + zs);
    OnesConcat(y, ys);
    OnesConcat(y, zs);
    SizesAre(s + cs, u);
    SizesAre(s + ds, v);
    RankSumSplits(s, y, cs, ys, cs);
    RankSumSplits(s, y, ds, zs, cs);
    RankSumIsPairCounting(s + cs, u);
    RankSumIsPairCounting(s + ds, v);
    if AucOf(s + cs, u).Some? {
      ShareMonotone(PairsWon(Pick(s + cs, u, 1), Pick(s + cs, u, 0)), PairsWon(Pick(s + ds, v, 1), Pick(s + ds, v, 0)),
                    CountOnes(u), |u| - CountOnes(u));
    }
  }

  lemma SizesAre(s: seq<real>, y: seq<Label>)
    requires |s| == |y|
    ensures |Pick(s, y, 1)| == CountOnes(y) <= |y| && |Pick(s, y, 0)| == |y| - CountOnes(y)
  {
    PickSplits(s, y);
  }

  /** The rank sum of all positives: the pool's part, which never changes, and the censored part. */
  lemma RankSumSplits(s: seq<real>, y: seq<Label>, ds: seq<real>, zs: seq<Label>, cs: seq<real>)
    requires |s| == |y| && |ds| == |zs| && multiset(cs) == multiset(ds)
    ensures |s + ds| == |y + zs|
    ensures SumBy(Pick(s + ds, y + zs, 1), RankIn(s + ds))
         == SumBy(Pick(s, y, 1), RankIn(s + cs)) + SumBy(Pick(ds, zs, 1), RankIn(s + cs))
  {
    assert multiset(s + ds) == multiset(s + cs);
    var pos := Pick(s + ds, y + zs, 1);
    forall a
      ensures Rank(s + ds, a) == Rank(s + cs, a)
    {
      RankPermute(s + ds, s + cs, a);
    }
    SumCongruent(pos, RankIn(s + ds), RankIn(s + cs));
    PickConcat(s, y, ds, zs, 1);
    SumConcat(Pick(s, y, 1), Pick(ds, zs, 1), RankIn(s + cs));
  }

  // ------------------------------------------------------------------
  // The exchange argument
  // ------------------------------------------------------------------

  /** The first k of m positive. */
  function LowLabels(m: nat, k: nat): (ys: seq<Label>)
    requires k <= m
    ensures |ys| == m
  {
    Repeat(1, k) + Repeat(0, m - k)
  }

  /** The last k of m positive. */
  function HighLabels(m: nat, k: nat): (ys: seq<Label>)
    requires k <= m
    ensures |ys| == m
  {
    Repeat(0, m - k) + Repeat(1, k)
  }

  lemma {:induction false} PickConstant(cs: seq<real>, ys: seq<Label>, same: Label, which: Label)
    requires |cs| == |ys| && forall i :: 0 <= i < |ys| ==> ys[i] == same
    ensures Pick(cs, ys, which) == if same == which then cs else []
    ensures CountOnes(ys) == if same == 1 then |ys| else 0
  {
    if cs != [] {
      var n := |cs| - 1;
      PickConstant(cs[..n], ys[..n], same, which);
      assert cs == cs[..n] + [cs[n]];
    }
  }

  lemma PickTwoBlocks(xs: seq<real>, zs: seq<real>, one: Label, two: Label)
    ensures Pick(xs + zs, Repeat(one, |xs|) + Repeat(two, |zs|), 1)
         == (if one == 1 then xs else []) + (if two == 1 then zs else [])
    ensures CountOnes(Repeat(one, |xs|) + Repeat(two, |zs|)) == (if one == 1 then |xs| else 0) + (if two == 1 then |zs| else 0)
  {
    hide Pick, CountOnes, Repeat;
    var (first, second) := (Repeat(one, |xs|), Repeat(two, |zs|));
    PickConstant(xs, first, one, 1);
    PickConstant(zs, second, two, 1);
    PickConcat(xs, first, zs, second, 1);
    OnesConcat(first, second);
  }

  lemma PickLow(cs: seq<real>, k: nat)
    requires k <= |cs|
    ensures Pick(cs, LowLabels(|cs|, k), 1) == cs[..k] && CountOnes(LowLabels(|cs|, k)) == k
  {
    hide Pick, CountOnes, Repeat;
    SplitTwo(cs, k);
    PickTwoBlocks(cs[..k], cs[k..], 1, 0);
    assert cs[..k] + [] == cs[..k];
  }

  lemma PickHigh(cs: seq<real>, k: nat)
    requires k <= |cs|
    ensures Pick(cs, HighLabels(|cs|, k), 1) == cs[|cs| - k..] && CountOnes(HighLabels(|cs|, k)) == k
  {
    hide Pick, CountOnes, Repeat;
    var n := |cs| - k;
    SplitTwo(cs, n);
    PickTwoBlocks(cs[..n], cs[n..], 0, 1);
    assert [] + cs[n..] == cs[n..];
  }

  ghost predicate Rising(f: real -> real) {
    forall a, b :: a <= b ==> f(a) <= f(b)
  }

  lemma RanksRise(all: seq<real>)
    ensures Rising(RankIn(all))
  {
    forall a, b | a <= b
      ensures Rank(all, a) <= Rank(all, b)
    {
      SumMonotone(all, Beats(a), Beats(b));
    }
  }

  lemma PickLast(cs: seq<real>, ys: seq<Label>)
    requires |cs| == |ys| > 0
    ensures var n := |cs| - 1;
      && Pick(cs, ys, 1) == Pick(cs[..n], ys[..n], 1) + (if ys[n] == 1 then [cs[n]] else [])
      && CountOnes(ys) == CountOnes(ys[..n]) + ys[n]
  {
  }

  /** Of all choices of k from an ascending list, the first k have the least sum: exchange from the top down. */
  lemma {:induction false} LowestAreLeast(cs: seq<real>, ys: seq<Label>, f: real -> real)
    requires |cs| == |ys| && Ascending(cs) && Rising(f)
    ensures CountOnes(ys) <= |cs|
    ensures SumBy(cs[..CountOnes(ys)], f) <= SumBy(Pick(cs, ys, 1), f)
  {
    if cs == [] {
      assert cs[..CountOnes(ys)] == Pick(cs, ys, 1);
    } else {
      var n := |cs| - 1;
      var k := CountOnes(ys);
      PickLast(cs, ys);
      hide SumBy, Pick, CountOnes;
      LowestAreLeast(cs[..n], ys[..n], f);
      SumConcat(Pick(cs[..n], ys[..n], 1), if ys[n] == 1 then [cs[n]] else [], f);
      if ys[n] == 1 {
        LeastExchanged(cs, k, f);
      } else {
        assert cs[..n][..k] == cs[..k];
        SumNothing(f);
      }
    }
  }

  lemma LeastExchanged(cs: seq<real>, k: nat, f: real -> real)
    requires Ascending(cs) && Rising(f) && 0 < k <= |cs|
    ensures SumBy(cs[..k], f) <= SumBy(cs[..|cs| - 1][..k - 1], f) + SumBy([cs[|cs| - 1]], f)
  {
    hide SumBy;
    assert cs[..|cs| - 1][..k - 1] == cs[..k - 1] && cs[..k] == cs[..k - 1] + [cs[k - 1]];
    SumAppend(cs[..k - 1], cs[k - 1], f);
    SumOne(cs[|cs| - 1], f);
    assert f(cs[k - 1]) <= f(cs[|cs| - 1]);
  }

  lemma SumNothing(f: real -> real)
    ensures SumBy([], f) == 0.0
  {
  }

  lemma SumOne(x: real, f: real -> real)
    ensures SumBy([x], f) == f(x)
  {
    assert [] + [x] == [x];
    SumAppend([], x, f);
  }

  lemma PickFirst(cs: seq<real>, ys: seq<Label>)
    requires |cs| == |ys| > 0
    ensures Pick(cs, ys, 1) == (if ys[0] == 1 then [cs[0]] else []) + Pick(cs[1..], ys[1..], 1)
    ensures CountOnes(ys) == ys[0] + CountOnes(ys[1..])
  {
    assert cs[..1] + cs[1..] == cs && ys[..1] + ys[1..] == ys;
    PickConcat(cs[..1], ys[..1], cs[1..], ys[1..], 1);
    OnesConcat(ys[..1], ys[1..]);
    PickConstant(cs[..1], ys[..1], ys[0], 1);
  }

  /** The last k scores. */
  function LastOnes(cs: seq<real>, k: nat): seq<real>
    requires k <= |cs|
  {
    cs[|cs| - k..]
  }

  lemma LastOfLonger(c: real, rest: seq<real>, k: nat)
    requires k <= |rest|
    ensures LastOnes([c] + rest, k) == LastOnes(rest, k)
    ensures k < |rest| ==> LastOnes([c] + rest, k + 1) == [rest[|rest| - k - 1]] + LastOnes(rest, k)
    ensures k == |rest| ==> LastOnes([c] + rest, k + 1) == [c] + LastOnes(rest, k)
  {
  }

  /** And the last k have the greatest. */
  lemma {:induction false} HighestAreGreatest(cs: seq<real>, ys: seq<Label>, f: real -> real)
    requires |cs| == |ys| && Ascending(cs) && Rising(f)
    ensures CountOnes(ys) <= |cs|
    ensures SumBy(Pick(cs, ys, 1), f) <= SumBy(LastOnes(cs, CountOnes(ys)), f)
  {
    if cs == [] {
      NothingPicked(cs, ys);
    } else {
      hide SumBy, Pick, CountOnes, Rising, LastOnes;
      TailAscends(cs);
      HighestAreGreatest(cs[1..], ys[1..], f);
      SplitFirst(cs);
      SplitFirst(ys);
      GreatestWithOneMore(cs[0], cs[1..], ys[0], ys[1..], f);
    }
  }

  lemma NothingPicked(cs: seq<real>, ys: seq<Label>)
    requires |cs| == |ys| == 0
    ensures CountOnes(ys) == 0 && LastOnes(cs, 0) == Pick(cs, ys, 1)
  {
  }

  lemma TailAscends(cs: seq<real>)
    requires Ascending(cs) && cs != []
    ensures Ascending(cs[1..])
  {
  }

  lemma PickPositive(c: real, rest: seq<real>, labels: seq<Label>)
    requires |rest| == |labels|
    ensures Pick([c] + rest, [1] + labels, 1) == [c] + Pick(rest, labels, 1)
    ensures CountOnes([1] + labels) == CountOnes(labels) + 1
  {
    PickConstant([c], [1], 1, 1);
    hide Pick, CountOnes;
    PickConcat([c], [1], rest, labels, 1);
    OnesConcat([1], labels);
  }

  lemma PickNegative(c: real, rest: seq<real>, labels: seq<Label>)
    requires |rest| == |labels|
    ensures Pick([c] + rest, [0] + labels, 1) == Pick(rest, labels, 1)
    ensures CountOnes([0] + labels) == CountOnes(labels)
  {
    PickConstant([c], [0], 0, 1);
    hide Pick, CountOnes;
    PickConcat([c], [0], rest, labels, 1);
    OnesConcat([0], labels);
    NothingBefore(Pick(rest, labels, 1));
  }

  lemma NothingBefore(xs: seq<real>)
    ensures [] + xs == xs
  {
  }

  /** Going one score further down: a positive one changes places, a negative one changes nothing. */
  lemma GreatestWithOneMore(c: real, rest: seq<real>, y: Label, labels: seq<Label>, f: real -> real)
    requires |rest| == |labels| && Ascending([c] + rest) && Rising(f) && CountOnes(labels) <= |rest|
    requires SumBy(Pick(rest, labels, 1), f) <= SumBy(LastOnes(rest, CountOnes(labels)), f)
    ensures CountOnes([y] + labels) <= |[c] + rest|
    ensures SumBy(Pick([c] + rest, [y] + labels, 1), f) <= SumBy(LastOnes([c] + rest, CountOnes([y] + labels)), f)
  {
    var k := CountOnes(labels);
    hide SumBy, LastOnes, Pick, CountOnes, Ascending, Rising;
    if y == 1 {
      PickPositive(c, rest, labels);
      GreaterStill(c, rest, Pick(rest, labels, 1), k, f);
    } else {
      PickNegative(c, rest, labels);
      LastOfLonger(c, rest, k);
    }
  }

  lemma GreaterStill(c: real, rest: seq<real>, picked: seq<real>, k: nat, f: real -> real)
    requires Ascending([c] + rest) && Rising(f) && k <= |rest| && SumBy(picked, f) <= SumBy(LastOnes(rest, k), f)
    ensures SumBy([c] + picked, f) <= SumBy(LastOnes([c] + rest, k + 1), f)
  {
    hide SumBy, LastOnes, Ascending, Rising;
    SumConcat([c], picked, f);
    ExchangedForGreater(c, rest, k, f);
  }

  lemma ExchangedForGreater(c: real, rest: seq<real>, k: nat, f: real -> real)
    requires Ascending([c] + rest) && Rising(f) && k <= |rest|
    ensures SumBy([c], f) + SumBy(LastOnes(rest, k), f) <= SumBy(LastOnes([c] + rest, k + 1), f)
  {
    LastOfLonger(c, rest, k);
    var all := [c] + rest;
    var d := if k < |rest| then rest[|rest| - k - 1] else c;
    assert all[0] == c && (k < |rest| ==> all[|rest| - k] == d);
    hide SumBy, LastOnes;
    SumConcat([d], LastOnes(rest, k), f);
    SumOne(c, f);
    SumOne(d, f);
    assert f(c) <= f(d);
  }

  /** Labels that make exactly the chosen scores positive. */
  function LabelsFor(cs: seq<real>, chosen: multiset<real>): (ys: seq<Label>)
    ensures |ys| == |cs|
  {
    if cs == [] then [] else
    var n := |cs| - 1;
    if cs[n] in chosen then LabelsFor(cs[..n], chosen - multiset{cs[n]}) + [1] else LabelsFor(cs[..n], chosen) + [0]
  }

  lemma {:induction false} LabelsChoose(cs: seq<real>, chosen: multiset<real>)
    requires chosen <= multiset(cs)
    ensures multiset(Pick(cs, LabelsFor(cs, chosen), 1)) == chosen
  {
    if cs != [] {
      var n := |cs| - 1;
      assert cs == cs[..n] + [cs[n]];
      var rest := if cs[n] in chosen then chosen - multiset{cs[n]} else chosen;
      LabelsChoose(cs[..n], rest);
      assert LabelsFor(cs, chosen)[..n] == LabelsFor(cs[..n], rest);
    }
  }

  /** Any labeling can be carried over to any other order of the scores. */
  lemma CarryOver(cs: seq<real>, ys: seq<Label>, ds: seq<real>, f: real -> real) returns (zs: seq<Label>)
    requires |cs| == |ys| && multiset(cs) == multiset(ds)
    ensures |zs| == |ds| && CountOnes(zs) == CountOnes(ys)
    ensures SumBy(Pick(ds, zs, 1), f) == SumBy(Pick(cs, ys, 1), f)
  {
    PickSplits(cs, ys);
    zs := LabelsFor(ds, multiset(Pick(cs, ys, 1)));
    LabelsChoose(ds, multiset(Pick(cs, ys, 1)));
    PickSplits(ds, zs);
    SumPermute(Pick(ds, zs, 1), Pick(cs, ys, 1), f);
    assert |multiset(Pick(ds, zs, 1))| == |multiset(Pick(cs, ys, 1))|;
  }

  /** For k positives: nothing is below the low labels and nothing is above the high ones. */
  lemma BoundsForCount(s: seq<real>, y: seq<Label>, cs: seq<real>, ys: seq<Label>, sorted: seq<real>)
    requires |s| == |y| && |cs| == |ys| && multiset(sorted) == multiset(cs) && Ascending(sorted)
    ensures |sorted| == |cs| && CountOnes(ys) <= |cs|
    ensures var (low, auc, high) := (AucOf(s + sorted, y + LowLabels(|cs|, CountOnes(ys))), AucOf(s + cs, y + ys),
                                     AucOf(s + sorted, y + HighLabels(|cs|, CountOnes(ys))));
      && (low.Some? <==> auc.Some?) && (high.Some? <==> auc.Some?)
      && (auc.Some? ==> low.value <= auc.value <= high.value)
  {
    assert |sorted| == |multiset(sorted)| == |cs|;
    PickSplits(cs, ys);
    var k := CountOnes(ys);
    var f := RankIn(s + sorted);
    assert multiset(s + sorted) == multiset(s + cs);
    var zs := CarryOver(cs, ys, sorted, f);
    RanksRise(s + sorted);
    hide AucOf, SumBy, RankIn, Pick;
    PickLow(sorted, k);
    PickHigh(sorted, k);
    LowestAreLeast(sorted, zs, f);
    HighestAreGreatest(sorted, zs, f);
    assert LastOnes(sorted, k) == sorted[|sorted| - k..];
    RankSumDecides(s, y, sorted, LowLabels(|cs|, k), cs, ys);
    SameRanks(s, cs, sorted, Pick(cs, ys, 1));
    SameRanks(s, cs, sorted, sorted[|cs| - k..]);
    RankSumDecides(s, y, cs, ys, sorted, HighLabels(|cs|, k));
  }

  lemma SameRanks(s: seq<real>, cs: seq<real>, ds: seq<real>, xs: seq<real>)
    requires multiset(cs) == multiset(ds)
    ensures SumBy(xs, RankIn(s + cs)) == SumBy(xs, RankIn(s + ds))
  {
    assert multiset(s + cs) == multiset(s + ds);
    forall a
      ensures Rank(s + cs, a) == Rank(s + ds, a)
    {
      RankPermute(s + cs, s + ds, a);
    }
    SumCongruent(xs, RankIn(s + cs), RankIn(s + ds));
  }

  /** What a labeling of the sorted scores gives, some labeling of the scores as they came gives too. */
  lemma Attained(s: seq<real>, y: seq<Label>, sorted: seq<real>, zs: seq<Label>, cs: seq<real>) returns (ys: seq<Label>)
    requires |s| == |y| && |sorted| == |zs| && multiset(sorted) == multiset(cs)
    ensures |ys| == |cs| && AucOf(s + cs, y + ys) == AucOf(s + sorted, y + zs)
  {
    ys := CarryOver(sorted, zs, cs, RankIn(s + sorted));
    SameRanks(s, sorted, cs, Pick(cs, ys, 1));
    SameRanks(s, sorted, cs, Pick(sorted, zs, 1));
    hide AucOf, SumBy, RankIn, Pick;
    RankSumDecides(s, y, sorted, zs, cs, ys);
    RankSumDecides(s, y, cs, ys, sorted, zs);
  }

  // ------------------------------------------------------------------
  // The method
  // ------------------------------------------------------------------

  /** The least and greatest AUC found; None stands for the infinities the search starts from. */
  datatype Bounds = Bounds(lo: Option<real>, hi: Option<real>) | LengthMismatch

  /** The AUC under one labeling of the censored scores. */
  function AucWith(pool: seq<Pred>, censored: seq<Pred>, ys: seq<Label>): Option<real>
    requires AllLabeled(pool) && |ys| == |censored|
  {
    LabeledLengths(pool);
    AucOf(Scores(pool) + Scores(censored), KnownLabels(pool) + ys)
  }

  /** v is the least AUC over all labelings of the censored scores that leave both classes present. */
  ghost predicate IsLeastAuc(v: Option<real>, pool: seq<Pred>, censored: seq<Pred>)
    requires AllLabeled(pool)
  {
    && (forall ys: seq<Label> :: |ys| == |censored| ==> NotBelow(v, AucWith(pool, censored, ys)))
    && (v.Some? ==> exists ys: seq<Label> :: |ys| == |censored| && AucWith(pool, censored, ys) == v)
  }

  ghost predicate IsGreatestAuc(v: Option<real>, pool: seq<Pred>, censored: seq<Pred>)
    requires AllLabeled(pool)
  {
    && (forall ys: seq<Label> :: |ys| == |censored| ==> NotAbove(v, AucWith(pool, censored, ys)))
    && (v.Some? ==> exists ys: seq<Label> :: |ys| == |censored| && AucWith(pool, censored, ys) == v)
  }

  predicate NotBelow(lo: Option<real>, auc: Option<real>) {
    auc.Some? ==> lo.Some? && lo.value <= auc.value
  }

  predicate NotAbove(hi: Option<real>, auc: Option<real>) {
    auc.Some? ==> hi.Some? && auc.value <= hi.value
  }

  function Lower(lo: Option<real>, r: AucResult): Option<real> {
    if r.Value? && (lo.None? || r.value < lo.value) then Some(r.value) else lo
  }

  function Higher(hi: Option<real>, r: AucResult): Option<real> {
    if r.Value? && (hi.None? || r.value > hi.value) then Some(r.value) else hi
  }

  /** The bounds cover every count of positives below n, and each is attained by one of them. */
  ghost predicate Covers(s: seq<real>, y: seq<Label>, sorted: seq<real>, n: nat, lo: Option<real>, hi: Option<real>)
    requires |s| == |y|
  {
    && (forall k :: 0 <= k < n && k <= |sorted| ==> NotBelow(lo, AucOf(s + sorted, y + LowLabels(|sorted|, k))))
    && (forall k :: 0 <= k < n && k <= |sorted| ==> NotAbove(hi, AucOf(s + sorted, y + HighLabels(|sorted|, k))))
    && (lo.Some? ==> exists k :: 0 <= k < n && k <= |sorted| && AucOf(s + sorted, y + LowLabels(|sorted|, k)) == lo)
    && (hi.Some? ==> exists k :: 0 <= k < n && k <= |sorted| && AucOf(s + sorted, y + HighLabels(|sorted|, k)) == hi)
  }

  lemma CoversNext(s: seq<real>, y: seq<Label>, sorted: seq<real>, n: nat, lo: Option<real>, hi: Option<real>,
                   rLo: AucResult, rHi: AucResult)
    requires |s| == |y| && n <= |sorted| && Covers(s, y, sorted, n, lo, hi)
    requires rLo == ResultOf(AucOf(s + sorted, y + LowLabels(|sorted|, n)))
    requires rHi == ResultOf(AucOf(s + sorted, y + HighLabels(|sorted|, n)))
    ensures Covers(s, y, sorted, n + 1, Lower(lo, rLo), Higher(hi, rHi))
  {
    hide AucOf, LowLabels, HighLabels;
  }

  lemma CoveredBounds(pool: seq<Pred>, censored: seq<Pred>, sorted: seq<real>, lo: Option<real>, hi: Option<real>)
    requires AllLabeled(pool) && Ascending(sorted) && multiset(sorted) == multiset(Scores(censored))
    requires |Scores(pool)| == |KnownLabels(pool)|
    requires Covers(Scores(pool), KnownLabels(pool), sorted, |sorted| + 1, lo, hi)
    ensures IsLeastAuc(lo, pool, censored) && IsGreatestAuc(hi, pool, censored)
  {
    hide AucOf, LowLabels, HighLabels;
    var (s, y, cs) := (Scores(pool), KnownLabels(pool), Scores(censored));
    assert |sorted| == |multiset(sorted)| == |cs|;
    forall ys: seq<Label> | |ys| == |censored|
      ensures NotBelow(lo, AucWith(pool, censored, ys)) && NotAbove(hi, AucWith(pool, censored, ys))
    {
      BoundsForCount(s, y, cs, ys, sorted);
    }
    if lo.Some? {
      var k :| 0 <= k <= |sorted| && AucOf(s + sorted, y + LowLabels(|sorted|, k)) == lo;
      var ys := Attained(s, y, sorted, LowLabels(|sorted|, k), cs);
      assert AucWith(pool, censored, ys) == lo;
    }
    if hi.Some? {
      var k :| 0 <= k <= |sorted| && AucOf(s + sorted, y + HighLabels(|sorted|, k)) == hi;
      var ys := Attained(s, y, sorted, HighLabels(|sorted|, k), cs);
      assert AucWith(pool, censored, ys) == hi;
    }
  }

  /** With k of m censored scores positive both classes are present. */
  predicate BothClasses(y: seq<Label>, m: nat, k: nat) {
    0 < CountOnes(y) + k < |y| + m
  }

  lemma LowAndHighCount(y: seq<Label>, m: nat, k: nat)
    requires k <= m
    ensures CountOnes(y + LowLabels(m, k)) == CountOnes(y) + k == CountOnes(y + HighLabels(m, k))
  {
    var cs := seq(m, _ => 0.0);
    PickLow(cs, k);
    PickHigh(cs, k);
    OnesConcat(y, LowLabels(m, k));
    OnesConcat(y, HighLabels(m, k));
  }

  /** One AUC for the lowest k as positives and one for the highest, for every k. */
  method Search(s: seq<real>, y: seq<Label>, sorted: seq<real>) returns (r: Bounds)
    ensures |s| == |y| ==> r.Bounds? && Covers(s, y, sorted, |sorted| + 1, r.lo, r.hi)
    ensures r.LengthMismatch? <==> |s| != |y| && exists k :: 0 <= k <= |sorted| && BothClasses(y, |sorted|, k)
  {
    hide AucOf, LowLabels, HighLabels, Covers;
    var lo, hi: Option<real> := None, None;
    if |s| == |y| {
      NothingCovered(s, y, sorted);
    }
    for k := 0 to |sorted| + 1
      invariant |s| == |y| ==> Covers(s, y, sorted, k, lo, hi)
      invariant |s| != |y| ==> forall j :: 0 <= j < k ==> !BothClasses(y, |sorted|, j)
    {
      LowAndHighCount(y, |sorted|, k);
      var rLo := ComputeAuc(s + sorted, y + LowLabels(|sorted|, k));
      var rHi := ComputeAuc(s + sorted, y + HighLabels(|sorted|, k));
      if rLo.LengthError? || rHi.LengthError? {
        assert BothClasses(y, |sorted|, k);
        return LengthMismatch;
      }
      if |s| == |y| {
        CoversNext(s, y, sorted, k, lo, hi, rLo, rHi);
      }
      lo, hi := Lower(lo, rLo), Higher(hi, rHi);
    }
    r := Bounds(lo, hi);
  }

  /** With a labeled pool the bounds are exact: least and greatest over all labelings, each attained. */
  method ComputeBounds(pool: seq<Pred>, censored: seq<Pred>) returns (r: Bounds)
    ensures AllLabeled(pool) ==> r.Bounds? && IsLeastAuc(r.lo, pool, censored) && IsGreatestAuc(r.hi, pool, censored)
    ensures r.LengthMismatch? <==>
      !AllLabeled(pool) && exists k :: 0 <= k <= |censored| && BothClasses(KnownLabels(pool), |censored|, k)
  {
    hide Covers, KnownLabels, IsLeastAuc, IsGreatestAuc, Order, Arranged;
    var cs := Scores(censored);
    LabeledLengths(pool);
    OrderSorts(cs, |cs|);
    assert cs[..|cs|] == cs;
    var sorted := Arranged(cs, Order(cs, |cs|));
    r := Search(Scores(pool), KnownLabels(pool), sorted);
    if AllLabeled(pool) {
      CoveredBounds(pool, censored, sorted, r.lo, r.hi);
    }
  }

  lemma NothingCovered(s: seq<real>, y: seq<Label>, sorted: seq<real>)
    requires |s| == |y|
    ensures Covers(s, y, sorted, 0, None, None)
  {
  }
}
