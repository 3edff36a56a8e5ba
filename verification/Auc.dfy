/** The area under the ROC curve by rank sums, and why that is pair counting. */
module Auc {
  import opened Domain
  import opened SeqSums

  /** 1 for a positive, 0 for a negative. */
  type Label = n: nat | n <= 1

  /** The values carrying one of the labels, in order. */
  function Pick(scores: seq<real>, labels: seq<Label>, which: Label): seq<real>
    requires |scores| == |labels|
  {
    if scores == [] then [] else
    var n := |scores| - 1;
    Pick(scores[..n], labels[..n], which) + if labels[n] == which then [scores[n]] else []
  }

  /** A positive against a negative: one for a win, a half for a tie. */
  function Beat(a: real, b: real): real {
    if a > b then 1.0 else if a == b then 0.5 else 0.0
  }

  function Beats(a: real): real -> real {
    b => Beat(a, b)
  }

  /** Wins and half ties against all of them. */
  function Against(a: real, ys: seq<real>): real {
    SumBy(ys, Beats(a))
  }

  function Versus(ys: seq<real>): real -> real {
    a => Against(a, ys)
  }

  /** Pairs won and half the pairs tied. */
  function PairsWon(pos: seq<real>, neg: seq<real>): real {
    SumBy(pos, Versus(neg))
  }

  /** Part of all pairs of a positive and a negative. */
  function Share(won: real, pos: nat, neg: nat): real
    requires pos > 0 && neg > 0
  {
    Times(pos, neg);
    won / (pos as real * neg as real)
  }

  lemma Times(pos: nat, neg: nat)
    requires pos > 0 && neg > 0
    ensures pos as real * neg as real == (pos * neg) as real > 0.0
  {
    var p := pos * neg;
    assert p > 0;
  }

  /** Pair counting; undefined unless both classes are there. */
  function AucOf(scores: seq<real>, labels: seq<Label>): Option<real>
    requires |scores| == |labels|
  {
    var pos, neg := Pick(scores, labels, 1), Pick(scores, labels, 0);
    if pos == [] || neg == [] then None
    else Some(Share(PairsWon(pos, neg), |pos|, |neg|))
  }

  // ------------------------------------------------------------------
  // Picking
  // ------------------------------------------------------------------

  function CountOnes(labels: seq<Label>): nat {
    if labels == [] then 0 else CountOnes(labels[..|labels| - 1]) + labels[|labels| - 1]
  }

  lemma PickAppend(s: seq<real>, x: real, y: seq<Label>, l: Label, which: Label)
    requires |s| == |y|
    ensures Pick(s + [x], y + [l], which) == Pick(s, y, which) + if l == which then [x] else []
  {
    assert (s + [x])[..|s|] == s && (y + [l])[..|s|] == y;
  }

  lemma CountAppend(y: seq<Label>, l: Label)
    ensures CountOnes(y + [l]) == CountOnes(y) + l
  {
    assert (y + [l])[..|y|] == y;
  }

  lemma {:induction false} PickSplits(scores: seq<real>, labels: seq<Label>)
    requires |scores| == |labels|
    ensures |Pick(scores, labels, 1)| == CountOnes(labels) <= |labels|
    ensures |Pick(scores, labels, 0)| == |labels| - CountOnes(labels)
    ensures multiset(Pick(scores, labels, 1)) + multiset(Pick(scores, labels, 0)) == multiset(scores)
  {
    if scores != [] {
      var n := |scores| - 1;
      PickSplits(scores[..n], labels[..n]);
      SplitLast(scores);
      SplitLast(labels);
      hide Pick, CountOnes;
      PickSplitsAppend(scores[..n], scores[n], labels[..n], labels[n]);
    }
  }

  lemma PickSplitsAppend(s: seq<real>, x: real, y: seq<Label>, l: Label)
    requires |s| == |y| && |Pick(s, y, 1)| == CountOnes(y) <= |y| && |Pick(s, y, 0)| == |y| - CountOnes(y)
    requires multiset(Pick(s, y, 1)) + multiset(Pick(s, y, 0)) == multiset(s)
    ensures |Pick(s + [x], y + [l], 1)| == CountOnes(y + [l]) <= |y + [l]|
    ensures |Pick(s + [x], y + [l], 0)| == |y + [l]| - CountOnes(y + [l])
    ensures multiset(Pick(s + [x], y + [l], 1)) + multiset(Pick(s + [x], y + [l], 0)) == multiset(s + [x])
  {
    PickAppend(s, x, y, l, 0);
    PickAppend(s, x, y, l, 1);
    CountAppend(y, l);
    hide Pick, CountOnes;
    var (pos, neg) := (Pick(s, y, 1), Pick(s, y, 0));
    if l == 1 {
      assert neg + [] == neg;
    } else {
      assert pos + [] == pos;
    }
  }

  lemma {:induction false} PickConcat(s1: seq<real>, y1: seq<Label>, s2: seq<real>, y2: seq<Label>, which: Label)
    requires |s1| == |y1| && |s2| == |y2|
    ensures Pick(s1 + s2, y1 + y2, which) == Pick(s1, y1, which) + Pick(s2, y2, which)
  {
    if s2 == [] {
      assert s1 + s2 == s1 && y1 + y2 == y1;
    } else {
      var n := |s2| - 1;
      assert (s1 + s2)[..|s1 + s2| - 1] == s1 + s2[..n] && (y1 + y2)[..|s1 + s2| - 1] == y1 + y2[..n];
      PickConcat(s1, y1, s2[..n], y2[..n], which);
    }
  }

  lemma PickNext(scores: seq<real>, labels: seq<Label>, k: nat)
    requires k < |scores| == |labels|
    ensures Pick(scores[..k + 1], labels[..k + 1], 1) ==
      if labels[k] == 1 then Pick(scores[..k], labels[..k], 1) + [scores[k]] else Pick(scores[..k], labels[..k], 1)
  {
    assert scores[..k + 1][..k] == scores[..k] && labels[..k + 1][..k] == labels[..k];
  }

  // ------------------------------------------------------------------
  // Ranks
  // ------------------------------------------------------------------

  /** The average rank of a score among all scores, counted from one. */
  function Rank(all: seq<real>, a: real): real {
    Against(a, all) + 0.5
  }

  function RankIn(all: seq<real>): real -> real {
    a => Rank(all, a)
  }

  lemma AgainstSplits(all: seq<real>, xs: seq<real>, ys: seq<real>, a: real)
    requires multiset(all) == multiset(xs) + multiset(ys)
    ensures Against(a, all) == Against(a, xs) + Against(a, ys)
  {
    assert multiset(xs + ys) == multiset(all);
    SumPermute(all, xs + ys, Beats(a));
    SumConcat(xs, ys, Beats(a));
  }

  function BeatenBy(x: real): real -> real {
    a => Beat(a, x)
  }

  /** Of two scores one beats the other or they tie: one point in all. */
  lemma OnePointEach(xs: seq<real>, x: real)
    ensures SumBy(xs, BeatenBy(x)) + SumBy(xs, Beats(x)) == |xs| as real
  {
    var one: real -> real := (_ => 1.0);
    SumAdd(xs, BeatenBy(x), Beats(x), 0.0, one);
    SumConstant(xs, one, 1.0);
  }

  lemma {:induction false} SelfPairs(xs: seq<real>)
    ensures PairsWon(xs, xs) == Half(|xs| as real)
  {
    if xs != [] {
      hide SumBy, Half;
      var n := |xs| - 1;
      var (rest, x) := (xs[..n], xs[n]);
      assert xs == rest + [x];
      SelfPairs(rest);
      forall a
        ensures Against(a, xs) == Against(a, rest) + Beat(a, x)
      {
        SumAppend(rest, x, Beats(a));
      }
      hide Against;
      SumAdd(rest, Versus(rest), BeatenBy(x), 0.0, Versus(xs));
      SumAppend(rest, x, Versus(xs));
      OnePointEach(rest, x);
      assert Against(x, rest) == SumBy(rest, Beats(x)) by {
        AgainstIsSum(x, rest);
      }
      HalfNext(n as real);
    }
  }

  /** The least rank sum k positives can have. */
  function Triangular(k: real): real {
    k * (k + 1.0) / 2.0
  }

  function Half(k: real): real {
    k * k / 2.0
  }

  lemma HalfNext(k: real)
    ensures Half(k + 1.0) == Half(k) + k + 0.5
  {
  }

  lemma AgainstIsSum(x: real, ys: seq<real>)
    ensures Against(x, ys) == SumBy(ys, Beats(x))
  {
  }

  /** The rank-sum formula is pair counting, ties and all. */
  lemma RankSumIsPairCounting(scores: seq<real>, labels: seq<Label>)
    requires |scores| == |labels|
    ensures var pos, neg := Pick(scores, labels, 1), Pick(scores, labels, 0);
      SumBy(pos, RankIn(scores)) - Triangular(|pos| as real) == PairsWon(pos, neg)
  {
    hide Pick, SumBy, RankIn, PairsWon, Half, Triangular;
    var pos, neg := Pick(scores, labels, 1), Pick(scores, labels, 0);
    PickSplits(scores, labels);
    RanksSplit(scores, pos, neg);
    SelfPairs(pos);
    Triangle(|pos| as real);
  }

  /** The ranks of the positives: their pairs among themselves, with the negatives, and a half each. */
  lemma RanksSplit(all: seq<real>, pos: seq<real>, neg: seq<real>)
    requires multiset(all) == multiset(pos) + multiset(neg)
    ensures SumBy(pos, RankIn(all)) == PairsWon(pos, pos) + PairsWon(pos, neg) + 0.5 * |pos| as real
  {
    hide SumBy, Against;
    forall a
      ensures Rank(all, a) == Against(a, pos) + Against(a, neg) + 0.5
    {
      AgainstSplits(all, pos, neg, a);
    }
    hide Rank;
    SumAdd(pos, Versus(pos), Versus(neg), 0.5, RankIn(all));
  }

  lemma Triangle(k: real)
    ensures Triangular(k) == Half(k) + 0.5 * k
  {
  }

  // ------------------------------------------------------------------
  // Sorting
  // ------------------------------------------------------------------

  predicate Ascending(xs: seq<real>) {
    forall i, j :: 0 <= i <= j < |xs| ==> xs[i] <= xs[j]
  }

  /** Every position names one of the first n indices. */
  predicate Indices(order: seq<nat>, n: nat) {
    forall k :: 0 <= k < |order| ==> order[k] < n
  }

  /** The scores in the given order. */
  function Arranged(scores: seq<real>, order: seq<nat>): (r: seq<real>)
    requires Indices(order, |scores|)
    ensures |r| == |order| && forall k :: 0 <= k < |order| ==> r[k] == scores[order[k]]
  {
    if order == [] then [] else Arranged(scores, order[..|order| - 1]) + [scores[order[|order| - 1]]]
  }

  function InsertIndex(scores: seq<real>, order: seq<nat>, i: nat): (o: seq<nat>)
    requires i < |scores| && Indices(order, |scores|)
    ensures |o| == |order| + 1 && Indices(o, |scores|)
  {
    if order == [] then [i] else
    var n := |order| - 1;
    if scores[order[n]] <= scores[i] then order + [i] else InsertIndex(scores, order[..n], i) + [order[n]]
  }

  lemma ArrangedAppend(scores: seq<real>, order: seq<nat>, i: nat)
    requires i < |scores| && Indices(order, |scores|)
    ensures Arranged(scores, order + [i]) == Arranged(scores, order) + [scores[i]]
  {
    assert (order + [i])[..|order|] == order;
  }

  lemma InsertIndexAppend(scores: seq<real>, ys: seq<nat>, y: nat, i: nat)
    requires i < |scores| && y < |scores| && Indices(ys, |scores|)
    ensures InsertIndex(scores, ys + [y], i)
         == if scores[y] <= scores[i] then ys + [y] + [i] else InsertIndex(scores, ys, i) + [y]
  {
    assert (ys + [y])[..|ys|] == ys;
  }

  lemma {:induction false} InsertAdds(scores: seq<real>, order: seq<nat>, i: nat)
    requires i < |scores| && Indices(order, |scores|)
    ensures multiset(InsertIndex(scores, order, i)) == multiset(order) + multiset{i}
    ensures multiset(Arranged(scores, InsertIndex(scores, order, i))) == multiset(Arranged(scores, order)) + multiset{scores[i]}
  {
    if order == [] {
      assert [] + [i] == [i];
      ArrangedAppend(scores, [], i);
    } else {
      var n := |order| - 1;
      SplitLast(order);
      hide Arranged, InsertIndex;
      InsertAdds(scores, order[..n], i);
      InsertAddsAppend(scores, order[..n], order[n], i);
    }
  }

  lemma InsertAddsAppend(scores: seq<real>, ys: seq<nat>, y: nat, i: nat)
    requires i < |scores| && y < |scores| && Indices(ys, |scores|)
    requires multiset(InsertIndex(scores, ys, i)) == multiset(ys) + multiset{i}
    requires multiset(Arranged(scores, InsertIndex(scores, ys, i))) == multiset(Arranged(scores, ys)) + multiset{scores[i]}
    ensures multiset(InsertIndex(scores, ys + [y], i)) == multiset(ys + [y]) + multiset{i}
    ensures multiset(Arranged(scores, InsertIndex(scores, ys + [y], i)))
         == multiset(Arranged(scores, ys + [y])) + multiset{scores[i]}
  {
    InsertIndexAppend(scores, ys, y, i);
    hide Arranged, InsertIndex;
    ArrangedAppend(scores, ys, y);
    var inserted := InsertIndex(scores, ys, i);
    if scores[y] <= scores[i] {
      ArrangedAppend(scores, ys + [y], i);
      OneMore(ys + [y], i);
      OneMore(Arranged(scores, ys + [y]), scores[i]);
    } else {
      ArrangedAppend(scores, inserted, y);
      OneMoreBefore(inserted, ys, y, i);
      OneMoreBefore(Arranged(scores, inserted), Arranged(scores, ys), scores[y], scores[i]);
    }
  }

  lemma OneMore<T>(xs: seq<T>, x: T)
    ensures multiset(xs + [x]) == multiset(xs) + multiset{x}
  {
  }

  lemma OneMoreBefore<T>(inserted: seq<T>, xs: seq<T>, last: T, x: T)
    requires multiset(inserted) == multiset(xs) + multiset{x}
    ensures multiset(inserted + [last]) == multiset(xs + [last]) + multiset{x}
  {
    OneMore(inserted, last);
    OneMore(xs, last);
  }

  lemma {:induction false} InsertSorts(scores: seq<real>, order: seq<nat>, i: nat)
    requires i < |scores| && Indices(order, |scores|) && Ascending(Arranged(scores, order))
    ensures Ascending(Arranged(scores, InsertIndex(scores, order, i)))
  {
    hide Arranged, Ascending;
    if order == [] {
      assert InsertIndex(scores, order, i) == order + [i];
      ArrangedAppend(scores, order, i);
      AscendingAppend(Arranged(scores, order), scores[i]);
    } else {
      var n := |order| - 1;
      var before := Arranged(scores, order);
      LastIsTop(before);
      if scores[order[n]] <= scores[i] {
        AscendingAppend(before, scores[i]);
        ArrangedAppend(scores, order, i);
      } else {
        var o' := InsertIndex(scores, order[..n], i);
        assert order == order[..n] + [order[n]];
        ArrangedAppend(scores, order[..n], order[n]);
        assert before[..n] == Arranged(scores, order[..n]);
        InsertSorts(scores, order[..n], i);
        InsertAdds(scores, order[..n], i);
        BoundedByMultiset(Arranged(scores, o'), Arranged(scores, order[..n]), scores[i], before[n]);
        AscendingAppend(Arranged(scores, o'), before[n]);
        ArrangedAppend(scores, o', order[n]);
      }
    }
  }

  lemma LastIsTop(xs: seq<real>)
    requires Ascending(xs) && xs != []
    ensures Ascending(xs[..|xs| - 1]) && forall k :: 0 <= k < |xs| ==> xs[k] <= xs[|xs| - 1]
  {
  }

  lemma AscendingAppend(xs: seq<real>, x: real)
    requires Ascending(xs) && forall k :: 0 <= k < |xs| ==> xs[k] <= x
    ensures Ascending(xs + [x])
  {
  }

  lemma BoundedByMultiset(xs: seq<real>, ys: seq<real>, y: real, top: real)
    requires multiset(xs) == multiset(ys) + multiset{y} && y <= top && forall k :: 0 <= k < |ys| ==> ys[k] <= top
    ensures forall k :: 0 <= k < |xs| ==> xs[k] <= top
  {
    forall k | 0 <= k < |xs|
      ensures xs[k] <= top
    {
      assert xs[k] in multiset(xs);
      assert xs[k] == y || xs[k] in ys;
    }
  }

  /** The indices up to n, sorted by score. */
  function Order(scores: seq<real>, n: nat): (o: seq<nat>)
    requires n <= |scores|
    ensures |o| == n && Indices(o, |scores|)
    decreases n
  {
    if n == 0 then [] else InsertIndex(scores, Order(scores, n - 1), n - 1)
  }

  /** Every index is there, and the scores come out in ascending order. */
  lemma {:induction false} OrderSorts(scores: seq<real>, n: nat)
    requires n <= |scores|
    ensures forall i :: 0 <= i < n ==> i in Order(scores, n)
    ensures Ascending(Arranged(scores, Order(scores, n)))
    ensures multiset(Arranged(scores, Order(scores, n))) == multiset(scores[..n])
    decreases n
  {
    hide Arranged, InsertIndex, Ascending;
    if n == 0 {
      NothingArranged(scores);
    } else {
      OrderSorts(scores, n - 1);
      var o := Order(scores, n - 1);
      InsertAdds(scores, o, n - 1);
      InsertSorts(scores, o, n - 1);
      OneMoreScore(scores, n);
      AllIndices(o, InsertIndex(scores, o, n - 1), n - 1);
    }
  }

  lemma NothingArranged(scores: seq<real>)
    ensures Ascending(Arranged(scores, [])) && multiset(Arranged(scores, [])) == multiset(scores[..0])
  {
  }

  lemma OneMoreScore(scores: seq<real>, n: nat)
    requires 0 < n <= |scores|
    ensures multiset(scores[..n]) == multiset(scores[..n - 1]) + multiset{scores[n - 1]}
  {
    assert scores[..n] == scores[..n - 1] + [scores[n - 1]];
  }

  lemma AllIndices(before: seq<nat>, after: seq<nat>, n: nat)
    requires (forall i :: 0 <= i < n ==> i in before) && multiset(after) == multiset(before) + multiset{n}
    ensures forall i :: 0 <= i <= n ==> i in after
  {
    forall i | 0 <= i <= n
      ensures i in after
    {
      assert i < n ==> i in before && i in multiset(before);
      assert i in multiset(after);
    }
  }

  lemma RunParts(sorted: seq<real>, i: nat, j: nat)
    requires Ascending(sorted) && i <= j < |sorted| && sorted[i] == sorted[j]
    requires i > 0 ==> sorted[i - 1] < sorted[i]
    requires j + 1 < |sorted| ==> sorted[j] < sorted[j + 1]
    ensures forall k :: 0 <= k < i ==> sorted[k] < sorted[i]
    ensures forall k :: i <= k <= j ==> sorted[k] == sorted[i]
    ensures forall k :: j < k < |sorted| ==> sorted[i] < sorted[k]
  {
  }

  /** In sorted order, a run of equal scores at positions i to j has average rank (i + j) / 2 + 1. */
  lemma RunHasAverageRank(scores: seq<real>, sorted: seq<real>, i: nat, j: nat)
    requires multiset(scores) == multiset(sorted) && Ascending(sorted)
    requires i <= j < |sorted| && sorted[i] == sorted[j]
    requires i > 0 ==> sorted[i - 1] < sorted[i]
    requires j + 1 < |sorted| ==> sorted[j] < sorted[j + 1]
    ensures Rank(scores, sorted[i]) == (i + j) as real / 2.0 + 1.0
  {
    RunParts(sorted, i, j);
    hide Ascending, Rank;
    var (below, run, above) := (sorted[..i], sorted[i..j + 1], sorted[j + 1..]);
    ThreeParts(sorted, i, j);
    PartsAround(sorted, i, j, below, run, above);
    RankAmong(scores, below, run, above, sorted[i]);
    assert |run| as real == j as real - i as real + 1.0;
  }

  lemma ThreeParts(xs: seq<real>, i: nat, j: nat)
    requires i <= j < |xs|
    ensures xs == xs[..i] + xs[i..j + 1] + xs[j + 1..]
  {
  }

  lemma PartsAround(sorted: seq<real>, i: nat, j: nat, below: seq<real>, run: seq<real>, above: seq<real>)
    requires i <= j < |sorted| && below == sorted[..i] && run == sorted[i..j + 1] && above == sorted[j + 1..]
    requires forall k :: 0 <= k < i ==> sorted[k] < sorted[i]
    requires forall k :: i <= k <= j ==> sorted[k] == sorted[i]
    requires forall k :: j < k < |sorted| ==> sorted[i] < sorted[k]
    ensures forall x :: x in below ==> x < sorted[i]
    ensures forall x :: x in run ==> x == sorted[i]
    ensures forall x :: x in above ==> sorted[i] < x
  {
  }

  lemma RankAmong(scores: seq<real>, below: seq<real>, run: seq<real>, above: seq<real>, a: real)
    requires multiset(scores) == multiset(below + run + above)
    requires forall x :: x in below ==> x < a
    requires forall x :: x in run ==> x == a
    requires forall x :: x in above ==> a < x
    ensures Rank(scores, a) == |below| as real + 0.5 * |run| as real + 0.5
  {
    hide SumBy;
    SumPermute(scores, below + run + above, Beats(a));
    SumConcat(below + run, above, Beats(a));
    SumConcat(below, run, Beats(a));
    SumConstant(below, Beats(a), 1.0);
    SumConstant(run, Beats(a), 0.5);
    SumConstant(above, Beats(a), 0.0);
  }

  // ------------------------------------------------------------------
  // The method
  // ------------------------------------------------------------------

  /** A score, not-a-number when a class is missing, or the error of zipping lists of different lengths. */
  datatype AucResult = Value(value: real) | NotANumber | LengthError

  function ResultOf(auc: Option<real>): AucResult {
    match auc
    case Some(v) => Value(v)
    case None => NotANumber
  }

  /** Fill in the ranks, one run of equal scores at a time. */
  method Ranks(scores: seq<real>) returns (ranks: array<real>)
    ensures fresh(ranks) && ranks.Length == |scores|
    ensures forall k :: 0 <= k < |scores| ==> ranks[k] == Rank(scores, scores[k])
  {
    hide Rank, Order, Arranged;
    var n := |scores|;
    var order := Order(scores, n);
    OrderSorts(scores, n);
    assert scores[..n] == scores;
    ghost var sorted := Arranged(scores, order);
    ranks := new real[n](_ => 0.0);
    var i := 0;
    while i < n
      invariant 0 <= i <= n
      invariant 0 < i < n ==> sorted[i - 1] < sorted[i]
      invariant forall k :: 0 <= k < i ==> ranks[order[k]] == Rank(scores, scores[order[k]])
    {
      var j := i;
      while j + 1 < n && scores[order[j + 1]] == scores[order[i]]
        invariant i <= j < n && sorted[j] == sorted[i]
      {
        j := j + 1;
      }
      assert j + 1 < n ==> sorted[j] <= sorted[j + 1];
      RunHasAverageRank(scores, sorted, i, j);
      for k := i to j + 1
        invariant forall l :: 0 <= l < k ==> ranks[order[l]] == Rank(scores, scores[order[l]])
      {
        assert sorted[i] <= sorted[k] <= sorted[j];
        ranks[order[k]] := (i + j) as real / 2.0 + 1.0;
      }
      i := j + 1;
    }
    forall k | 0 <= k < n
      ensures ranks[k] == Rank(scores, scores[k])
    {
      assert k in order;
    }
  }

  method SumLabels(labels: seq<Label>) returns (pos: nat)
    ensures pos == CountOnes(labels) <= |labels|
  {
    pos := 0;
    for k := 0 to |labels|
      invariant pos == CountOnes(labels[..k]) <= k
    {
      assert labels[..k + 1][..k] == labels[..k];
      pos := pos + labels[k];
    }
    assert labels[..|labels|] == labels;
  }

  method RankSum(scores: seq<real>, labels: seq<Label>, ranks: array<real>) returns (rankPos: real)
    requires |scores| == |labels| == ranks.Length
    requires forall k :: 0 <= k < |scores| ==> ranks[k] == Rank(scores, scores[k])
    ensures rankPos == SumBy(Pick(scores, labels, 1), RankIn(scores))
  {
    rankPos := 0.0;
    for k := 0 to |scores|
      invariant rankPos == SumBy(Pick(scores[..k], labels[..k], 1), RankIn(scores))
    {
      hide Rank, SumBy;
      PickNext(scores, labels, k);
      if labels[k] == 1 {
        SumAppend(Pick(scores[..k], labels[..k], 1), scores[k], RankIn(scores));
        rankPos := rankPos + ranks[k];
      }
    }
    assert scores[..|scores|] == scores && labels[..|labels|] == labels;
  }

  /** What the rank sum computes is the pair count. */
  method ComputeAuc(scores: seq<real>, labels: seq<Label>) returns (r: AucResult)
    ensures r.LengthError? <==> |scores| != |labels| && 0 < CountOnes(labels) < |labels|
    ensures |scores| == |labels| ==> r == ResultOf(AucOf(scores, labels))
    ensures r.NotANumber? <==> CountOnes(labels) == 0 || CountOnes(labels) == |labels|
  {
    hide RankIn, SumBy, AucOf, Pick;
    var pos := SumLabels(labels);
    var neg := |labels| - pos;
    if |scores| == |labels| {
      UndefinedWithoutBoth(scores, labels);
    }
    if pos == 0 || neg == 0 {
      return NotANumber;
    }
    var ranks := Ranks(scores);
    if |scores| != |labels| {
      return LengthError;
    }
    var rankPos := RankSum(scores, labels, ranks);
    FormulaIsPairCounting(scores, labels, rankPos, pos, neg);
    r := Value((rankPos - (pos * (pos + 1)) as real / 2.0) / (pos * neg) as real);
  }

  lemma UndefinedWithoutBoth(scores: seq<real>, labels: seq<Label>)
    requires |scores| == |labels|
    ensures AucOf(scores, labels).None? <==> CountOnes(labels) == 0 || CountOnes(labels) == |labels|
  {
    PickSplits(scores, labels);
  }

  lemma FormulaIsPairCounting(scores: seq<real>, labels: seq<Label>, rankPos: real, pos: nat, neg: nat)
    requires |scores| == |labels| && pos == CountOnes(labels) && neg == |labels| - pos && pos > 0 && neg > 0
    requires rankPos == SumBy(Pick(scores, labels, 1), RankIn(scores))
    ensures (pos * neg) as real > 0.0
    ensures AucOf(scores, labels) == Some((rankPos - (pos * (pos + 1)) as real / 2.0) / (pos * neg) as real)
  {
    hide RankIn, SumBy, PairsWon, Pick, Triangular, Share;
    PickSplits(scores, labels);
    RankSumIsPairCounting(scores, labels);
    TriangularOf(pos);
    ShareOf(rankPos - (pos * (pos + 1)) as real / 2.0, pos, neg);
  }

  lemma TriangularOf(pos: nat)
    ensures (pos * (pos + 1)) as real / 2.0 == Triangular(pos as real)
  {
  }

  lemma ShareOf(won: real, pos: nat, neg: nat)
    requires pos > 0 && neg > 0
    ensures (pos * neg) as real > 0.0 && Share(won, pos, neg) == won / (pos * neg) as real
  {
    Times(pos, neg);
  }
}
