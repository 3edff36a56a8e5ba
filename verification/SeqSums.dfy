/** Sums along a sequence, and what they do not depend on. */
module SeqSums {

  function Repeat<T>(x: T, n: nat): (xs: seq<T>)
    ensures |xs| == n && forall i :: 0 <= i < n ==> xs[i] == x
  {
    seq(n, _ => x)
  }

  function SumBy<T>(xs: seq<T>, f: T -> real): real {
    if xs == [] then 0.0 else SumBy(xs[..|xs| - 1], f) + f(xs[|xs| - 1])
  }

  lemma {:induction false} SumConcat<T>(xs: seq<T>, ys: seq<T>, f: T -> real)
    ensures SumBy(xs + ys, f) == SumBy(xs, f) + SumBy(ys, f)
  {
    if ys == [] {
      assert xs + ys == xs;
    } else {
      var n := |ys| - 1;
      assert (xs + ys)[..|xs + ys| - 1] == xs + ys[..n];
      SumConcat(xs, ys[..n], f);
    }
  }

  lemma SumAppend<T>(xs: seq<T>, x: T, f: T -> real)
    ensures SumBy(xs + [x], f) == SumBy(xs, f) + f(x)
  {
    assert (xs + [x])[..|xs|] == xs;
  }

  /** The order of the summands does not matter. */
  lemma {:induction false} SumPermute<T>(xs: seq<T>, ys: seq<T>, f: T -> real)
    requires multiset(xs) == multiset(ys)
    ensures SumBy(xs, f) == SumBy(ys, f)
  {
    if xs == [] {
      assert |ys| == |multiset(ys)| == 0;
    } else {
      var n := |xs| - 1;
      TakeLast(xs);
      assert xs[n] in multiset(ys);
      var i :| 0 <= i < |ys| && ys[i] == xs[n];
      TakeOut(ys, i);
      SumPermute(xs[..n], ys[..i] + ys[i + 1..], f);
      SumTakeOut(ys, i, f);
    }
  }

  lemma TakeLast<T>(xs: seq<T>)
    requires xs != []
    ensures multiset(xs[..|xs| - 1]) == multiset(xs) - multiset{xs[|xs| - 1]}
  {
    assert xs == xs[..|xs| - 1] + [xs[|xs| - 1]];
  }

  lemma TakeOut<T>(ys: seq<T>, i: nat)
    requires i < |ys|
    ensures multiset(ys[..i] + ys[i + 1..]) == multiset(ys) - multiset{ys[i]}
  {
    assert ys == ys[..i] + ([ys[i]] + ys[i + 1..]);
  }

  lemma SumTakeOut<T>(ys: seq<T>, i: nat, f: T -> real)
    requires i < |ys|
    ensures SumBy(ys, f) == SumBy(ys[..i] + ys[i + 1..], f) + f(ys[i])
  {
    hide SumBy;
    SplitAt(ys, i);
    SumMiddle(ys[..i], ys[i], ys[i + 1..], f);
  }

  lemma SplitAt<T>(xs: seq<T>, i: nat)
    requires i < |xs|
    ensures xs == xs[..i] + [xs[i]] + xs[i + 1..]
  {
  }

  lemma SplitTwo<T>(xs: seq<T>, n: nat)
    requires n <= |xs|
    ensures xs == xs[..n] + xs[n..]
  {
  }

  lemma SplitLast<T>(xs: seq<T>)
    requires xs != []
    ensures xs == xs[..|xs| - 1] + [xs[|xs| - 1]]
  {
  }

  lemma SplitFirst<T>(xs: seq<T>)
    requires xs != []
    ensures xs == [xs[0]] + xs[1..]
  {
  }

  lemma SumMiddle<T>(front: seq<T>, x: T, back: seq<T>, f: T -> real)
    ensures SumBy(front + [x] + back, f) == SumBy(front + back, f) + f(x)
  {
    hide SumBy;
    SumAppend(front, x, f);
    SumConcat(front + [x], back, f);
    SumConcat(front, back, f);
  }

  /** If h is f plus g plus a constant, so is its sum. */
  lemma {:induction false} SumAdd<T>(xs: seq<T>, f: T -> real, g: T -> real, c: real, h: T -> real)
    requires forall x :: x in xs ==> h(x) == f(x) + g(x) + c
    ensures SumBy(xs, h) == SumBy(xs, f) + SumBy(xs, g) + c * |xs| as real
  {
    if xs != [] {
      SumAdd(xs[..|xs| - 1], f, g, c, h);
    }
  }

  lemma {:induction false} SumConstant<T>(xs: seq<T>, f: T -> real, c: real)
    requires forall x :: x in xs ==> f(x) == c
    ensures SumBy(xs, f) == c * |xs| as real
  {
    if xs != [] {
      SumConstant(xs[..|xs| - 1], f, c);
    }
  }

  lemma {:induction false} SumCongruent<T>(xs: seq<T>, f: T -> real, g: T -> real)
    requires forall x :: x in xs ==> f(x) == g(x)
    ensures SumBy(xs, f) == SumBy(xs, g)
  {
    if xs != [] {
      SumCongruent(xs[..|xs| - 1], f, g);
    }
  }

  lemma {:induction false} SumMonotone<T>(xs: seq<T>, f: T -> real, g: T -> real)
    requires forall x :: x in xs ==> f(x) <= g(x)
    ensures SumBy(xs, f) <= SumBy(xs, g)
  {
    if xs != [] {
      SumMonotone(xs[..|xs| - 1], f, g);
    }
  }
}
