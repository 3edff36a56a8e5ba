/** Finite sums over sets and the ways a sum changes when one summand does. */
module Sums {

  ghost function Sum<T(!new)>(s: set<T>, f: T -> real): real
  {
    if s == {} then 0.0 else
    var x :| x in s;
    f(x) + Sum(s - {x}, f)
  }

  /** The sum does not depend on which element is taken out first. */
  lemma {:induction false} Extract<T(!new)>(s: set<T>, f: T -> real, x: T)
    requires x in s
    ensures Sum(s, f) == f(x) + Sum(s - {x}, f)
    decreases |s|
  {
    var y :| y in s && Sum(s, f) == f(y) + Sum(s - {y}, f);
    if x != y {
      Extract(s - {y}, f, x);
      Extract(s - {x}, f, y);
      assert s - {y} - {x} == s - {x} - {y};
    }
  }

  lemma {:induction false} Congruent<T(!new)>(s: set<T>, f: T -> real, g: T -> real)
    requires forall x :: x in s ==> f(x) == g(x)
    ensures Sum(s, f) == Sum(s, g)
    decreases |s|
  {
    if s != {} {
      var x :| x in s;
      Extract(s, f, x);
      Extract(s, g, x);
      Congruent(s - {x}, f, g);
    }
  }

  /** Changing one summand changes the sum by exactly that difference. */
  lemma Change<T(!new)>(s: set<T>, f: T -> real, g: T -> real, x: T)
    requires x in s
    requires forall y :: y in s && y != x ==> f(y) == g(y)
    ensures Sum(s, g) == Sum(s, f) - f(x) + g(x)
  {
    Extract(s, f, x);
    Extract(s, g, x);
    Congruent(s - {x}, f, g);
  }

  /** Adding one new element adds its summand. */
  lemma Insert<T(!new)>(s: set<T>, f: T -> real, g: T -> real, x: T)
    requires x !in s
    requires forall y :: y in s ==> f(y) == g(y)
    ensures Sum(s + {x}, g) == Sum(s, f) + g(x)
  {
    Extract(s + {x}, g, x);
    assert s + {x} - {x} == s;
    Congruent(s, f, g);
  }

  lemma Remove<T(!new)>(s: set<T>, f: T -> real, g: T -> real, x: T)
    requires x in s
    requires forall y :: y in s && y != x ==> f(y) == g(y)
    ensures Sum(s - {x}, g) == Sum(s, f) - f(x)
  {
    Extract(s, f, x);
    Congruent(s - {x}, f, g);
  }

  lemma {:induction false} AllZero<T(!new)>(s: set<T>, f: T -> real)
    requires forall x :: x in s ==> f(x) == 0.0
    ensures Sum(s, f) == 0.0
    decreases |s|
  {
    if s != {} {
      var x :| x in s;
      Extract(s, f, x);
      AllZero(s - {x}, f);
    }
  }

  /** A sum of which only the summand at x may be negative is at least that summand. */
  lemma {:induction false} AtLeast<T(!new)>(s: set<T>, f: T -> real, x: T)
    requires forall y :: y in s && y != x ==> f(y) >= 0.0
    ensures Sum(s, f) >= (if x in s && f(x) < 0.0 then f(x) else 0.0)
    decreases |s|
  {
    if s != {} {
      var y :| y in s;
      Extract(s, f, y);
      AtLeast(s - {y}, f, x);
    }
  }

  lemma {:induction false} Difference<T(!new)>(s: set<T>, f: T -> real, g: T -> real, d: T -> real)
    requires forall x :: x in s ==> d(x) == f(x) - g(x)
    ensures Sum(s, d) == Sum(s, f) - Sum(s, g)
    decreases |s|
  {
    if s != {} {
      var x :| x in s;
      Extract(s, f, x);
      Extract(s, g, x);
      Extract(s, d, x);
      Difference(s - {x}, f, g, d);
    }
  }
}
