/** Totals of an integer-valued measure over finite sets and sequences. */
module Sums {

  ghost function Sum<T(!new)>(s: set<T>, f: T -> int): int
  {
    if s == {} then 0 else
    var x :| x in s;
    f(x) + Sum(s - {x}, f)
  }

  lemma {:induction false} SumRemove<T(!new)>(s: set<T>, f: T -> int, x: T)
    requires x in s
    ensures Sum(s, f) == f(x) + Sum(s - {x}, f)
    decreases s
  {
    var y :| y in s && Sum(s, f) == f(y) + Sum(s - {y}, f);
    if y != x {
      SumRemove(s - {y}, f, x);
      SumRemove(s - {x}, f, y);
      assert s - {y} - {x} == s - {x} - {y};
    }
  }

  /** Adding a fresh element adds its measure. */
  lemma SumInsert<T(!new)>(s: set<T>, f: T -> int, x: T)
    requires x !in s
    ensures Sum(s + {x}, f) == Sum(s, f) + f(x)
  {
    SumRemove(s + {x}, f, x);
    assert s + {x} - {x} == s;
  }

  lemma {:induction false} SumCong<T(!new)>(s: set<T>, f: T -> int, g: T -> int)
    requires forall x | x in s :: f(x) == g(x)
    ensures Sum(s, f) == Sum(s, g)
    decreases s
  {
    if s != {} {
      var x :| x in s;
      SumRemove(s, f, x);
      SumRemove(s, g, x);
      SumCong(s - {x}, f, g);
    }
  }

  lemma {:induction false} SumUnion<T(!new)>(s: set<T>, t: set<T>, f: T -> int)
    requires s !! t
    ensures Sum(s + t, f) == Sum(s, f) + Sum(t, f)
    decreases t
  {
    if t == {} {
      assert s + t == s;
    } else {
      var x :| x in t;
      SumRemove(t, f, x);
      SumRemove(s + t, f, x);
      assert s + t - {x} == s + (t - {x});
      SumUnion(s, t - {x}, f);
    }
  }

  lemma {:induction false} SumNonNegative<T(!new)>(s: set<T>, f: T -> int)
    requires forall x | x in s :: f(x) >= 0
    ensures Sum(s, f) >= 0
    decreases s
  {
    if s != {} {
      var x :| x in s;
      SumRemove(s, f, x);
      SumNonNegative(s - {x}, f);
    }
  }

  lemma {:induction false} SumZero<T(!new)>(s: set<T>, f: T -> int)
    requires forall x | x in s :: f(x) == 0
    ensures Sum(s, f) == 0
    decreases s
  {
    if s != {} {
      var x :| x in s;
      SumRemove(s, f, x);
      SumZero(s - {x}, f);
    }
  }

  /** The table grows by at most the key `x`, and only the measure of `x` changes. */
  lemma SumPointwise<T(!new)>(s: set<T>, s': set<T>, f: T -> int, f': T -> int, x: T)
    requires s' == s + {x}
    requires forall y | y in s && y != x :: f'(y) == f(y)
    ensures Sum(s', f') == Sum(s, f) - (if x in s then f(x) else 0) + f'(x)
  {
    SumRemove(s', f', x);
    assert s' - {x} == s - {x};
    SumCong(s - {x}, f, f');
    if x in s {
      SumRemove(s, f, x);
    } else {
      assert s - {x} == s;
    }
  }

  /** The key set stays, and only the measures of the keys in `c` change. */
  lemma SumChange<T(!new)>(s: set<T>, f: T -> int, f': T -> int, c: set<T>)
    requires c <= s
    requires forall y | y in s && y !in c :: f'(y) == f(y)
    ensures Sum(s, f') - Sum(c, f') == Sum(s, f) - Sum(c, f)
  {
    SumUnion(s - c, c, f);
    SumUnion(s - c, c, f');
    assert s - c + c == s;
    SumCong(s - c, f, f');
  }

  function Range<T(!new)>(xs: seq<T>): (r: set<T>)
    ensures forall x :: x in r <==> x in xs
  {
    set x | x in xs
  }

  ghost predicate Distinct<T>(xs: seq<T>)
  {
    forall i, j | 0 <= i < j < |xs| :: xs[i] != xs[j]
  }

  lemma DistinctAppend<T>(xs: seq<T>, x: T)
    requires Distinct(xs) && x !in xs
    ensures Distinct(xs + [x])
  {
  }

  /** Total of a list of integers. */
  function Total(xs: seq<int>): int
  {
    if xs == [] then 0 else Total(xs[..|xs| - 1]) + xs[|xs| - 1]
  }

  /** Summing a measure along a duplicate-free list is summing it over the set of its elements. */
  lemma {:induction false} SumOfList<T(!new)>(xs: seq<T>, f: T -> int, vs: seq<int>)
    requires Distinct(xs) && |vs| == |xs|
    requires forall i | 0 <= i < |xs| :: vs[i] == f(xs[i])
    ensures Sum(Range(xs), f) == Total(vs)
    ensures |Range(xs)| == |xs|
  {
    if xs == [] {
      assert Range(xs) == {};
    } else {
      var n := |xs| - 1;
      var init := xs[..n];
      SumOfList(init, f, vs[..n]);
      assert xs == init + [xs[n]];
      assert xs[n] !in init;
      assert Range(xs) == Range(init) + {xs[n]};
      SumInsert(Range(init), f, xs[n]);
    }
  }

  /** Total of a measure along a list. */
  function SumBy<T>(xs: seq<T>, f: T -> int): int {
    if xs == [] then 0 else SumBy(xs[..|xs| - 1], f) + f(xs[|xs| - 1])
  }

  lemma {:induction false} SumByAppend<T>(xs: seq<T>, ys: seq<T>, f: T -> int)
    ensures SumBy(xs + ys, f) == SumBy(xs, f) + SumBy(ys, f)
    decreases |ys|
  {
    if ys == [] {
      assert xs + ys == xs;
    } else {
      var n := |ys| - 1;
      SumByAppend(xs, ys[..n], f);
      assert (xs + ys)[..|xs + ys| - 1] == xs + ys[..n];
    }
  }

  /** Pointwise equal measures have equal totals. */
  lemma {:induction false} SumByCong<S, T>(xs: seq<S>, f: S -> int, ys: seq<T>, g: T -> int)
    requires |xs| == |ys| && forall i | 0 <= i < |xs| :: f(xs[i]) == g(ys[i])
    ensures SumBy(xs, f) == SumBy(ys, g)
    decreases |xs|
  {
    if xs != [] {
      var n := |xs| - 1;
      SumByCong(xs[..n], f, ys[..n], g);
    }
  }

  lemma {:induction false} SumByAdd<T>(xs: seq<T>, f: T -> int, g: T -> int, h: T -> int)
    requires forall i | 0 <= i < |xs| :: h(xs[i]) == f(xs[i]) + g(xs[i])
    ensures SumBy(xs, h) == SumBy(xs, f) + SumBy(xs, g)
    decreases |xs|
  {
    if xs != [] { SumByAdd(xs[..|xs| - 1], f, g, h); }
  }

  lemma {:induction false} SumByDistinct<T(!new)>(xs: seq<T>, f: T -> int)
    requires Distinct(xs)
    ensures SumBy(xs, f) == Sum(Range(xs), f)
    decreases |xs|
  {
    if xs == [] {
      assert Range(xs) == {};
    } else {
      var n := |xs| - 1;
      var init := xs[..n];
      SumByDistinct(init, f);
      assert xs == init + [xs[n]] && xs[n] !in init;
      assert Range(xs) == Range(init) + {xs[n]};
      SumInsert(Range(init), f, xs[n]);
    }
  }

  /** Two duplicate-free lists of the same elements have the same total. */
  lemma SumByPermutation<T(!new)>(xs: seq<T>, ys: seq<T>, f: T -> int)
    requires Distinct(xs) && Distinct(ys) && Range(xs) == Range(ys)
    ensures SumBy(xs, f) == SumBy(ys, f)
  {
    SumByDistinct(xs, f);
    SumByDistinct(ys, f);
  }
}
