/** Finite sums over sets. Every accounting statement of the ledger is an equation between such sums. */
module Sums {

  function Elements<T>(xs: seq<T>): set<T> { set x | x in xs }

  /** No element occurs twice. */
  ghost predicate Distinct<T>(xs: seq<T>) {
    xs == [] || (xs[|xs| - 1] !in xs[..|xs| - 1] && Distinct(xs[..|xs| - 1]))
  }

  lemma {:induction false} DistinctPrefix<T>(xs: seq<T>, n: nat)
    requires Distinct(xs) && n <= |xs|
    ensures Distinct(xs[..n]) && forall i :: n <= i < |xs| ==> xs[i] !in xs[..n]
  {
    if n < |xs| {
      var rest := xs[..|xs| - 1];
      DistinctPrefix(rest, n);
      assert rest[..n] == xs[..n];
      forall i | n <= i < |xs| ensures xs[i] !in xs[..n] {
        if i < |xs| - 1 { assert rest[i] == xs[i]; }
      }
    } else {
      assert xs[..n] == xs;
    }
  }

  ghost function Sum<T>(s: set<T>, f: T -> int): int
  {
    if s == {} then 0 else
      var x :| x in s;
      f(x) + Sum(s - {x}, f)
  }

  /** The sum does not depend on the order in which elements are taken. */
  lemma {:induction false} SumSplit<T>(s: set<T>, x: T, f: T -> int)
    requires x in s
    ensures Sum(s, f) == f(x) + Sum(s - {x}, f)
    decreases |s|
  {
    var y :| y in s && Sum(s, f) == f(y) + Sum(s - {y}, f);
    if x != y {
      SumSplit(s - {y}, x, f);
      SumSplit(s - {x}, y, f);
      assert s - {x} - {y} == s - {y} - {x};
    }
  }

  lemma {:induction false} SumZero<T>(s: set<T>, f: T -> int)
    requires forall x :: x in s ==> f(x) == 0
    ensures Sum(s, f) == 0
    decreases |s|
  {
    if s != {} {
      var x :| x in s;
      SumSplit(s, x, f);
      SumZero(s - {x}, f);
    }
  }

  /** Elements on which the summand vanishes may be added to the index set. */
  lemma {:induction false} SumExtend<T>(s: set<T>, s': set<T>, f: T -> int, g: T -> int)
    requires s <= s'
    requires forall x :: x in s ==> f(x) == g(x)
    requires forall x :: x in s' - s ==> g(x) == 0
    ensures Sum(s, f) == Sum(s', g)
    decreases |s|
  {
    if s == {} {
      SumZero(s', g);
    } else {
      var x :| x in s;
      SumSplit(s, x, f);
      SumSplit(s', x, g);
      SumExtend(s - {x}, s' - {x}, f, g);
    }
  }

  /** Sums are additive in the summand. */
  lemma {:induction false} SumAdd<T>(s: set<T>, f: T -> int, g: T -> int, h: T -> int)
    requires forall x :: x in s ==> h(x) == f(x) + g(x)
    ensures Sum(s, h) == Sum(s, f) + Sum(s, g)
    decreases |s|
  {
    if s != {} {
      var x :| x in s;
      SumSplit(s, x, f);
      SumSplit(s, x, g);
      SumSplit(s, x, h);
      SumAdd(s - {x}, f, g, h);
    }
  }

  lemma {:induction false} SumMono<T>(s: set<T>, f: T -> int, g: T -> int)
    requires forall x :: x in s ==> f(x) <= g(x)
    ensures Sum(s, f) <= Sum(s, g)
    decreases |s|
  {
    if s != {} {
      var x :| x in s;
      SumSplit(s, x, f);
      SumSplit(s, x, g);
      SumMono(s - {x}, f, g);
    }
  }

  lemma {:induction false} DistinctIndices<T>(xs: seq<T>)
    ensures Distinct(xs) <==> forall i, j :: 0 <= i < j < |xs| ==> xs[i] != xs[j]
  {
    if xs != [] {
      var n := |xs| - 1;
      DistinctIndices(xs[..n]);
      assert forall i :: 0 <= i < n ==> xs[..n][i] == xs[i];
    }
  }
}
