/** Filtering and counting over sequences, the list comprehensions of the Python code. */
module Seqs {
  import opened Wrappers

  /** `[x for x in s if p(x)]` */
  function Filter<T>(s: seq<T>, p: T -> bool): (r: seq<T>)
    ensures |r| <= |s|
    ensures forall x :: x in r ==> x in s && p(x)
  {
    if s == [] then [] else (if p(s[0]) then [s[0]] else []) + Filter(s[1..], p)
  }

  /** `[x for x in s if not p(x)]` */
  function Reject<T>(s: seq<T>, p: T -> bool): (r: seq<T>)
    ensures |r| <= |s|
    ensures forall x :: x in r ==> x in s && !p(x)
  {
    if s == [] then [] else (if p(s[0]) then [] else [s[0]]) + Reject(s[1..], p)
  }

  /** Every element is kept by exactly one of `Filter` and `Reject`. */
  lemma {:induction false} FilterRejectPartition<T>(s: seq<T>, p: T -> bool)
    ensures |Filter(s, p)| + |Reject(s, p)| == |s|
  {
    if s != [] {
      FilterRejectPartition(s[1..], p);
    }
  }

  /** Two filters whose predicates never both hold take no more elements than there are. */
  lemma {:induction false} DisjointFilters<T>(s: seq<T>, p: T -> bool, q: T -> bool)
    requires forall x :: !(p(x) && q(x))
    ensures |Filter(s, p)| + |Filter(s, q)| <= |s|
  {
    if s != [] {
      DisjointFilters(s[1..], p, q);
    }
  }

  /** Every element that satisfies `p` is kept. */
  lemma {:induction false} FilterKeeps<T>(s: seq<T>, p: T -> bool, x: T)
    requires x in s && p(x)
    ensures x in Filter(s, p)
  {
    if s[0] != x {
      FilterKeeps(s[1..], p, x);
    }
  }

  /** Filtering a list with one more element keeps that element exactly when it satisfies `p`. */
  lemma {:induction false} FilterSnoc<T>(s: seq<T>, x: T, p: T -> bool)
    ensures Filter(s + [x], p) == Filter(s, p) + (if p(x) then [x] else [])
  {
    if s == [] {
      assert [x][1..] == [];
    } else {
      assert (s + [x])[1..] == s[1..] + [x];
      FilterSnoc(s[1..], x, p);
    }
  }

  lemma AppendAssoc<T>(a: seq<T>, b: seq<T>, c: seq<T>)
    ensures a + b + c == a + (b + c)
  {
  }

  /**
   * A loop that appends `f(x)` for each `x` in order and stops at the first
   * step that raises (`None`).
   */
  function FlatMapOpt<T, U>(xs: seq<T>, f: T -> Option<seq<U>>): Option<seq<U>> {
    if xs == [] then Some([])
    else
      match (FlatMapOpt(xs[..|xs| - 1], f), f(xs[|xs| - 1]))
      case (Some(init), Some(last)) => Some(init + last)
      case _ => None
  }

  /** One more step of the loop. */
  lemma FlatMapOptStep<T, U>(xs: seq<T>, i: nat, f: T -> Option<seq<U>>)
    requires i < |xs|
    ensures FlatMapOpt(xs[..i], f).Some? && f(xs[i]).Some? ==>
      FlatMapOpt(xs[..i + 1], f) == Some(FlatMapOpt(xs[..i], f).value + f(xs[i]).value)
    ensures FlatMapOpt(xs[..i], f).None? || f(xs[i]).None? ==> FlatMapOpt(xs[..i + 1], f).None?
  {
    assert xs[..i + 1][..i] == xs[..i];
  }

  /** Once a step raises, the whole loop does. */
  lemma {:induction false} FlatMapOptFailureSticks<T, U>(xs: seq<T>, n: nat, f: T -> Option<seq<U>>)
    requires n <= |xs|
    requires FlatMapOpt(xs[..n], f).None?
    ensures FlatMapOpt(xs, f).None?
    decreases |xs| - n
  {
    if n < |xs| {
      FlatMapOptStep(xs, n, f);
      FlatMapOptFailureSticks(xs, n + 1, f);
    } else {
      assert xs[..n] == xs;
    }
  }

  /** The loop raises exactly when one of its steps does. */
  lemma {:induction false} FlatMapOptNone<T, U>(xs: seq<T>, f: T -> Option<seq<U>>)
    ensures FlatMapOpt(xs, f).None? <==> exists i :: 0 <= i < |xs| && f(xs[i]).None?
  {
    if xs != [] {
      var init := xs[..|xs| - 1];
      FlatMapOptNone(init, f);
      assert forall i :: 0 <= i < |init| ==> init[i] == xs[i];
    }
  }

  /**
   * What the loop produced: every output element comes from the step of
   * some input, and the whole output of every step is included.
   */
  lemma {:induction false} FlatMapOptMembership<T, U>(xs: seq<T>, f: T -> Option<seq<U>>, y: U)
    requires FlatMapOpt(xs, f).Some?
    ensures forall i :: 0 <= i < |xs| ==> f(xs[i]).Some?
    ensures y in FlatMapOpt(xs, f).value <==> exists i :: 0 <= i < |xs| && y in f(xs[i]).value
  {
    FlatMapOptNone(xs, f);
    if xs != [] {
      var init := xs[..|xs| - 1];
      FlatMapOptMembership(init, f, y);
      assert forall i :: 0 <= i < |init| ==> init[i] == xs[i];
    }
  }
}
