/** Sequence operations behind Python list comprehensions and `set` conversion. */
module Seqs {

  /** `a` can be obtained from `b` by deleting elements (order kept). */
  predicate IsSubsequence<T(==)>(a: seq<T>, b: seq<T>)
    decreases |b|
  {
    if a == [] then true
    else if b == [] then false
    else (a[0] == b[0] && IsSubsequence(a[1..], b[1..])) || IsSubsequence(a, b[1..])
  }

  lemma {:induction false} SubsequenceReflexive<T>(s: seq<T>)
    ensures IsSubsequence(s, s)
  {
    if s != [] {
      SubsequenceReflexive(s[1..]);
    }
  }

  /** `rel` holds between the elements of `xs` and `ys` at each position,
      stated from the last pair back. */
  predicate Matched<A, B>(rel: (A, B) -> bool, xs: seq<A>, ys: seq<B>)
    decreases |xs|
  {
    && |xs| == |ys|
    && (xs != [] ==>
          && Matched(rel, xs[..|xs| - 1], ys[..|ys| - 1])
          && rel(xs[|xs| - 1], ys[|ys| - 1]))
  }

  lemma MatchedAppend<A, B>(rel: (A, B) -> bool, xs: seq<A>, ys: seq<B>, x: A, y: B)
    requires Matched(rel, xs, ys) && rel(x, y)
    ensures Matched(rel, xs + [x], ys + [y])
  {
    assert (xs + [x])[..|xs|] == xs;
    assert (ys + [y])[..|ys|] == ys;
  }

  /** Read position by position. */
  lemma {:induction false} MatchedEach<A, B>(rel: (A, B) -> bool, xs: seq<A>, ys: seq<B>)
    requires Matched(rel, xs, ys)
    ensures |xs| == |ys|
    ensures forall k | 0 <= k < |xs| :: rel(xs[k], ys[k])
    decreases |xs|
  {
    if xs != [] {
      var n := |xs| - 1;
      MatchedEach(rel, xs[..n], ys[..n]);
      forall k | 0 <= k < |xs|
        ensures rel(xs[k], ys[k])
      {
        if k < n {
          assert xs[..n][k] == xs[k] && ys[..n][k] == ys[k];
        }
      }
    }
  }

  /** The list read back to front. */
  function Reverse<T>(s: seq<T>): (r: seq<T>)
    ensures |r| == |s|
    ensures forall i | 0 <= i < |s| :: r[i] == s[|s| - 1 - i]
    ensures multiset(r) == multiset(s)
  {
    if s == [] then []
    else
      assert s == [s[0]] + s[1..];
      Reverse(s[1..]) + [s[0]]
  }

  /** No element occurs twice. */
  predicate NoDuplicates<T(==)>(s: seq<T>)
  {
    forall i, j :: 0 <= i < j < |s| ==> s[i] != s[j]
  }

  /** Without duplicates, a list holds each of its elements exactly once: it
      is the set of its elements in some order. */
  lemma {:induction false} NoDuplicatesCount<T>(s: seq<T>)
    requires NoDuplicates(s)
    ensures forall x {:trigger multiset(s)[x]} :: multiset(s)[x] == if x in s then 1 else 0
  {
    if s != [] {
      assert s == [s[0]] + s[1..];
      assert NoDuplicates(s[1..]) by {
        forall i, j | 0 <= i < j < |s[1..]|
          ensures s[1..][i] != s[1..][j]
        {
          assert s[1..][i] == s[i + 1] && s[1..][j] == s[j + 1];
        }
      }
      NoDuplicatesCount(s[1..]);
      assert s[0] !in s[1..] by {
        forall k | 0 <= k < |s[1..]|
          ensures s[1..][k] != s[0]
        {
          assert s[1..][k] == s[k + 1];
        }
      }
      assert multiset(s) == multiset{s[0]} + multiset(s[1..]);
    }
  }

  /** The comprehension `[x for x in s if p(x)]`. */
  function Filter<T(!new)>(s: seq<T>, p: T -> bool): (r: seq<T>)
    ensures forall x {:trigger x in r} :: x in r <==> x in s && p(x)
  {
    if s == [] then []
    else
      var rest := Filter(s[1..], p);
      assert s == [s[0]] + s[1..];
      if p(s[0]) then [s[0]] + rest else rest
  }

  /** A comprehension keeps the kept elements in their order and with their
      multiplicity, and keeps everything when the condition always holds. */
  lemma {:induction false} FilterKeepsOrder<T(!new)>(s: seq<T>, p: T -> bool)
    ensures IsSubsequence(Filter(s, p), s)
    ensures forall x {:trigger multiset(Filter(s, p))[x]} ::
      multiset(Filter(s, p))[x] == if p(x) then multiset(s)[x] else 0
    ensures (forall x :: x in s ==> p(x)) ==> Filter(s, p) == s
  {
    if s != [] {
      FilterKeepsOrder(s[1..], p);
      assert s == [s[0]] + s[1..];
    }
  }

  /** Filtering twice is filtering once by the conjunction. */
  lemma {:induction false} FilterTwice<T(!new)>(s: seq<T>, p: T -> bool, q: T -> bool)
    ensures Filter(Filter(s, p), q) == Filter(s, x => p(x) && q(x))
  {
    if s != [] {
      FilterTwice(s[1..], p, q);
    }
  }

  /** Two comprehensions in a row keep what both conditions accept, in
      order and with its multiplicity. */
  lemma FilterTwiceKeepsOrder<T(!new)>(s: seq<T>, p: T -> bool, q: T -> bool)
    ensures IsSubsequence(Filter(Filter(s, p), q), s)
    ensures forall x {:trigger multiset(Filter(Filter(s, p), q))[x]} ::
      multiset(Filter(Filter(s, p), q))[x] == if p(x) && q(x) then multiset(s)[x] else 0
  {
    FilterTwice(s, p, q);
    FilterKeepsOrder(s, x => p(x) && q(x));
  }

  /** The distinct elements of `s`, each kept at its last occurrence:
      one enumeration of `set(s)`. */
  function Dedup<T(==,!new)>(s: seq<T>): (r: seq<T>)
    ensures forall x {:trigger x in r} :: x in r <==> x in s
    ensures NoDuplicates(r)
  {
    if s == [] then []
    else if s[0] in s[1..] then Dedup(s[1..])
    else
      var rest := Dedup(s[1..]);
      assert forall k :: 0 <= k < |rest| ==> rest[k] in rest && rest[k] in s[1..];
      [s[0]] + rest
  }
}
