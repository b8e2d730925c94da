/** Array operations used by the dashboard: `filter`, `slice(0, n)` and first-encounter deduplication. */
module Seqs {

  /** `xs.filter(p)`: the elements of `xs` that satisfy `p`, in their original order. */
  function Filter<T(!new)>(xs: seq<T>, p: T -> bool): (r: seq<T>)
    ensures |r| <= |xs|
    ensures forall x :: x in r <==> x in xs && p(x)
  {
    if xs == [] then [] else (if p(xs[0]) then [xs[0]] else []) + Filter(xs[1..], p)
  }

  /** A filter that every element passes keeps the whole sequence. */
  lemma {:induction false} FilterAll<T(!new)>(xs: seq<T>, p: T -> bool)
    requires forall x :: x in xs ==> p(x)
    ensures Filter(xs, p) == xs
  {
    if xs != [] {
      FilterAll(xs[1..], p);
    }
  }

  /**
    * Two complementary filters split a list: every element lands in exactly one
    * of them, so the lengths add up and the multisets add up.
    */
  lemma {:induction false} FilterPartition<T(!new)>(xs: seq<T>, p: T -> bool, q: T -> bool)
    requires forall x :: q(x) <==> !p(x)
    ensures |Filter(xs, p)| + |Filter(xs, q)| == |xs|
    ensures multiset(Filter(xs, p)) + multiset(Filter(xs, q)) == multiset(xs)
  {
    FilterSplitMultiset(xs, p, q);
    assert |multiset(Filter(xs, p)) + multiset(Filter(xs, q))| == |multiset(xs)|;
  }

  lemma {:induction false} FilterSplitMultiset<T(!new)>(xs: seq<T>, p: T -> bool, q: T -> bool)
    requires forall x :: q(x) <==> !p(x)
    ensures multiset(Filter(xs, p)) + multiset(Filter(xs, q)) == multiset(xs)
  {
    forall y
      ensures multiset(Filter(xs, p))[y] + multiset(Filter(xs, q))[y] == multiset(xs)[y]
    {
      FilterCount(xs, p, y);
      FilterCount(xs, q, y);
    }
  }

  /** A filter keeps every copy of an element that passes it and none of one that fails. */
  lemma {:induction false} FilterCount<T(!new)>(xs: seq<T>, p: T -> bool, y: T)
    ensures multiset(Filter(xs, p))[y] == if p(y) then multiset(xs)[y] else 0
  {
    if xs != [] {
      var x := xs[0];
      FilterCount(xs[1..], p, y);
      assert multiset(Filter(xs, p))[y] == (if p(x) && x == y then 1 else 0) + multiset(Filter(xs[1..], p))[y] by {
        FilterHead(xs, p);
      }
      assert multiset(xs)[y] == (if x == y then 1 else 0) + multiset(xs[1..])[y] by {
        assert xs == [x] + xs[1..];
      }
    }
  }

  /** The first element is kept or dropped, then the rest is filtered. */
  lemma FilterHead<T(!new)>(xs: seq<T>, p: T -> bool)
    requires xs != []
    ensures multiset(Filter(xs, p)) == (if p(xs[0]) then multiset{xs[0]} else multiset{}) + multiset(Filter(xs[1..], p))
  {
  }

  /** `xs.slice(0, n)` for a non-negative `n`: the prefix of length min(|xs|, n). */
  function Prefix<T>(xs: seq<T>, n: nat): (r: seq<T>)
    ensures |r| == if |xs| <= n then |xs| else n
    ensures r == xs[..|r|]
  {
    if |xs| <= n then xs else xs[..n]
  }

  /** No element occurs twice. */
  predicate Distinct<T(==)>(xs: seq<T>)
  {
    forall i, j :: 0 <= i < j < |xs| ==> xs[i] != xs[j]
  }

  /** The distinct elements of `xs`, each at the place where it first occurs. */
  function FirstSeen<T(==,!new)>(xs: seq<T>): (r: seq<T>)
    ensures forall x :: x in r <==> x in xs
    ensures Distinct(r)
  {
    if xs == [] then []
    else
      var seen := FirstSeen(xs[..|xs| - 1]);
      if xs[|xs| - 1] in seen then seen else seen + [xs[|xs| - 1]]
  }
}
