/** Sequence operations of the configurator: `Array.prototype.filter`, removal
    by index and the order-preserving sub-sequence relation they satisfy. */
module Seqs {

  /** `a` can be obtained from `b` by deleting elements, keeping the order of
      the rest. */
  predicate IsSubsequence<T(==)>(a: seq<T>, b: seq<T>)
    decreases |b|
  {
    if |a| == 0 then true
    else if |b| == 0 then false
    else if a[0] == b[0] then IsSubsequence(a[1..], b[1..])
    else IsSubsequence(a, b[1..])
  }

  lemma AppendAssoc<T>(a: seq<T>, b: seq<T>, c: seq<T>)
    ensures a + (b + c) == a + b + c
  {
  }

  /** `xs.filter(p)`: the elements satisfying `p`, in the order of `xs`. */
  function Filter<T>(xs: seq<T>, p: T -> bool): (r: seq<T>)
    ensures |r| <= |xs|
  {
    if |xs| == 0 then []
    else if p(xs[0]) then [xs[0]] + Filter(xs[1..], p)
    else Filter(xs[1..], p)
  }

  /** The filter keeps exactly the elements of `xs` satisfying `p`. */
  lemma {:induction false} FilterMembers<T>(xs: seq<T>, p: T -> bool, x: T)
    ensures x in Filter(xs, p) <==> x in xs && p(x)
  {
    if |xs| > 0 {
      FilterMembers(xs[1..], p, x);
      assert xs == [xs[0]] + xs[1..];
    }
  }

  /** Each kept element is kept as often as it occurs. */
  lemma {:induction false} FilterCounts<T>(xs: seq<T>, p: T -> bool, x: T)
    ensures multiset(Filter(xs, p))[x] == if p(x) then multiset(xs)[x] else 0
  {
    if |xs| > 0 {
      FilterCounts(xs[1..], p, x);
      assert xs == [xs[0]] + xs[1..];
    }
  }

  /** The kept elements stay in their original order. */
  lemma {:induction false} FilterOrder<T>(xs: seq<T>, p: T -> bool)
    ensures IsSubsequence(Filter(xs, p), xs)
  {
    if |xs| > 0 {
      var rest := Filter(xs[1..], p);
      FilterOrder(xs[1..], p);
      if !p(xs[0]) && rest != [] {
        FilterMembers(xs[1..], p, rest[0]);
      }
    }
  }

  /** When every element satisfies `p` the filter changes nothing. */
  lemma {:induction false} FilterKeepsAll<T>(xs: seq<T>, p: T -> bool)
    requires forall i :: 0 <= i < |xs| ==> p(xs[i])
    ensures Filter(xs, p) == xs
  {
    if |xs| > 0 {
      FilterKeepsAll(xs[1..], p);
      assert xs == [xs[0]] + xs[1..];
    }
  }

  /** Filters by predicates that agree everywhere agree. */
  lemma {:induction false} FilterCongruent<T>(xs: seq<T>, p: T -> bool, q: T -> bool)
    requires forall x :: p(x) == q(x)
    ensures Filter(xs, p) == Filter(xs, q)
  {
    if |xs| > 0 {
      FilterCongruent(xs[1..], p, q);
    }
  }

  lemma {:induction false} FilterConcat<T>(a: seq<T>, b: seq<T>, p: T -> bool)
    ensures Filter(a + b, p) == Filter(a, p) + Filter(b, p)
  {
    if |a| > 0 {
      assert (a + b)[0] == a[0];
      assert (a + b)[1..] == a[1..] + b;
      FilterConcat(a[1..], b, p);
    } else {
      assert a + b == b;
    }
  }

  function NotEqual<T(==)>(x: T): T -> bool
  {
    y => y != x
  }

  lemma WithoutFacts<T>(xs: seq<T>, x: T)
    ensures x !in Filter(xs, NotEqual(x))
    ensures forall y :: y != x ==> multiset(Filter(xs, NotEqual(x)))[y] == multiset(xs)[y]
    ensures IsSubsequence(Filter(xs, NotEqual(x)), xs)
    ensures x !in xs ==> Filter(xs, NotEqual(x)) == xs
  {
    FilterMembers(xs, NotEqual(x), x);
    forall y | y != x
      ensures multiset(Filter(xs, NotEqual(x)))[y] == multiset(xs)[y]
    {
      FilterCounts(xs, NotEqual(x), y);
    }
    FilterOrder(xs, NotEqual(x));
    if x !in xs {
      FilterKeepsAll(xs, NotEqual(x));
    }
  }

  /** Every occurrence of `x` removed (`xs.filter(t => t !== x)`). */
  function Without<T(==, !new)>(xs: seq<T>, x: T): (r: seq<T>)
    ensures x !in r
    ensures forall y :: y != x ==> multiset(r)[y] == multiset(xs)[y]
    ensures IsSubsequence(r, xs)
    ensures x !in xs ==> r == xs
  {
    WithoutFacts(xs, x);
    Filter(xs, NotEqual(x))
  }

  /** Appending an element and then removing it gives back a list that did
      not hold it. */
  lemma AppendThenWithout<T(!new)>(xs: seq<T>, x: T)
    requires x !in xs
    ensures Without(xs + [x], x) == xs
  {
    var keep := NotEqual(x);
    FilterConcat(xs, [x], keep);
    assert [x][1..] == [];
    assert Filter([x], keep) == [];
    FilterKeepsAll(xs, keep);
  }

  /** `xs.filter((_, i) => i !== index)`, written as the index-wise walk the
      filter performs. */
  function RemoveAt<T>(xs: seq<T>, index: int): (r: seq<T>)
    ensures 0 <= index < |xs| ==> r == xs[..index] + xs[index + 1..]
    ensures !(0 <= index < |xs|) ==> r == xs
  {
    if |xs| == 0 then []
    else (if index == 0 then [] else [xs[0]]) + RemoveAt(xs[1..], index - 1)
  }
}
