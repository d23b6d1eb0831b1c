/** `Array.prototype.filter` and the case-insensitive search the list pages
    share. */
module Listing {
  import opened Text

  /** `r` is `xs` with some elements left out, the rest in their order. */
  predicate SubsequenceOf<T(==,!new)>(r: seq<T>, xs: seq<T>)
    decreases |xs|
  {
    if |r| == 0 then true
    else if |xs| == 0 then false
    else (r[0] == xs[0] && SubsequenceOf(r[1..], xs[1..])) || SubsequenceOf(r, xs[1..])
  }

  /** `xs.filter(keep)`: the elements that pass, in their order — each one
      as often as it occurs in xs, the others not at all. */
  function Filter<T(==,!new)>(xs: seq<T>, keep: T -> bool): (r: seq<T>)
    ensures |r| <= |xs|
    ensures SubsequenceOf(r, xs)
    ensures forall i :: 0 <= i < |r| ==> keep(r[i])
    ensures forall x :: multiset(r)[x] == if keep(x) then multiset(xs)[x] else 0
    decreases |xs|
  {
    if |xs| == 0 then []
    else
      var rest := Filter(xs[1..], keep);
      assert xs == [xs[0]] + xs[1..];
      if keep(xs[0]) then
        assert ([xs[0]] + rest)[1..] == rest;
        [xs[0]] + rest
      else rest
  }

  /** Completeness and soundness by membership: an element is kept exactly
      when it is in xs and passes. */
  lemma FilterMembers<T(!new)>(xs: seq<T>, keep: T -> bool, x: T)
    ensures x in Filter(xs, keep) <==> x in xs && keep(x)
  {
    var r := Filter(xs, keep);
    assert x in r <==> multiset(r)[x] > 0;
    assert x in xs <==> multiset(xs)[x] > 0;
  }

  /** A filter that every element passes keeps the whole list. */
  lemma {:induction false} FilterKeepsAll<T(!new)>(xs: seq<T>, keep: T -> bool)
    requires forall i :: 0 <= i < |xs| ==> keep(xs[i])
    ensures Filter(xs, keep) == xs
    decreases |xs|
  {
    if |xs| > 0 {
      FilterKeepsAll(xs[1..], keep);
    }
  }

  /** The filter is empty exactly when no element passes. */
  lemma FilterEmptyIff<T(!new)>(xs: seq<T>, keep: T -> bool)
    ensures Filter(xs, keep) == [] <==> forall i :: 0 <= i < |xs| ==> !keep(xs[i])
  {
    var r := Filter(xs, keep);
    if r != [] {
      FilterMembers(xs, keep, r[0]);
    }
    forall i | 0 <= i < |xs| && keep(xs[i])
      ensures r != []
    {
      FilterMembers(xs, keep, xs[i]);
    }
  }

  /** Two tests that agree on every element select the same list. */
  lemma {:induction false} FilterCongruent<T(!new)>(xs: seq<T>, k1: T -> bool, k2: T -> bool)
    requires forall i :: 0 <= i < |xs| ==> k1(xs[i]) == k2(xs[i])
    ensures Filter(xs, k1) == Filter(xs, k2)
    decreases |xs|
  {
    if |xs| > 0 {
      FilterCongruent(xs[1..], k1, k2);
    }
  }

  /** Two tests no element passes both of select at most |xs| elements between them. */
  lemma {:induction false} DisjointFilters<T(!new)>(xs: seq<T>, a: T -> bool, b: T -> bool)
    requires forall i :: 0 <= i < |xs| ==> !(a(xs[i]) && b(xs[i]))
    ensures |Filter(xs, a)| + |Filter(xs, b)| <= |xs|
    decreases |xs|
  {
    if |xs| > 0 {
      DisjointFilters(xs[1..], a, b);
    }
  }

  /** `field.toLowerCase().includes(term.toLowerCase())`. */
  predicate Matches(field: string, term: string) {
    Includes(Lower(field), Lower(term))
  }

  /** The empty search term matches every field. */
  lemma EmptyTermMatches(field: string)
    ensures Matches(field, "")
  {
    IncludesEmpty(Lower(field));
  }

  /** Search terms that differ only in letter case match the same fields. */
  lemma MatchesIgnoresCase(field: string, t1: string, t2: string)
    requires Lower(t1) == Lower(t2)
    ensures Matches(field, t1) == Matches(field, t2)
  {
  }

  /** A match is an occurrence of the lower-cased term in the lower-cased field. */
  lemma MatchesIff(field: string, term: string)
    ensures Matches(field, term) <==> exists i :: OccursAt(Lower(field), Lower(term), i)
  {
    IncludesIff(Lower(field), Lower(term));
  }
}
