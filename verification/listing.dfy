/** `Array.prototype.filter` and the facts every list page relies on: the
    result is an order-preserving subsequence, filtering twice changes
    nothing, and two filters commute. */
module Listing {

  /** `xs.filter(p)`. */
  function Keep<T(==, !new)>(xs: seq<T>, p: T -> bool): (r: seq<T>)
    ensures |r| <= |xs|
    ensures forall x :: x in r <==> x in xs && p(x)
  {
    if |xs| == 0 then []
    else
      var rest := Keep(xs[1..], p);
      if p(xs[0]) then [xs[0]] + rest else rest
  }

  /** Filtering keeps every match as often as it occurs and every other
      element never. */
  lemma {:induction false} KeepCounts<T(!new)>(xs: seq<T>, p: T -> bool)
    ensures forall x :: multiset(Keep(xs, p))[x] == if p(x) then multiset(xs)[x] else 0
  {
    if |xs| > 0 {
      KeepCounts(xs[1..], p);
      assert xs == [xs[0]] + xs[1..];
    }
  }

  /** `idx` picks out `ys` from `xs` at strictly increasing positions. */
  predicate Embedding<T(==, !new)>(idx: seq<nat>, ys: seq<T>, xs: seq<T>) {
    && |idx| == |ys|
    && (forall k | 0 <= k < |idx| :: idx[k] < |xs| && ys[k] == xs[idx[k]])
    && (forall k, l | 0 <= k < l < |idx| :: idx[k] < idx[l])
  }

  /** `ys` is `xs` with some elements removed and the rest in order. */
  ghost predicate IsSubsequence<T(!new)>(ys: seq<T>, xs: seq<T>) {
    exists idx: seq<nat> :: Embedding(idx, ys, xs)
  }

  /** The positions `Keep` retains, in order. */
  function KeptPositions<T(==, !new)>(xs: seq<T>, p: T -> bool, from: nat): (r: seq<nat>)
    requires from <= |xs|
    ensures forall k | 0 <= k < |r| :: from <= r[k] < |xs|
    decreases |xs| - from
  {
    if from == |xs| then []
    else
      var rest := KeptPositions(xs, p, from + 1);
      if p(xs[from]) then [from] + rest else rest
  }

  lemma {:induction false} KeptPositionsEmbed<T(!new)>(xs: seq<T>, p: T -> bool, from: nat)
    requires from <= |xs|
    ensures Embedding(KeptPositions(xs, p, from), Keep(xs[from..], p), xs)
    decreases |xs| - from
  {
    if from < |xs| {
      KeptPositionsEmbed(xs, p, from + 1);
      assert xs[from..][1..] == xs[from + 1..];
      assert xs[from..][0] == xs[from];
    }
  }

  /** Filtering keeps an order-preserving subsequence. */
  lemma KeepIsSubsequence<T(!new)>(xs: seq<T>, p: T -> bool)
    ensures IsSubsequence(Keep(xs, p), xs)
  {
    KeptPositionsEmbed(xs, p, 0);
    assert xs[0..] == xs;
  }

  /** A predicate every element meets keeps the whole list. */
  lemma {:induction false} KeepAll<T(!new)>(xs: seq<T>, p: T -> bool)
    requires forall k | 0 <= k < |xs| :: p(xs[k])
    ensures Keep(xs, p) == xs
  {
    if |xs| > 0 {
      KeepAll(xs[1..], p);
      assert [xs[0]] + xs[1..] == xs;
    }
  }

  /** Filtering what was already filtered by the same predicate changes
      nothing. */
  lemma KeepIdempotent<T(!new)>(xs: seq<T>, p: T -> bool)
    ensures Keep(Keep(xs, p), p) == Keep(xs, p)
  {
    var r := Keep(xs, p);
    assert forall k | 0 <= k < |r| :: r[k] in r;
    KeepAll(r, p);
  }

  /** The conjunction of two predicates. */
  function Both<T>(p: T -> bool, q: T -> bool): T -> bool {
    x => p(x) && q(x)
  }

  /** Two filters in a row are one filter by both predicates. */
  lemma {:induction false} KeepKeep<T(!new)>(xs: seq<T>, p: T -> bool, q: T -> bool)
    ensures Keep(Keep(xs, p), q) == Keep(xs, Both(p, q))
  {
    if |xs| > 0 {
      KeepKeep(xs[1..], p, q);
      var rest := Keep(xs[1..], p);
      if p(xs[0]) {
        assert ([xs[0]] + rest)[1..] == rest;
      }
    }
  }

  /** The order in which two filters run does not matter. */
  lemma KeepCommutes<T(!new)>(xs: seq<T>, p: T -> bool, q: T -> bool)
    ensures Keep(Keep(xs, p), q) == Keep(Keep(xs, q), p)
  {
    KeepKeep(xs, p, q);
    KeepKeep(xs, q, p);
    KeepSamePredicate(xs, Both(p, q), Both(q, p));
  }

  /** Filtering twice keeps an order-preserving subsequence too. */
  lemma KeepKeepIsSubsequence<T(!new)>(xs: seq<T>, p: T -> bool, q: T -> bool)
    ensures IsSubsequence(Keep(Keep(xs, p), q), xs)
  {
    KeepKeep(xs, p, q);
    KeepIsSubsequence(xs, Both(p, q));
  }

  lemma {:induction false} KeepSamePredicate<T(!new)>(xs: seq<T>, p: T -> bool, q: T -> bool)
    requires forall x :: p(x) == q(x)
    ensures Keep(xs, p) == Keep(xs, q)
  {
    if |xs| > 0 {
      KeepSamePredicate(xs[1..], p, q);
    }
  }

  /** How many elements satisfy `p`: `xs.filter(p).length`. */
  function Count<T(==, !new)>(xs: seq<T>, p: T -> bool): nat {
    |Keep(xs, p)|
  }

  /** Elements satisfying one of two exclusive predicates are counted at
      most once, so the two counts together never exceed the length. */
  lemma {:induction false} DisjointCountsBounded<T(!new)>(xs: seq<T>, p: T -> bool, q: T -> bool)
    requires forall x :: !(p(x) && q(x))
    ensures Count(xs, p) + Count(xs, q) <= |xs|
  {
    if |xs| > 0 {
      DisjointCountsBounded(xs[1..], p, q);
    }
  }
}
