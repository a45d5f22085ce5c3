/**
 * Order-preserving filtering, as `Array.prototype.filter` in JavaScript and
 * a Python loop appending the matching elements to a list both do it.
 */
module Sequences {

  /** The elements of `s` that satisfy `keep`, in their order in `s`. */
  function Filter<T>(s: seq<T>, keep: T -> bool): (r: seq<T>)
    ensures |r| <= |s|
    ensures forall x :: x in r ==> x in s && keep(x)
  {
    if s == [] then [] else Filter(s[..|s| - 1], keep) + (if keep(s[|s| - 1]) then [s[|s| - 1]] else [])
  }

  /** Applies `f` to every element, keeping the order (`list.map`). */
  function Map<T, U>(s: seq<T>, f: T -> U): (r: seq<U>)
    ensures |r| == |s|
    ensures forall i :: 0 <= i < |s| ==> r[i] == f(s[i])
  {
    seq(|s|, i requires 0 <= i < |s| => f(s[i]))
  }

  /** One step of a loop that maps a prefix of `s`. */
  lemma MapSnoc<T, U>(s: seq<T>, x: T, f: T -> U)
    ensures Map(s + [x], f) == Map(s, f) + [f(x)]
  {
  }

  lemma FilterSnoc<T>(s: seq<T>, i: nat, keep: T -> bool)
    requires i < |s|
    ensures Filter(s[..i + 1], keep) == Filter(s[..i], keep) + (if keep(s[i]) then [s[i]] else [])
  {
    assert s[..i + 1][..i] == s[..i];
  }

  /** The positions `k` of `s` with `keep(s[k])`, in increasing order. */
  function KeptPositions<T>(s: seq<T>, keep: T -> bool): seq<nat>
  {
    if s == [] then [] else KeptPositions(s[..|s| - 1], keep) + (if keep(s[|s| - 1]) then [|s| - 1] else [])
  }

  predicate StrictlyIncreasing(p: seq<nat>)
  {
    forall i, j :: 0 <= i < j < |p| ==> p[i] < p[j]
  }

  lemma {:induction false} KeptPositionsBounded<T>(s: seq<T>, keep: T -> bool)
    ensures var p := KeptPositions(s, keep);
      StrictlyIncreasing(p) && forall j :: 0 <= j < |p| ==> p[j] < |s| && keep(s[p[j]])
  {
    if s != [] {
      var n := |s| - 1;
      KeptPositionsBounded(s[..n], keep);
      var p' := KeptPositions(s[..n], keep);
      assert forall j :: 0 <= j < |p'| ==> s[p'[j]] == s[..n][p'[j]];
    }
  }

  lemma {:induction false} KeptPositionsComplete<T>(s: seq<T>, keep: T -> bool, k: nat)
    requires k < |s| && keep(s[k])
    ensures k in KeptPositions(s, keep)
  {
    var n := |s| - 1;
    if k < n {
      assert s[..n][k] == s[k];
      KeptPositionsComplete(s[..n], keep, k);
    }
  }

  lemma {:induction false} FilterAtKeptPositions<T>(s: seq<T>, keep: T -> bool)
    ensures var r, p := Filter(s, keep), KeptPositions(s, keep);
      |r| == |p| && forall j :: 0 <= j < |p| ==> p[j] < |s| && r[j] == s[p[j]]
  {
    if s != [] {
      var n := |s| - 1;
      FilterAtKeptPositions(s[..n], keep);
      KeptPositionsBounded(s[..n], keep);
      var p' := KeptPositions(s[..n], keep);
      assert forall j :: 0 <= j < |p'| ==> s[p'[j]] == s[..n][p'[j]];
    }
  }

  /**
   * Filtering keeps exactly the elements at the positions that satisfy the
   * predicate, and keeps them in input order: the result lists `s[p[0]]`,
   * `s[p[1]]`, ... for the strictly increasing positions `p` of the kept
   * elements, and every position whose element satisfies the predicate is
   * one of them.
   */
  lemma FilterIsOrderedSelection<T>(s: seq<T>, keep: T -> bool)
    ensures var r, p := Filter(s, keep), KeptPositions(s, keep);
      && |r| == |p|
      && StrictlyIncreasing(p)
      && (forall j :: 0 <= j < |p| ==> p[j] < |s| && keep(s[p[j]]) && r[j] == s[p[j]])
      && (forall k :: 0 <= k < |s| && keep(s[k]) ==> k in p)
  {
    KeptPositionsBounded(s, keep);
    FilterAtKeptPositions(s, keep);
    forall k | 0 <= k < |s| && keep(s[k]) ensures k in KeptPositions(s, keep) {
      KeptPositionsComplete(s, keep, k);
    }
  }

  /** Filtering keeps every copy of a kept element and no copy of a dropped one. */
  lemma {:induction false} FilterCount<T>(s: seq<T>, keep: T -> bool, x: T)
    ensures multiset(Filter(s, keep))[x] == if keep(x) then multiset(s)[x] else 0
  {
    if s != [] {
      var n := |s| - 1;
      FilterCount(s[..n], keep, x);
      assert s == s[..n] + [s[n]];
    }
  }
}
