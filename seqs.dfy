/** Sequence helpers shared by the list updates of the desktop (Array.prototype.filter). */
module Seqs {

  /** `r` is `s` with some elements deleted and the rest kept in order. */
  ghost predicate IsSubsequence<T>(r: seq<T>, s: seq<T>)
    decreases |s|
  {
    if r == [] then true
    else if s == [] then false
    else (r[0] == s[0] && IsSubsequence(r[1..], s[1..])) || IsSubsequence(r, s[1..])
  }

  /**
   * Array.prototype.filter: the elements of `s` that satisfy `p`, in their
   * order, each as often as it occurs in `s`.
   */
  function Filter<T>(s: seq<T>, p: T -> bool): (r: seq<T>)
    ensures |r| <= |s|
    ensures IsSubsequence(r, s)
    ensures forall i :: 0 <= i < |r| ==> p(r[i]) && r[i] in s
    ensures forall i :: 0 <= i < |s| && p(s[i]) ==> s[i] in r
    ensures multiset(r) <= multiset(s)
    ensures forall i :: 0 <= i < |s| && p(s[i]) ==> multiset(r)[s[i]] == multiset(s)[s[i]]
  {
    if s == [] then []
    else
      var rest := Filter(s[1..], p);
      FilterStepOrder(s, rest, p);
      FilterStepCounts(s, rest, p);
      if p(s[0]) then [s[0]] + rest else rest
  }

  /** Keeping or dropping the head of `s` turns an ordered filter of its tail into one of `s`. */
  lemma FilterStepOrder<T>(s: seq<T>, rest: seq<T>, p: T -> bool)
    requires s != []
    requires |rest| <= |s[1..]| && IsSubsequence(rest, s[1..])
    requires forall i :: 0 <= i < |rest| ==> p(rest[i]) && rest[i] in s[1..]
    requires forall i :: 0 <= i < |s[1..]| && p(s[1..][i]) ==> s[1..][i] in rest
    ensures var r := if p(s[0]) then [s[0]] + rest else rest;
            && |r| <= |s|
            && IsSubsequence(r, s)
            && (forall i :: 0 <= i < |r| ==> p(r[i]) && r[i] in s)
            && (forall i :: 0 <= i < |s| && p(s[i]) ==> s[i] in r)
  {
    assert forall i :: 1 <= i < |s| ==> s[i] == s[1..][i - 1];
    if p(s[0]) {
      var r := [s[0]] + rest;
      assert r[1..] == rest;
      assert forall i :: 1 <= i < |r| ==> r[i] == rest[i - 1];
    }
  }

  /** Keeping or dropping the head of `s` extends the multiplicities of a filter of its tail to `s`. */
  lemma FilterStepCounts<T>(s: seq<T>, rest: seq<T>, p: T -> bool)
    requires s != []
    requires multiset(rest) <= multiset(s[1..])
    requires forall i :: 0 <= i < |s[1..]| && p(s[1..][i]) ==> multiset(rest)[s[1..][i]] == multiset(s[1..])[s[1..][i]]
    ensures var r := if p(s[0]) then [s[0]] + rest else rest;
            && multiset(r) <= multiset(s)
            && forall i :: 0 <= i < |s| && p(s[i]) ==> multiset(r)[s[i]] == multiset(s)[s[i]]
  {
    assert s == [s[0]] + s[1..];
    assert multiset(s) == multiset{s[0]} + multiset(s[1..]);
    assert forall i :: 1 <= i < |s| ==> s[i] == s[1..][i - 1];
    if p(s[0]) {
      assert multiset([s[0]] + rest) == multiset{s[0]} + multiset(rest);
      assert multiset(rest)[s[0]] == multiset(s[1..])[s[0]] by {
        if s[0] in s[1..] {
          var j :| 0 <= j < |s[1..]| && s[1..][j] == s[0];
        }
      }
    }
  }

  /** A filter whose predicate holds of every element returns its input unchanged. */
  lemma {:induction false} FilterKeepsAll<T>(s: seq<T>, p: T -> bool)
    requires forall i :: 0 <= i < |s| ==> p(s[i])
    ensures Filter(s, p) == s
  {
    if s != [] {
      FilterKeepsAll(s[1..], p);
    }
  }

  /** Two predicates that agree on the elements of `s` filter it alike. */
  lemma {:induction false} FilterSamePredicate<T>(s: seq<T>, p: T -> bool, q: T -> bool)
    requires forall i :: 0 <= i < |s| ==> p(s[i]) == q(s[i])
    ensures Filter(s, p) == Filter(s, q)
  {
    if s != [] {
      FilterSamePredicate(s[1..], p, q);
    }
  }
}
