/** Sequence helpers shared by the model: `Array.prototype.filter`, `Set`-based de-duplication,
    and the facts about them that the rest of the model relies on. */
module Sequences {

  /** No element occurs twice. */
  predicate Distinct<T(==,!new)>(s: seq<T>)
  {
    forall i, j :: 0 <= i < j < |s| ==> s[i] != s[j]
  }

  /** `r` can be obtained from `s` by deleting elements, keeping the order of the rest. */
  predicate Subsequence<T(==,!new)>(r: seq<T>, s: seq<T>)
    decreases |s|
  {
    if s == [] then r == []
    else Subsequence(r, s[..|s| - 1])
         || (r != [] && r[|r| - 1] == s[|s| - 1] && Subsequence(r[..|r| - 1], s[..|s| - 1]))
  }

  /** `s.filter(p)`: the elements satisfying `p`, in their original order. */
  function Filter<T(==,!new)>(s: seq<T>, p: T -> bool): (r: seq<T>)
    ensures |r| <= |s|
    ensures forall x :: x in r <==> x in s && p(x)
  {
    if s == [] then []
    else Filter(s[..|s| - 1], p) + (if p(s[|s| - 1]) then [s[|s| - 1]] else [])
  }

  /** `Filter` keeps every element satisfying `p` as often as it occurs, and drops all others. */
  lemma {:induction false} FilterCounts<T(!new)>(s: seq<T>, p: T -> bool, x: T)
    ensures multiset(Filter(s, p))[x] == if p(x) then multiset(s)[x] else 0
  {
    if s != [] {
      var front, last := s[..|s| - 1], s[|s| - 1];
      assert s == front + [last];
      FilterCounts(front, p, x);
    }
  }

  /** `Filter` keeps the surviving elements in their original order. */
  lemma {:induction false} FilterIsSubsequence<T(!new)>(s: seq<T>, p: T -> bool)
    ensures Subsequence(Filter(s, p), s)
  {
    if s != [] {
      var front, last := s[..|s| - 1], s[|s| - 1];
      FilterIsSubsequence(front, p);
      var r := Filter(s, p);
      if p(last) {
        assert r[..|r| - 1] == Filter(front, p);
      } else {
        assert r == Filter(front, p);
      }
    }
  }

  /** Filtering with a predicate that every element satisfies keeps the whole sequence. */
  lemma {:induction false} FilterAll<T(!new)>(s: seq<T>, p: T -> bool)
    requires forall x :: x in s ==> p(x)
    ensures Filter(s, p) == s
  {
    if s != [] {
      FilterAll(s[..|s| - 1], p);
      assert s == s[..|s| - 1] + [s[|s| - 1]];
    }
  }

  /** Filtering a concatenation filters each part. */
  lemma {:induction false} FilterAppend<T(!new)>(s: seq<T>, t: seq<T>, p: T -> bool)
    ensures Filter(s + t, p) == Filter(s, p) + Filter(t, p)
    decreases |t|
  {
    if t == [] {
      assert s + t == s;
    } else {
      var front, last := t[..|t| - 1], t[|t| - 1];
      var tail := if p(last) then [last] else [];
      FilterAppend(s, front, p);
      assert (s + t)[..|s + t| - 1] == s + front;
      assert (s + t)[|s + t| - 1] == last;
      calc {
        Filter(s + t, p);
        Filter(s + front, p) + tail;
        (Filter(s, p) + Filter(front, p)) + tail;
        Filter(s, p) + (Filter(front, p) + tail);
      }
    }
  }

  /** The distinct elements of `s` in order of first occurrence (insertion order of a JavaScript `Set`). */
  function Dedup<T(==,!new)>(s: seq<T>): (r: seq<T>)
    ensures Distinct(r)
    ensures forall x :: x in r <==> x in s
  {
    if s == [] then []
    else
      var d := Dedup(s[..|s| - 1]);
      var last := s[|s| - 1];
      assert s == s[..|s| - 1] + [last];
      if last in d then d else d + [last]
  }

  /** Two sequences with the same multiset have the same members. */
  lemma SameMembers<T>(s: seq<T>, r: seq<T>)
    requires multiset(s) == multiset(r)
    ensures forall x :: x in s <==> x in r
  {
    forall x
      ensures x in s <==> x in r
    {
      assert x in s <==> x in multiset(s);
      assert x in r <==> x in multiset(r);
    }
  }

  /** De-duplication never lengthens a sequence. */
  lemma {:induction false} DedupNoLonger<T(!new)>(s: seq<T>)
    ensures |Dedup(s)| <= |s|
  {
    if s != [] {
      DedupNoLonger(s[..|s| - 1]);
    }
  }

  lemma {:induction false} DistinctAtMostOnce<T(!new)>(s: seq<T>, x: T)
    requires Distinct(s)
    ensures multiset(s)[x] <= 1
  {
    if s != [] {
      var front, last := s[..|s| - 1], s[|s| - 1];
      assert s == front + [last];
      DistinctAtMostOnce(front, x);
    }
  }

  lemma RepeatedTwice<T(!new)>(r: seq<T>, i: int, j: int)
    requires 0 <= i < j < |r| && r[i] == r[j]
    ensures multiset(r)[r[i]] >= 2
  {
    assert r == r[..j] + r[j..];
    assert r[..j][i] == r[i];
    assert r[j..][0] == r[i];
    assert multiset(r[..j])[r[i]] >= 1;
    assert multiset(r[j..])[r[i]] >= 1;
  }

  /** A permutation of a duplicate-free sequence is duplicate-free. */
  lemma PermutationKeepsDistinct<T(!new)>(s: seq<T>, r: seq<T>)
    requires multiset(s) == multiset(r) && Distinct(s)
    ensures Distinct(r)
  {
    forall i, j | 0 <= i < j < |r|
      ensures r[i] != r[j]
    {
      if r[i] == r[j] {
        RepeatedTwice(r, i, j);
        DistinctAtMostOnce(s, r[i]);
      }
    }
  }

  /** Dropping the last element of a concatenation with a non-empty right part. */
  lemma DropLastOfAppend<T>(a: seq<T>, b: seq<T>)
    requires b != []
    ensures (a + b)[..|a + b| - 1] == a + b[..|b| - 1]
    ensures (a + b)[|a + b| - 1] == b[|b| - 1]
  {
  }
}
