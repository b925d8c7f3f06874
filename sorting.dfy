/** The model of `Array.prototype.sort(compare)`: a stable sort under an ordering given as
    `le(a, b)`, "a may come before b" (the comparator returns a value <= 0). */
module Sorting {
  import opened Sequences

  /** `le` is total and transitive, as a consistent comparator must be. */
  ghost predicate TotalPreorder<T(!new)>(le: (T, T) -> bool)
  {
    && (forall a, b :: le(a, b) || le(b, a))
    && (forall a, b, c :: le(a, b) && le(b, c) ==> le(a, c))
  }

  ghost predicate SortedBy<T>(s: seq<T>, le: (T, T) -> bool)
  {
    forall i, j :: 0 <= i < j < |s| ==> le(s[i], s[j])
  }

  /** Inserts `x` before the first element it may precede. */
  function Insert<T(!new)>(x: T, s: seq<T>, le: (T, T) -> bool): (r: seq<T>)
    ensures |r| == |s| + 1
    ensures multiset(r) == multiset(s) + multiset{x}
  {
    if s == [] then [x]
    else if le(x, s[0]) then [x] + s
    else
      assert s == [s[0]] + s[1..];
      [s[0]] + Insert(x, s[1..], le)
  }

  /** Stable insertion sort: elements that compare equal keep their input order. */
  function InsertionSort<T(!new)>(s: seq<T>, le: (T, T) -> bool): (r: seq<T>)
    ensures |r| == |s|
    ensures multiset(r) == multiset(s)
  {
    if s == [] then []
    else
      assert s == [s[0]] + s[1..];
      Insert(s[0], InsertionSort(s[1..], le), le)
  }

  lemma {:induction false} InsertSorted<T(!new)>(x: T, s: seq<T>, le: (T, T) -> bool)
    requires TotalPreorder(le) && SortedBy(s, le)
    ensures SortedBy(Insert(x, s, le), le)
  {
    if s != [] && !le(x, s[0]) {
      var rest := Insert(x, s[1..], le);
      InsertSorted(x, s[1..], le);
      assert le(s[0], x);
      forall y | y in rest
        ensures le(s[0], y)
      {
        assert y in multiset(rest);
        assert y == x || y in multiset(s[1..]);
      }
      var r := [s[0]] + rest;
      forall i, j | 0 <= i < j < |r|
        ensures le(r[i], r[j])
      {
        if i == 0 {
          assert r[j] == rest[j - 1];
        } else {
          assert r[i] == rest[i - 1] && r[j] == rest[j - 1];
        }
      }
    }
  }

  /** `a` and `b` compare equal: each may come before the other. */
  predicate Tied<T>(le: (T, T) -> bool, a: T, b: T)
  {
    le(a, b) && le(b, a)
  }

  /** Filtering a one-element sequence keeps the element exactly when it is selected. */
  lemma FilterSingleton<T(!new)>(y: T, p: T -> bool)
    ensures Filter([y], p) == if p(y) then [y] else []
  {
    assert [y][..0] == [];
  }

  /** Inserting `x` keeps it ahead of every element that `p` selects together with it. */
  lemma {:induction false} FilterInsert<T(!new)>(x: T, s: seq<T>, le: (T, T) -> bool, p: T -> bool)
    requires p(x) ==> forall y :: p(y) ==> le(x, y)
    ensures Filter(Insert(x, s, le), p) == Filter([x], p) + Filter(s, p)
  {
    if s == [] {
      assert [x] + s == [x];
    } else if le(x, s[0]) {
      FilterAppend([x], s, p);
    } else {
      FilterInsert(x, s[1..], le, p);
      assert Insert(x, s, le) == [s[0]] + Insert(x, s[1..], le);
      FilterPastHead(s[0], Insert(x, s[1..], le), x, s[1..], p);
      assert [s[0]] + s[1..] == s;
    }
  }

  /** When `p` cannot select both `x` and `h`, a selected `x` may move in front of `h`. */
  lemma FilterPastHead<T(!new)>(h: T, rest: seq<T>, x: T, tail: seq<T>, p: T -> bool)
    requires p(x) ==> !p(h)
    requires Filter(rest, p) == Filter([x], p) + Filter(tail, p)
    ensures Filter([h] + rest, p) == Filter([x], p) + Filter([h] + tail, p)
  {
    FilterAppend([h], rest, p);
    FilterAppend([h], tail, p);
    var fx, fh, fr, ft := Filter([x], p), Filter([h], p), Filter(rest, p), Filter(tail, p);
    if p(x) {
      FilterSingleton(h, p);
      assert fh + fr == fr && fh + ft == ft;
    } else {
      FilterSingleton(x, p);
      assert fx + (fh + ft) == fh + ft && fr == ft;
    }
  }

  /** The sort is stable: the elements tied with any `z` come out in the order they went in. */
  lemma {:induction false} InsertionSortStable<T(!new)>(s: seq<T>, le: (T, T) -> bool, z: T)
    requires TotalPreorder(le)
    ensures Filter(InsertionSort(s, le), y => Tied(le, z, y)) == Filter(s, y => Tied(le, z, y))
  {
    var p := y => Tied(le, z, y);
    if s != [] {
      InsertionSortStable(s[1..], le, z);
      FilterInsert(s[0], InsertionSort(s[1..], le), le, p);
      FilterAppend([s[0]], s[1..], p);
      assert [s[0]] + s[1..] == s;
    }
  }

  /** The sort's result is ordered by `le`. */
  lemma {:induction false} InsertionSortSorted<T(!new)>(s: seq<T>, le: (T, T) -> bool)
    requires TotalPreorder(le)
    ensures SortedBy(InsertionSort(s, le), le)
  {
    if s != [] {
      InsertionSortSorted(s[1..], le);
      InsertSorted(s[0], InsertionSort(s[1..], le), le);
    }
  }
}
