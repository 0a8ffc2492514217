/**
 * Order-preserving selection and stable sorting over finite sequences: the
 * meaning of the stream pipelines (`filter`, `sorted`, `collect`) that the
 * collection manager rebuilds its list with.
 */
module Sequences {

  /** `a` is obtained from `b` by deleting elements and keeping the order of the rest. */
  ghost predicate Subsequence<T>(a: seq<T>, b: seq<T>)
    decreases |b|
  {
    if a == [] then true
    else if b == [] then false
    else (a[0] == b[0] && Subsequence(a[1..], b[1..])) || Subsequence(a, b[1..])
  }

  lemma {:induction false} SubsequenceMembers<T>(a: seq<T>, b: seq<T>)
    requires Subsequence(a, b)
    ensures forall x :: x in a ==> x in b
    decreases |b|
  {
    if a != [] {
      if a[0] == b[0] && Subsequence(a[1..], b[1..]) {
        SubsequenceMembers(a[1..], b[1..]);
        forall x | x in a ensures x in b {
          if x != a[0] {
            assert x in a[1..];
          }
        }
      } else {
        SubsequenceMembers(a, b[1..]);
      }
    }
  }

  /** The elements of `s` that satisfy `p`, in their original order (`stream().filter(p)`). */
  function Filter<T(==,!new)>(s: seq<T>, p: T -> bool): (r: seq<T>)
    ensures forall x :: x in r ==> p(x)
    ensures forall x :: p(x) ==> multiset(r)[x] == multiset(s)[x]
    ensures Subsequence(r, s)
    decreases |s|
  {
    if s == [] then []
    else
      assert s == [s[0]] + s[1..];
      if p(s[0]) then [s[0]] + Filter(s[1..], p) else Filter(s[1..], p)
  }

  lemma {:induction false} FilterAppend<T(!new)>(a: seq<T>, b: seq<T>, p: T -> bool)
    ensures Filter(a + b, p) == Filter(a, p) + Filter(b, p)
    decreases |a|
  {
    if a == [] {
      assert a + b == b;
    } else {
      assert (a + b)[0] == a[0];
      assert (a + b)[1..] == a[1..] + b;
      FilterAppend(a[1..], b, p);
    }
  }

  /** Filtering keeps everything exactly when every element satisfies the predicate. */
  lemma {:induction false} FilterKeepsAll<T(!new)>(s: seq<T>, p: T -> bool)
    ensures Filter(s, p) == s <==> forall x :: x in s ==> p(x)
    decreases |s|
  {
    if s != [] {
      FilterKeepsAll(s[1..], p);
      if !p(s[0]) {
        assert |Filter(s[1..], p)| <= |s[1..]| by {
          SubsequenceLength(Filter(s[1..], p), s[1..]);
        }
      } else {
        assert forall x :: x in s <==> x == s[0] || x in s[1..];
      }
    }
  }

  lemma {:induction false} SubsequenceLength<T>(a: seq<T>, b: seq<T>)
    requires Subsequence(a, b)
    ensures |a| <= |b|
    decreases |b|
  {
    if a != [] {
      if a[0] == b[0] && Subsequence(a[1..], b[1..]) {
        SubsequenceLength(a[1..], b[1..]);
      } else {
        SubsequenceLength(a, b[1..]);
      }
    }
  }

  /** The positions of `s` whose element satisfies `p`. */
  ghost function IndicesWhere<T>(s: seq<T>, p: T -> bool): set<nat>
  {
    set i: nat | i < |s| && p(s[i])
  }

  lemma IndicesWhereSnoc<T>(init: seq<T>, x: T, p: T -> bool)
    ensures |IndicesWhere(init + [x], p)| == |IndicesWhere(init, p)| + (if p(x) then 1 else 0)
  {
    var s := init + [x];
    var before, after := IndicesWhere(init, p), IndicesWhere(s, p);
    var last: set<nat> := if p(x) then {|init|} else {};
    assert after == before + last by {
      forall i | i in after ensures i in before + last {
        if i < |init| { assert s[i] == init[i]; }
      }
      forall i | i in before + last ensures i in after {
        if i < |init| { assert s[i] == init[i]; }
      }
    }
    assert |init| !in before;
  }

  /** Counting the filtered stream counts the positions that satisfy the predicate. */
  lemma {:induction false} FilterCountsIndices<T(!new)>(s: seq<T>, p: T -> bool)
    ensures |Filter(s, p)| == |IndicesWhere(s, p)|
    decreases |s|
  {
    if s != [] {
      var init, x := s[..|s| - 1], s[|s| - 1];
      assert s == init + [x];
      FilterAppend(init, [x], p);
      assert |Filter([x], p)| == if p(x) then 1 else 0 by {
        assert [x][1..] == [];
      }
      FilterCountsIndices(init, p);
      IndicesWhereSnoc(init, x, p);
    }
  }

  // ---------------------------------------------------------------------------
  // Stable sorting by a total preorder
  // ---------------------------------------------------------------------------

  /** `le(a, b)` holds when a comparator puts `a` at or before `b` (`compare(a, b) <= 0`). */
  ghost predicate TotalPreorder<T(!new)>(le: (T, T) -> bool)
  {
    (forall x, y :: le(x, y) || le(y, x)) &&
    (forall x, y, z :: le(x, y) && le(y, z) ==> le(x, z))
  }

  ghost predicate SortedBy<T>(s: seq<T>, le: (T, T) -> bool)
  {
    forall i, j :: 0 <= i < j < |s| ==> le(s[i], s[j])
  }

  /** `x` placed before the first element it is not after: the step of a stable insertion sort. */
  function Insert<T(==,!new)>(x: T, s: seq<T>, le: (T, T) -> bool): (r: seq<T>)
    ensures multiset(r) == multiset(s) + multiset{x}
    ensures forall y :: y in r <==> y == x || y in s
    decreases |s|
  {
    if s == [] then [x]
    else if le(x, s[0]) then [x] + s
    else
      assert s == [s[0]] + s[1..];
      [s[0]] + Insert(x, s[1..], le)
  }

  /** A stable sort by `le` (`stream().sorted(comparator)`). */
  function SortBy<T(==,!new)>(s: seq<T>, le: (T, T) -> bool): (r: seq<T>)
    ensures multiset(r) == multiset(s)
    decreases |s|
  {
    if s == [] then []
    else
      assert s == [s[0]] + s[1..];
      Insert(s[0], SortBy(s[1..], le), le)
  }

  lemma {:induction false} InsertKeepsSorted<T(!new)>(x: T, s: seq<T>, le: (T, T) -> bool)
    requires TotalPreorder(le)
    requires SortedBy(s, le)
    ensures SortedBy(Insert(x, s, le), le)
    decreases |s|
  {
    if s != [] && !le(x, s[0]) {
      assert le(s[0], x);
      InsertKeepsSorted(x, s[1..], le);
      var t := Insert(x, s[1..], le);
      forall y | y in t ensures le(s[0], y) {
        if y != x {
          var j :| 0 <= j < |s[1..]| && s[1..][j] == y;
          assert s[j + 1] == y;
        }
      }
      var r := [s[0]] + t;
      forall i, j | 0 <= i < j < |r| ensures le(r[i], r[j]) {
        if i > 0 {
          assert r[i] == t[i - 1] && r[j] == t[j - 1];
        } else {
          assert r[j] in t;
        }
      }
    }
  }

  lemma {:induction false} SortBySorts<T(!new)>(s: seq<T>, le: (T, T) -> bool)
    requires TotalPreorder(le)
    ensures SortedBy(SortBy(s, le), le)
    decreases |s|
  {
    if s != [] {
      SortBySorts(s[1..], le);
      InsertKeepsSorted(s[0], SortBy(s[1..], le), le);
    }
  }

  /** A sequence that is already sorted comes back unchanged. */
  lemma {:induction false} SortedIsFixpoint<T(!new)>(s: seq<T>, le: (T, T) -> bool)
    requires SortedBy(s, le)
    ensures SortBy(s, le) == s
    decreases |s|
  {
    if s != [] {
      var tail := s[1..];
      assert SortedBy(tail, le) by {
        forall i, j | 0 <= i < j < |tail| ensures le(tail[i], tail[j]) {
          assert tail[i] == s[i + 1] && tail[j] == s[j + 1];
        }
      }
      SortedIsFixpoint(tail, le);
      if tail != [] {
        assert le(s[0], tail[0]) by { assert tail[0] == s[1]; }
      }
      assert [s[0]] + tail == s;
    }
  }

  /** Sorting twice gives what sorting once gives. */
  lemma SortIdempotent<T(!new)>(s: seq<T>, le: (T, T) -> bool)
    requires TotalPreorder(le)
    ensures SortBy(SortBy(s, le), le) == SortBy(s, le)
  {
    SortBySorts(s, le);
    SortedIsFixpoint(SortBy(s, le), le);
  }

  /** The elements `le` cannot tell apart from `z`. */
  function SameKey<T>(le: (T, T) -> bool, z: T): (p: T -> bool)
  {
    y => le(y, z) && le(z, y)
  }

  lemma {:induction false} InsertStable<T(!new)>(x: T, t: seq<T>, le: (T, T) -> bool, z: T)
    requires TotalPreorder(le)
    ensures Filter(Insert(x, t, le), SameKey(le, z))
         == (if SameKey(le, z)(x) then [x] else []) + Filter(t, SameKey(le, z))
    decreases |t|
  {
    var q := SameKey(le, z);
    if t == [] {
      assert [x][1..] == [];
    } else if le(x, t[0]) {
      assert ([x] + t)[1..] == t;
    } else {
      InsertStable(x, t[1..], le, z);
      assert ([t[0]] + Insert(x, t[1..], le))[1..] == Insert(x, t[1..], le);
      if q(x) {
        assert !q(t[0]);
      }
    }
  }

  /**
   * Stability: among the elements `le` cannot tell apart, the sorted sequence
   * keeps the input order.
   */
  lemma {:induction false} SortByStable<T(!new)>(s: seq<T>, le: (T, T) -> bool, z: T)
    requires TotalPreorder(le)
    ensures Filter(SortBy(s, le), SameKey(le, z)) == Filter(s, SameKey(le, z))
    decreases |s|
  {
    if s != [] {
      SortByStable(s[1..], le, z);
      InsertStable(s[0], SortBy(s[1..], le), le, z);
    }
  }

  /** Everything a caller of a stable sort may rely on. */
  lemma SortByProperties<T(!new)>(s: seq<T>, le: (T, T) -> bool)
    requires TotalPreorder(le)
    ensures multiset(SortBy(s, le)) == multiset(s)
    ensures SortedBy(SortBy(s, le), le)
    ensures forall z :: Filter(SortBy(s, le), SameKey(le, z)) == Filter(s, SameKey(le, z))
    ensures SortedBy(s, le) ==> SortBy(s, le) == s
  {
    SortBySorts(s, le);
    forall z ensures Filter(SortBy(s, le), SameKey(le, z)) == Filter(s, SameKey(le, z)) {
      SortByStable(s, le, z);
    }
    if SortedBy(s, le) {
      SortedIsFixpoint(s, le);
    }
  }
}
