/**
 * `Array.prototype.filter` and the facts the list pages rely on: the result
 * is an order-preserving subsequence of the input, holds exactly the kept
 * elements, is idempotent, and two complementary filters split the input.
 * Also a stable sort by a numeric key, largest key first, as
 * `Array.prototype.sort` with a `(a, b) => key(b) - key(a)` comparator.
 */
module Seqs {

  /** `s.filter(keep)`. */
  function Filter<T>(s: seq<T>, keep: T -> bool): (r: seq<T>)
    ensures |r| <= |s|
    ensures forall i :: 0 <= i < |r| ==> keep(r[i])
  {
    if s == [] then []
    else
      assert s == [s[0]] + s[1..];
      (if keep(s[0]) then [s[0]] else []) + Filter(s[1..], keep)
  }

  /** Filtering a sequence with a known first element. */
  lemma FilterCons<T>(x: T, rest: seq<T>, keep: T -> bool)
    ensures Filter([x] + rest, keep) == (if keep(x) then [x] else []) + Filter(rest, keep)
  {
    assert ([x] + rest)[1..] == rest;
  }

  /** Indexing into a concatenation reaches the first part, then the second. */
  lemma AppendIndexes<T>(a: seq<T>, b: seq<T>)
    ensures forall i :: 0 <= i < |a| ==> (a + b)[i] == a[i]
    ensures forall j :: 0 <= j < |b| ==> (a + b)[|a| + j] == b[j]
  {
  }

  /** When `r` holds the elements of `a` and `b` together, it holds each of them. */
  lemma InBothHalves<T>(r: seq<T>, a: seq<T>, b: seq<T>)
    requires multiset(r) == multiset(a) + multiset(b)
    ensures forall i :: 0 <= i < |a| ==> a[i] in r
    ensures forall j :: 0 <= j < |b| ==> b[j] in r
    ensures |r| == |a| + |b|
  {
    assert |multiset(r)| == |a| + |b|;
    forall i | 0 <= i < |a|
      ensures a[i] in r
    {
      assert a[i] in multiset(a);
      assert a[i] in multiset(r);
    }
    forall j | 0 <= j < |b|
      ensures b[j] in r
    {
      assert b[j] in multiset(b);
      assert b[j] in multiset(r);
    }
  }

  /** When `r` holds the elements of `a` and `b` together, each of its elements comes from one of them. */
  lemma FromEitherHalf<T>(r: seq<T>, a: seq<T>, b: seq<T>, x: T)
    requires multiset(r) == multiset(a) + multiset(b)
    requires x in r
    ensures (exists i :: 0 <= i < |a| && a[i] == x) || (exists j :: 0 <= j < |b| && b[j] == x)
  {
    assert x in multiset(r);
  }

  /** A prefix one element longer is the shorter prefix followed by that element. */
  lemma PrefixSnoc<T>(s: seq<T>, i: nat)
    requires i < |s|
    ensures s[..i + 1] == s[..i] + [s[i]]
  {
  }

  /** Filtering a concatenation filters each part. */
  lemma {:induction false} FilterAppend<T>(a: seq<T>, b: seq<T>, keep: T -> bool)
    ensures Filter(a + b, keep) == Filter(a, keep) + Filter(b, keep)
  {
    if a != [] {
      FilterAppend(a[1..], b, keep);
      assert (a + b)[1..] == a[1..] + b;
      assert (a + b)[0] == a[0];
    } else {
      assert a + b == b;
    }
  }

  /** `a` can be obtained from `b` by deleting elements, without reordering. */
  predicate IsSubsequence<T(==)>(a: seq<T>, b: seq<T>)
    decreases |b|
  {
    a == [] || (b != [] && if a[0] == b[0] then IsSubsequence(a[1..], b[1..]) else IsSubsequence(a, b[1..]))
  }

  /** Dropping the first element of a subsequence leaves a subsequence. */
  lemma {:induction false} SubsequenceDropFirst<T>(a: seq<T>, b: seq<T>)
    requires a != [] && IsSubsequence(a, b)
    ensures IsSubsequence(a[1..], b)
    decreases |b|, 1
  {
    if a[0] == b[0] {
      SubsequencePrepend(a[1..], b[1..], b[0]);
    } else {
      SubsequenceDropFirst(a, b[1..]);
      SubsequencePrepend(a[1..], b[1..], b[0]);
    }
    assert [b[0]] + b[1..] == b;
  }

  /** Putting an element in front of `b` keeps every subsequence of `b` a subsequence. */
  lemma {:induction false} SubsequencePrepend<T>(a: seq<T>, b: seq<T>, x: T)
    requires IsSubsequence(a, b)
    ensures IsSubsequence(a, [x] + b)
    decreases |b|, 2
  {
    assert ([x] + b)[1..] == b;
    if a != [] && a[0] == x {
      SubsequenceDropFirst(a, b);
    }
  }

  /** Every sequence is a subsequence of itself. */
  lemma {:induction false} SubsequenceReflexive<T>(a: seq<T>)
    ensures IsSubsequence(a, a)
    decreases |a|
  {
    if a != [] {
      SubsequenceReflexive(a[1..]);
    }
  }

  /** A filter keeps every occurrence of a kept element and no occurrence of any other. */
  lemma {:induction false} FilterMultiset<T>(s: seq<T>, keep: T -> bool, x: T)
    ensures multiset(Filter(s, keep))[x] == if keep(x) then multiset(s)[x] else 0
  {
    if s != [] {
      FilterMultiset(s[1..], keep, x);
      assert s == [s[0]] + s[1..];
      assert multiset(s) == multiset([s[0]]) + multiset(s[1..]);
    }
  }

  /** A filter keeps elements in their original order. */
  lemma {:induction false} FilterIsSubsequence<T>(s: seq<T>, keep: T -> bool)
    ensures IsSubsequence(Filter(s, keep), s)
  {
    if s != [] {
      FilterIsSubsequence(s[1..], keep);
      var rest := Filter(s[1..], keep);
      if keep(s[0]) {
        assert Filter(s, keep) == [s[0]] + rest;
        assert ([s[0]] + rest)[1..] == rest;
      } else {
        assert Filter(s, keep) == rest;
        SubsequencePrepend(rest, s[1..], s[0]);
        assert [s[0]] + s[1..] == s;
      }
    }
  }

  /** An element is in the filtered sequence exactly when it is in the input and is kept. */
  lemma {:induction false} FilterMembership<T>(s: seq<T>, keep: T -> bool, x: T)
    ensures x in Filter(s, keep) <==> x in s && keep(x)
  {
    if s != [] {
      FilterMembership(s[1..], keep, x);
      assert s == [s[0]] + s[1..];
    }
  }

  /** Filtering the filtered sequence again changes nothing. */
  lemma {:induction false} FilterIdempotent<T>(s: seq<T>, keep: T -> bool)
    ensures Filter(Filter(s, keep), keep) == Filter(s, keep)
  {
    if s != [] {
      FilterIdempotent(s[1..], keep);
      var rest := Filter(s[1..], keep);
      if keep(s[0]) {
        assert Filter(s, keep) == [s[0]] + rest;
        FilterCons(s[0], rest, keep);
      } else {
        assert Filter(s, keep) == rest;
      }
    }
  }

  /** When every element is kept, the filter returns its input. */
  lemma {:induction false} FilterKeepsAll<T>(s: seq<T>, keep: T -> bool)
    requires forall i :: 0 <= i < |s| ==> keep(s[i])
    ensures Filter(s, keep) == s
  {
    if s != [] {
      FilterKeepsAll(s[1..], keep);
      assert s == [s[0]] + s[1..];
    }
  }

  /** The result is empty exactly when no element of the input is kept. */
  lemma {:induction false} FilterEmptyIff<T>(s: seq<T>, keep: T -> bool)
    ensures Filter(s, keep) == [] <==> forall i :: 0 <= i < |s| ==> !keep(s[i])
  {
    if s != [] {
      FilterEmptyIff(s[1..], keep);
      assert forall i :: 1 <= i < |s| ==> s[i] == s[1..][i - 1];
    }
  }

  /** A weaker condition keeps a supersequence: filtering by `k1` gives a subsequence of filtering by `k2`. */
  lemma {:induction false} FilterMonotone<T>(s: seq<T>, k1: T -> bool, k2: T -> bool)
    requires forall x :: k1(x) ==> k2(x)
    ensures IsSubsequence(Filter(s, k1), Filter(s, k2))
  {
    if s != [] {
      FilterMonotone(s[1..], k1, k2);
      var r1, r2 := Filter(s[1..], k1), Filter(s[1..], k2);
      if k1(s[0]) {
        assert Filter(s, k1) == [s[0]] + r1;
        assert Filter(s, k2) == [s[0]] + r2;
        assert ([s[0]] + r1)[1..] == r1;
        assert ([s[0]] + r2)[1..] == r2;
      } else if k2(s[0]) {
        assert Filter(s, k1) == r1;
        assert Filter(s, k2) == [s[0]] + r2;
        SubsequencePrepend(r1, r2, s[0]);
      } else {
        assert Filter(s, k1) == r1;
        assert Filter(s, k2) == r2;
      }
    }
  }

  /**
   * Two complementary filters split their input: every element goes to
   * exactly one side, so the multisets add up and so do the lengths.
   */
  lemma {:induction false} FilterSplit<T>(s: seq<T>, keep: T -> bool, drop: T -> bool)
    requires forall x :: drop(x) == !keep(x)
    ensures multiset(Filter(s, keep)) + multiset(Filter(s, drop)) == multiset(s)
    ensures |Filter(s, keep)| + |Filter(s, drop)| == |s|
  {
    if s != [] {
      FilterSplit(s[1..], keep, drop);
      assert s == [s[0]] + s[1..];
    }
  }

  /** Filters with pointwise-equal conditions give the same result. */
  lemma {:induction false} FilterCongruent<T>(s: seq<T>, k1: T -> bool, k2: T -> bool)
    requires forall x :: k1(x) == k2(x)
    ensures Filter(s, k1) == Filter(s, k2)
  {
    if s != [] {
      FilterCongruent(s[1..], k1, k2);
    }
  }

  /** `key` never increases along `s`. */
  predicate Descending<T>(s: seq<T>, key: T -> int) {
    forall i, j :: 0 <= i < j < |s| ==> key(s[i]) >= key(s[j])
  }

  /** The elements whose key is `k`. */
  function HasKey<T>(key: T -> int, k: int): T -> bool {
    x => key(x) == k
  }

  /** Puts `x` in front of the first element whose key is not larger than its own. */
  function InsertDescending<T>(x: T, t: seq<T>, key: T -> int): (r: seq<T>)
    ensures multiset(r) == multiset(t) + multiset{x}
  {
    if t == [] || key(t[0]) <= key(x) then [x] + t
    else
      assert t == [t[0]] + t[1..];
      [t[0]] + InsertDescending(x, t[1..], key)
  }

  /** Inserting into a descending sequence keeps it descending. */
  lemma {:induction false} InsertKeepsDescending<T>(x: T, t: seq<T>, key: T -> int)
    requires Descending(t, key)
    ensures Descending(InsertDescending(x, t, key), key)
  {
    if t != [] && key(t[0]) > key(x) {
      var tail := t[1..];
      InsertKeepsDescending(x, tail, key);
      var r' := InsertDescending(x, tail, key);
      forall k | 0 <= k < |r'|
        ensures key(r'[k]) <= key(t[0])
      {
        assert r'[k] in multiset(r');
        if r'[k] != x {
          assert r'[k] in multiset(tail);
        }
      }
      var r := [t[0]] + r';
      forall i, j | 0 <= i < j < |r|
        ensures key(r[i]) >= key(r[j])
      {
        assert r[j] == r'[j - 1];
        if i > 0 {
          assert r[i] == r'[i - 1];
        }
      }
    }
  }

  /**
   * `s.sort((a, b) => key(b) - key(a))` on a stable sort: an insertion sort
   * that yields the same elements with keys never increasing.
   */
  function SortDescending<T>(s: seq<T>, key: T -> int): (r: seq<T>)
    ensures multiset(r) == multiset(s)
    ensures Descending(r, key)
  {
    if s == [] then []
    else
      assert s == [s[0]] + s[1..];
      var sorted := SortDescending(s[1..], key);
      InsertKeepsDescending(s[0], sorted, key);
      InsertDescending(s[0], sorted, key)
  }

  /** Inserting an element adds it in front of its own key's elements and leaves every other key's elements alone. */
  lemma {:induction false} InsertByKey<T>(x: T, t: seq<T>, key: T -> int, k: int)
    requires Descending(t, key)
    ensures Filter(InsertDescending(x, t, key), HasKey(key, k)) == (if key(x) == k then [x] else []) + Filter(t, HasKey(key, k))
  {
    if t == [] || key(t[0]) <= key(x) {
      FilterCons(x, t, HasKey(key, k));
    } else {
      InsertByKey(x, t[1..], key, k);
      FilterCons(t[0], InsertDescending(x, t[1..], key), HasKey(key, k));
      assert t == [t[0]] + t[1..];
      FilterCons(t[0], t[1..], HasKey(key, k));
    }
  }

  /** The sort is stable: the elements with any one key come out in the order they went in. */
  lemma {:induction false} SortIsStable<T>(s: seq<T>, key: T -> int, k: int)
    ensures Filter(SortDescending(s, key), HasKey(key, k)) == Filter(s, HasKey(key, k))
  {
    if s != [] {
      SortIsStable(s[1..], key, k);
      InsertByKey(s[0], SortDescending(s[1..], key), key, k);
      assert s == [s[0]] + s[1..];
      FilterCons(s[0], s[1..], HasKey(key, k));
    }
  }

  /** Sorting neither adds, loses nor duplicates elements. */
  lemma SortKeepsElements<T>(s: seq<T>, key: T -> int)
    ensures |SortDescending(s, key)| == |s|
    ensures forall x :: x in SortDescending(s, key) <==> x in s
  {
    var r := SortDescending(s, key);
    assert |r| == |multiset(r)| == |multiset(s)| == |s|;
    forall x
      ensures x in r <==> x in s
    {
      assert x in r <==> x in multiset(r);
      assert x in s <==> x in multiset(s);
    }
  }

  /** A property every element has survives the sort. */
  lemma SortKeepsProperty<T>(s: seq<T>, key: T -> int, p: T -> bool)
    requires forall i :: 0 <= i < |s| ==> p(s[i])
    ensures forall i :: 0 <= i < |SortDescending(s, key)| ==> p(SortDescending(s, key)[i])
  {
    var r := SortDescending(s, key);
    forall i | 0 <= i < |r|
      ensures p(r[i])
    {
      assert r[i] in multiset(s);
      var k :| 0 <= k < |s| && s[k] == r[i];
    }
  }
}
