/** Generic sequence operations: Array.prototype.filter, and a stable
    comparison sort standing for Array.prototype.sort (stable since ES2019). */
module Seqs {

  /** r can be obtained from s by deleting elements, keeping the order of the
      rest (matched greedily from the left). */
  predicate IsSubsequence<T(==)>(r: seq<T>, s: seq<T>)
    decreases |s|
  {
    if r == [] then true
    else if s == [] then false
    else if r[0] == s[0] then IsSubsequence(r[1..], s[1..])
    else IsSubsequence(r, s[1..])
  }

  /** Array.prototype.filter: the elements satisfying p, in their original
      order. */
  function Filter<T(==, !new)>(s: seq<T>, p: T -> bool): (r: seq<T>)
    ensures |r| <= |s|
    ensures forall x :: x in r <==> x in s && p(x)
    ensures IsSubsequence(r, s)
  {
    if s == [] then []
    else if p(s[0]) then [s[0]] + Filter(s[1..], p)
    else Filter(s[1..], p)
  }

  /** A filter that keeps everything returns its input. */
  lemma {:induction false} FilterAll<T(!new)>(s: seq<T>, p: T -> bool)
    requires forall x :: x in s ==> p(x)
    ensures Filter(s, p) == s
  {
    if s != [] {
      assert forall x :: x in s[1..] ==> x in s;
      FilterAll(s[1..], p);
      assert s == [s[0]] + s[1..];
    }
  }

  /** Filtering distributes over concatenation. */
  lemma {:induction false} FilterAppend<T(!new)>(a: seq<T>, b: seq<T>, p: T -> bool)
    ensures Filter(a + b, p) == Filter(a, p) + Filter(b, p)
  {
    if a == [] {
      assert a + b == b;
    } else {
      assert (a + b)[0] == a[0];
      assert (a + b)[1..] == a[1..] + b;
      FilterAppend(a[1..], b, p);
      if p(a[0]) {
        assert [a[0]] + Filter(a[1..], p) + Filter(b, p) == [a[0]] + (Filter(a[1..], p) + Filter(b, p));
      }
    }
  }

  /** Filtering twice is filtering once by both tests. */
  lemma {:induction false} FilterFilter<T(!new)>(s: seq<T>, p: T -> bool, q: T -> bool, pq: T -> bool)
    requires forall x :: pq(x) == (p(x) && q(x))
    ensures Filter(Filter(s, p), q) == Filter(s, pq)
  {
    if s != [] {
      FilterFilter(s[1..], p, q, pq);
      var rest := Filter(s[1..], p);
      if p(s[0]) {
        var f := [s[0]] + rest;
        assert Filter(s, p) == f;
        assert f[0] == s[0] && f[1..] == rest;
        if q(s[0]) {
          assert Filter(f, q) == [s[0]] + Filter(rest, q);
          assert Filter(s, pq) == [s[0]] + Filter(s[1..], pq);
        } else {
          assert Filter(f, q) == Filter(rest, q);
          assert Filter(s, pq) == Filter(s[1..], pq);
        }
      } else {
        assert Filter(s, p) == rest;
        assert Filter(s, pq) == Filter(s[1..], pq);
      }
    }
  }

  /** No two elements share a key. */
  predicate DistinctBy<T, K(==)>(s: seq<T>, key: T -> K)
  {
    forall i, j :: 0 <= i < j < |s| ==> key(s[i]) != key(s[j])
  }

  /** Filtering keeps keys distinct. */
  lemma {:induction false} FilterDistinctBy<T(!new), K>(s: seq<T>, p: T -> bool, key: T -> K)
    requires DistinctBy(s, key)
    ensures DistinctBy(Filter(s, p), key)
  {
    if s != [] {
      var tail := s[1..];
      assert forall i, j :: 0 <= i < j < |tail| ==> tail[i] == s[i + 1] && tail[j] == s[j + 1];
      FilterDistinctBy(tail, p, key);
      if p(s[0]) {
        var r := Filter(tail, p);
        forall x | x in r ensures key(x) != key(s[0]) {
          var k :| 0 <= k < |tail| && tail[k] == x;
          assert s[k + 1] == x;
        }
        var r' := [s[0]] + r;
        forall i, j | 0 <= i < j < |r'| ensures key(r'[i]) != key(r'[j]) {
          if i == 0 {
            assert r'[j] in r;
          } else {
            assert r'[i] == r[i - 1] && r'[j] == r[j - 1];
          }
        }
      }
    }
  }

  /** lt is a strict weak order: asymmetric, and "not less than" is
      transitive. Every comparator the views pass to sort is one. */
  ghost predicate StrictWeakOrder<T(!new)>(lt: (T, T) -> bool)
  {
    && (forall a, b :: lt(a, b) ==> !lt(b, a))
    && (forall a, b, c :: !lt(a, b) && !lt(b, c) ==> !lt(a, c))
  }

  ghost predicate SortedBy<T>(r: seq<T>, lt: (T, T) -> bool)
  {
    forall i, j :: 0 <= i < j < |r| ==> !lt(r[j], r[i])
  }

  /** Places x before the first element of r that is not less than it, so
      that x stays ahead of the elements equal to it. */
  function Insert<T>(x: T, r: seq<T>, lt: (T, T) -> bool): (r': seq<T>)
    ensures multiset(r') == multiset(r) + multiset{x}
  {
    if r == [] || !lt(r[0], x) then [x] + r
    else
      assert r == [r[0]] + r[1..];
      [r[0]] + Insert(x, r[1..], lt)
  }

  /** Stable insertion sort: each element, from the last to the first, is
      inserted into the sorted rest. The result is a permutation of s. */
  function SortBy<T>(s: seq<T>, lt: (T, T) -> bool): (r: seq<T>)
    ensures multiset(r) == multiset(s)
  {
    if s == [] then []
    else
      assert s == [s[0]] + s[1..];
      Insert(s[0], SortBy(s[1..], lt), lt)
  }

  lemma {:induction false} InsertSorted<T(!new)>(x: T, r: seq<T>, lt: (T, T) -> bool)
    requires StrictWeakOrder(lt)
    requires SortedBy(r, lt)
    ensures SortedBy(Insert(x, r, lt), lt)
  {
    if r == [] || !lt(r[0], x) {
      var r' := [x] + r;
      forall i, j | 0 <= i < j < |r'| ensures !lt(r'[j], r'[i]) {
        if i == 0 {
          assert !lt(r[j - 1], r[0]) || j - 1 == 0;
        }
      }
    } else {
      var tail := Insert(x, r[1..], lt);
      InsertSorted(x, r[1..], lt);
      var r' := [r[0]] + tail;
      forall i, j | 0 <= i < j < |r'| ensures !lt(r'[j], r'[i]) {
        if i == 0 {
          var y := r'[j];
          assert y in multiset(tail);
          assert y == x || y in multiset(r[1..]);
          if y != x {
            var k :| 0 <= k < |r[1..]| && r[1..][k] == y;
            assert r[k + 1] == y;
          }
        }
      }
    }
  }

  /** x moves past a prefix whose every element is less than it. */
  lemma {:induction false} InsertPast<T>(x: T, a: seq<T>, b: seq<T>, lt: (T, T) -> bool)
    requires forall i :: 0 <= i < |a| ==> lt(a[i], x)
    ensures Insert(x, a + b, lt) == a + Insert(x, b, lt)
  {
    if a == [] {
      assert a + b == b;
    } else {
      assert (a + b)[0] == a[0];
      assert (a + b)[1..] == a[1..] + b;
      assert Insert(x, a + b, lt) == [a[0]] + Insert(x, a[1..] + b, lt);
      assert forall i :: 0 <= i < |a[1..]| ==> a[1..][i] == a[i + 1];
      InsertPast(x, a[1..], b, lt);
      assert a + Insert(x, b, lt) == [a[0]] + (a[1..] + Insert(x, b, lt));
    }
  }

  /** The sort's result is ordered by lt. */
  lemma {:induction false} SortBySorted<T(!new)>(s: seq<T>, lt: (T, T) -> bool)
    requires StrictWeakOrder(lt)
    ensures SortedBy(SortBy(s, lt), lt)
  {
    if s != [] {
      SortBySorted(s[1..], lt);
      InsertSorted(s[0], SortBy(s[1..], lt), lt);
    }
  }

  /** With a comparator that never orders two elements (one returning 0),
      the sort keeps the input order. */
  lemma {:induction false} SortByUnordered<T>(s: seq<T>, lt: (T, T) -> bool)
    requires forall a, b :: !lt(a, b)
    ensures SortBy(s, lt) == s
  {
    if s != [] {
      SortByUnordered(s[1..], lt);
      assert s == [s[0]] + s[1..];
    }
  }
}
