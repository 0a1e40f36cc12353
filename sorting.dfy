/** The ordering the application relies on from `Array.prototype.sort`: a stable sort
    by a numeric key, written here as an insertion sort whose result is sorted, is a
    permutation of its input and keeps elements with equal keys in their input order. */
module Sorting {

  /** Keys ascend along s. */
  predicate SortedBy<T>(s: seq<T>, key: T -> int) {
    forall i, j :: 0 <= i < j < |s| ==> key(s[i]) <= key(s[j])
  }

  /** The elements of s whose key is k, in their order in s. */
  function WithKey<T>(s: seq<T>, key: T -> int, k: int): seq<T> {
    if s == [] then []
    else (if key(s[0]) == k then [s[0]] else []) + WithKey(s[1..], key, k)
  }

  /** Places x in front of the first element whose key is not below x's. */
  function Insert<T>(x: T, s: seq<T>, key: T -> int): seq<T> {
    if s == [] || key(x) <= key(s[0]) then [x] + s
    else [s[0]] + Insert(x, s[1..], key)
  }

  /** The stable sort by `key`, ascending. */
  function SortBy<T>(s: seq<T>, key: T -> int): seq<T> {
    if s == [] then [] else Insert(s[0], SortBy(s[1..], key), key)
  }

  // ---------------------------------------------------------------------------
  // Insertion

  lemma {:induction false} InsertPermutes<T>(x: T, s: seq<T>, key: T -> int)
    ensures multiset(Insert(x, s, key)) == multiset{x} + multiset(s)
    decreases |s|
  {
    if s != [] && key(x) > key(s[0]) {
      InsertPermutes(x, s[1..], key);
      assert s == [s[0]] + s[1..];
    }
  }

  lemma {:induction false} InsertSorted<T>(x: T, s: seq<T>, key: T -> int)
    requires SortedBy(s, key)
    ensures SortedBy(Insert(x, s, key), key)
    decreases |s|
  {
    if s != [] && key(x) > key(s[0]) {
      InsertSorted(x, s[1..], key);
      InsertPermutes(x, s[1..], key);
      var r := Insert(x, s[1..], key);
      forall j | 0 <= j < |r| ensures key(s[0]) <= key(r[j]) {
        assert r[j] in multiset(r);
        if r[j] != x {
          assert r[j] in multiset(s[1..]);
          var k :| 0 <= k < |s[1..]| && s[1..][k] == r[j];
          assert s[k + 1] == r[j];
        }
      }
    }
  }

  lemma WithKeyCons<T>(x: T, s: seq<T>, key: T -> int, k: int)
    ensures WithKey([x] + s, key, k) == (if key(x) == k then [x] else []) + WithKey(s, key, k)
  {
    assert ([x] + s)[1..] == s;
  }

  lemma {:induction false} InsertKeepsOrder<T>(x: T, s: seq<T>, key: T -> int, k: int)
    ensures WithKey(Insert(x, s, key), key, k) == (if key(x) == k then [x] else []) + WithKey(s, key, k)
    decreases |s|
  {
    if s == [] || key(x) <= key(s[0]) {
      WithKeyCons(x, s, key, k);
    } else {
      InsertKeepsOrder(x, s[1..], key, k);
      WithKeyCons(s[0], Insert(x, s[1..], key), key, k);
      WithKeyCons(s[0], s[1..], key, k);
      assert [s[0]] + s[1..] == s;
    }
  }

  // ---------------------------------------------------------------------------
  // The sort

  /** The sort returns the same elements, each as often as in the input. */
  lemma {:induction false} SortByPermutes<T>(s: seq<T>, key: T -> int)
    ensures multiset(SortBy(s, key)) == multiset(s)
    decreases |s|
  {
    if s != [] {
      SortByPermutes(s[1..], key);
      InsertPermutes(s[0], SortBy(s[1..], key), key);
      assert s == [s[0]] + s[1..];
    }
  }

  /** The sort's result ascends by key. */
  lemma {:induction false} SortBySorted<T>(s: seq<T>, key: T -> int)
    ensures SortedBy(SortBy(s, key), key)
    decreases |s|
  {
    if s != [] {
      SortBySorted(s[1..], key);
      InsertSorted(s[0], SortBy(s[1..], key), key);
    }
  }

  /** The sort is stable: elements with the same key keep their input order. */
  lemma {:induction false} SortByStable<T>(s: seq<T>, key: T -> int, k: int)
    ensures WithKey(SortBy(s, key), key, k) == WithKey(s, key, k)
    decreases |s|
  {
    if s != [] {
      SortByStable(s[1..], key, k);
      InsertKeepsOrder(s[0], SortBy(s[1..], key), key, k);
    }
  }

  lemma SortByLength<T>(s: seq<T>, key: T -> int)
    ensures |SortBy(s, key)| == |s|
  {
    SortByPermutes(s, key);
    assert |multiset(SortBy(s, key))| == |multiset(s)|;
  }

  // ---------------------------------------------------------------------------
  // Relations between every two elements

  /** Every two elements of s, taken in their order in s, are related by ok. */
  predicate Pairwise<T>(s: seq<T>, ok: (T, T) -> bool) {
    forall i, j :: 0 <= i < j < |s| ==> ok(s[i], s[j])
  }

  /** x is related to every element of s, in both orders. */
  predicate AgreesWithAll<T>(x: T, s: seq<T>, ok: (T, T) -> bool) {
    forall k :: 0 <= k < |s| ==> ok(x, s[k]) && ok(s[k], x)
  }

  lemma PairwiseCons<T>(x: T, s: seq<T>, ok: (T, T) -> bool)
    requires AgreesWithAll(x, s, ok) && Pairwise(s, ok)
    ensures Pairwise([x] + s, ok)
  {
    var t := [x] + s;
    forall i, j | 0 <= i < j < |t| ensures ok(t[i], t[j]) {
      assert t[j] == s[j - 1];
      if i > 0 {
        assert t[i] == s[i - 1];
      }
    }
  }

  lemma PairwiseAppend<T>(s: seq<T>, x: T, ok: (T, T) -> bool)
    requires AgreesWithAll(x, s, ok) && Pairwise(s, ok)
    ensures Pairwise(s + [x], ok)
  {
    var t := s + [x];
    forall i, j | 0 <= i < j < |t| ensures ok(t[i], t[j]) {
      assert t[i] == s[i];
      if j < |s| {
        assert t[j] == s[j];
      }
    }
  }

  /** An element related to all of s is related to all of any permutation of s. */
  lemma AgreesWithPermutation<T>(x: T, s: seq<T>, t: seq<T>, ok: (T, T) -> bool)
    requires AgreesWithAll(x, s, ok) && multiset(t) == multiset(s)
    ensures AgreesWithAll(x, t, ok)
  {
    forall k | 0 <= k < |t| ensures ok(x, t[k]) && ok(t[k], x) {
      assert t[k] in multiset(s);
      var m :| 0 <= m < |s| && s[m] == t[k];
    }
  }

  lemma {:induction false} InsertPairwise<T>(x: T, s: seq<T>, key: T -> int, ok: (T, T) -> bool)
    requires forall a, b :: ok(a, b) == ok(b, a)
    requires AgreesWithAll(x, s, ok) && Pairwise(s, ok)
    ensures Pairwise(Insert(x, s, key), ok)
    decreases |s|
  {
    if s == [] || key(x) <= key(s[0]) {
      PairwiseCons(x, s, ok);
    } else {
      assert AgreesWithAll(x, s[1..], ok);
      InsertPairwise(x, s[1..], key, ok);
      InsertPermutes(x, s[1..], key);
      assert AgreesWithAll(s[0], [x] + s[1..], ok) by {
        var u := [x] + s[1..];
        assert ok(x, s[0]) && ok(s[0], x);
        forall k | 0 <= k < |u| ensures ok(s[0], u[k]) && ok(u[k], s[0]) {
          if k > 0 {
            assert u[k] == s[k] && ok(s[0], s[k]);
          }
        }
      }
      assert multiset([x] + s[1..]) == multiset{x} + multiset(s[1..]);
      AgreesWithPermutation(s[0], [x] + s[1..], Insert(x, s[1..], key), ok);
      PairwiseCons(s[0], Insert(x, s[1..], key), ok);
    }
  }

  /** Sorting keeps every two elements related, when the relation is symmetric. */
  lemma {:induction false} SortByPairwise<T>(s: seq<T>, key: T -> int, ok: (T, T) -> bool)
    requires forall a, b :: ok(a, b) == ok(b, a)
    requires Pairwise(s, ok)
    ensures Pairwise(SortBy(s, key), ok)
    decreases |s|
  {
    if s != [] {
      assert Pairwise(s[1..], ok) by {
        forall i, j | 0 <= i < j < |s[1..]| ensures ok(s[1..][i], s[1..][j]) {
          assert s[1..][i] == s[i + 1] && s[1..][j] == s[j + 1];
        }
      }
      SortByPairwise(s[1..], key, ok);
      assert AgreesWithAll(s[0], s[1..], ok) by {
        forall k | 0 <= k < |s[1..]| ensures ok(s[0], s[1..][k]) && ok(s[1..][k], s[0]) {
          assert s[1..][k] == s[k + 1];
        }
      }
      SortByPermutes(s[1..], key);
      AgreesWithPermutation(s[0], s[1..], SortBy(s[1..], key), ok);
      InsertPairwise(s[0], SortBy(s[1..], key), key, ok);
    }
  }
}
