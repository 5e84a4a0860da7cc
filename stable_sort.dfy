/** Python's `sorted(xs, key=k)`: a stable sort by a numeric key, written as an
    insertion sort, with the three facts that pin its result down: the keys come out
    in ascending order, nothing is added or lost, and items with equal keys keep
    their input order. */
module StableSort {

  ghost predicate SortedBy<T>(s: seq<T>, key: T -> real)
  {
    forall i, j :: 0 <= i < j < |s| ==> key(s[i]) <= key(s[j])
  }

  /** The items of `s` whose key is `k`, in the order `s` has them. */
  function WithKey<T>(s: seq<T>, key: T -> real, k: real): seq<T>
  {
    if s == [] then []
    else (if key(s[0]) == k then [s[0]] else []) + WithKey(s[1..], key, k)
  }

  /** Places `x` before the first item whose key is not smaller than its own. */
  function Insert<T>(x: T, s: seq<T>, key: T -> real): seq<T>
  {
    if s == [] || key(x) <= key(s[0]) then [x] + s
    else [s[0]] + Insert(x, s[1..], key)
  }

  function Sort<T>(s: seq<T>, key: T -> real): seq<T>
  {
    if s == [] then [] else Insert(s[0], Sort(s[1..], key), key)
  }

  /** An item no larger than every item of a sorted sequence can go in front of it. */
  lemma ConsSorted<T>(h: T, r: seq<T>, key: T -> real)
    requires SortedBy(r, key)
    requires forall y :: y in r ==> key(h) <= key(y)
    ensures SortedBy([h] + r, key)
  {
    forall i, j | 0 <= i < j < |[h] + r| ensures key(([h] + r)[i]) <= key(([h] + r)[j]) {
      if i == 0 {
        assert ([h] + r)[j] == r[j - 1];
        assert r[j - 1] in r;
      } else {
        assert ([h] + r)[i] == r[i - 1] && ([h] + r)[j] == r[j - 1];
      }
    }
  }

  lemma {:induction false} InsertPermutes<T>(x: T, s: seq<T>, key: T -> real)
    ensures multiset(Insert(x, s, key)) == multiset{x} + multiset(s)
    decreases |s|
  {
    if s != [] && key(x) > key(s[0]) {
      InsertPermutes(x, s[1..], key);
      assert s == [s[0]] + s[1..];
    }
  }

  lemma {:induction false} InsertSorted<T>(x: T, s: seq<T>, key: T -> real)
    requires SortedBy(s, key)
    ensures SortedBy(Insert(x, s, key), key)
    ensures multiset(Insert(x, s, key)) == multiset{x} + multiset(s)
    decreases |s|
  {
    InsertPermutes(x, s, key);
    if s == [] || key(x) <= key(s[0]) {
      forall y | y in s ensures key(x) <= key(y) {
        var k :| 0 <= k < |s| && s[k] == y;
        assert key(s[0]) <= key(s[k]);
      }
      ConsSorted(x, s, key);
    } else {
      var rest := s[1..];
      assert SortedBy(rest, key);
      InsertSorted(x, rest, key);
      var r := Insert(x, rest, key);
      forall y | y in r ensures key(s[0]) <= key(y) {
        assert y in multiset(r);
        if y != x {
          assert y in rest;
          var k :| 0 <= k < |rest| && rest[k] == y;
          assert s[k + 1] == y;
        }
      }
      ConsSorted(s[0], r, key);
    }
  }

  lemma WithKeyCons<T>(h: T, r: seq<T>, key: T -> real, k: real)
    ensures WithKey([h] + r, key, k) == (if key(h) == k then [h] else []) + WithKey(r, key, k)
  {
    assert ([h] + r)[1..] == r;
  }

  lemma {:induction false} InsertKeepsEqualKeys<T>(x: T, s: seq<T>, key: T -> real, k: real)
    ensures WithKey(Insert(x, s, key), key, k)
         == (if key(x) == k then [x] else []) + WithKey(s, key, k)
    decreases |s|
  {
    if s == [] || key(x) <= key(s[0]) {
      WithKeyCons(x, s, key, k);
    } else {
      var rest := s[1..];
      InsertKeepsEqualKeys(x, rest, key, k);
      WithKeyCons(s[0], Insert(x, rest, key), key, k);
      assert s == [s[0]] + rest;
      WithKeyCons(s[0], rest, key, k);
      assert !(key(x) == k && key(s[0]) == k);
    }
  }

  /** The result is ascending by key and is a permutation of the input. */
  lemma {:induction false} SortIsSortedPermutation<T>(s: seq<T>, key: T -> real)
    ensures SortedBy(Sort(s, key), key)
    ensures multiset(Sort(s, key)) == multiset(s)
    ensures |Sort(s, key)| == |s|
    decreases |s|
  {
    if s != [] {
      SortIsSortedPermutation(s[1..], key);
      InsertSorted(s[0], Sort(s[1..], key), key);
      assert s == [s[0]] + s[1..];
      assert |multiset(Sort(s, key))| == |multiset(s)|;
    }
  }

  /** Stability: for every key value, the items carrying it appear in input order. */
  lemma {:induction false} SortIsStable<T>(s: seq<T>, key: T -> real, k: real)
    ensures WithKey(Sort(s, key), key, k) == WithKey(s, key, k)
    decreases |s|
  {
    if s != [] {
      SortIsStable(s[1..], key, k);
      InsertKeepsEqualKeys(s[0], Sort(s[1..], key), key, k);
    }
  }

  /** Input that is already in key order comes back unchanged. */
  lemma {:induction false} SortOfSorted<T>(s: seq<T>, key: T -> real)
    requires SortedBy(s, key)
    ensures Sort(s, key) == s
    decreases |s|
  {
    if s != [] {
      SortOfSorted(s[1..], key);
    }
  }
}
