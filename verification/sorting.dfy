/** Python's stable `sorted(xs, key=...)` / `list.sort(key=...)`. A
    descending sort (`reverse=True`) is the same sort under the reversed
    comparison: Python keeps equal keys in their original order either way. */
module Sorting {
  import opened Ordering

  /** `le` is a total order on keys. */
  ghost predicate TotalOrder<K(!new)>(le: (K, K) -> bool) {
    && (forall a :: le(a, a))
    && (forall a, b :: le(a, b) && le(b, a) ==> a == b)
    && (forall a, b, c :: le(a, b) && le(b, c) ==> le(a, c))
    && (forall a, b :: le(a, b) || le(b, a))
  }

  ghost predicate Reflexive<K(!new)>(le: (K, K) -> bool) {
    forall a :: le(a, a)
  }

  predicate SortedBy<T, K>(s: seq<T>, key: T -> K, le: (K, K) -> bool) {
    forall i, j :: 0 <= i < j < |s| ==> le(key(s[i]), key(s[j]))
  }

  /** The elements of `s` whose key is `k`, in their order in `s`. */
  function WithKey<T, K(==)>(s: seq<T>, key: T -> K, k: K): (r: seq<T>)
    ensures |r| <= |s|
  {
    if |s| == 0 then []
    else (if key(s[0]) == k then [s[0]] else []) + WithKey(s[1..], key, k)
  }

  /** Places `x` before the first element whose key it does not exceed. */
  function Insert<T, K>(x: T, s: seq<T>, key: T -> K, le: (K, K) -> bool): (r: seq<T>)
    ensures |r| == |s| + 1
    ensures multiset(r) == multiset(s) + multiset{x}
  {
    if |s| == 0 then [x]
    else if le(key(x), key(s[0])) then [x] + s
    else
      assert s == [s[0]] + s[1..];
      [s[0]] + Insert(x, s[1..], key, le)
  }

  /** The stable sort of `s` by `key` under `le`. */
  function Sort<T, K>(s: seq<T>, key: T -> K, le: (K, K) -> bool): (r: seq<T>)
    ensures |r| == |s|
    ensures multiset(r) == multiset(s)
  {
    if |s| == 0 then []
    else
      assert s == [s[0]] + s[1..];
      Insert(s[0], Sort(s[1..], key, le), key, le)
  }

  lemma {:induction false} InsertSorted<T, K(!new)>(x: T, s: seq<T>, key: T -> K, le: (K, K) -> bool)
    requires TotalOrder(le)
    requires SortedBy(s, key, le)
    ensures SortedBy(Insert(x, s, key, le), key, le)
  {
    if |s| > 0 && !le(key(x), key(s[0])) {
      InsertSorted(x, s[1..], key, le);
      var r := Insert(x, s, key, le);
      var tail := Insert(x, s[1..], key, le);
      assert r == [s[0]] + tail;
      forall j | 0 < j < |r|
        ensures le(key(s[0]), key(r[j]))
      {
        assert r[j] in multiset(tail);
        assert r[j] in multiset(s[1..]) + multiset{x};
        if r[j] == x {
          assert le(key(s[0]), key(x));
        } else {
          assert r[j] in s[1..];
          var m :| 0 <= m < |s[1..]| && s[1..][m] == r[j];
          assert s[m + 1] == r[j];
        }
      }
    }
  }

  /** `Sort` orders its result. */
  lemma {:induction false} SortSorted<T, K(!new)>(s: seq<T>, key: T -> K, le: (K, K) -> bool)
    requires TotalOrder(le)
    ensures SortedBy(Sort(s, key, le), key, le)
  {
    if |s| > 0 {
      SortSorted(s[1..], key, le);
      InsertSorted(s[0], Sort(s[1..], key, le), key, le);
    }
  }

  lemma WithKeyAppend<T, K>(a: seq<T>, b: seq<T>, key: T -> K, k: K)
    ensures WithKey(a + b, key, k) == WithKey(a, key, k) + WithKey(b, key, k)
  {
    if |a| > 0 {
      assert (a + b)[1..] == a[1..] + b;
      WithKeyAppend(a[1..], b, key, k);
    } else {
      assert a + b == b;
    }
  }

  lemma {:induction false} InsertWithKey<T, K(!new)>(x: T, s: seq<T>, key: T -> K, le: (K, K) -> bool, k: K)
    requires Reflexive(le)
    ensures WithKey(Insert(x, s, key, le), key, k)
         == (if key(x) == k then [x] else []) + WithKey(s, key, k)
  {
    if |s| == 0 {
    } else if le(key(x), key(s[0])) {
      assert ([x] + s)[1..] == s;
    } else {
      var tail := Insert(x, s[1..], key, le);
      InsertWithKey(x, s[1..], key, le, k);
      assert ([s[0]] + tail)[1..] == tail;
      assert key(s[0]) != key(x);
    }
  }

  /** Elements with equal keys keep their original relative order. */
  lemma {:induction false} SortStable<T, K(!new)>(s: seq<T>, key: T -> K, le: (K, K) -> bool, k: K)
    requires Reflexive(le)
    ensures WithKey(Sort(s, key, le), key, k) == WithKey(s, key, k)
  {
    if |s| > 0 {
      SortStable(s[1..], key, le, k);
      InsertWithKey(s[0], Sort(s[1..], key, le), key, le, k);
    }
  }

  /** Sorting an already ordered sequence changes nothing. */
  lemma {:induction false} SortOfSorted<T, K>(s: seq<T>, key: T -> K, le: (K, K) -> bool)
    requires SortedBy(s, key, le)
    ensures Sort(s, key, le) == s
  {
    if |s| > 0 {
      assert SortedBy(s[1..], key, le);
      SortOfSorted(s[1..], key, le);
      if |s| > 1 {
        assert le(key(s[0]), key(s[1..][0]));
      }
      assert s == [s[0]] + s[1..];
    }
  }

  /** Sorting is idempotent. */
  lemma SortIdempotent<T, K(!new)>(s: seq<T>, key: T -> K, le: (K, K) -> bool)
    requires TotalOrder(le)
    ensures Sort(Sort(s, key, le), key, le) == Sort(s, key, le)
  {
    SortSorted(s, key, le);
    SortOfSorted(Sort(s, key, le), key, le);
  }

  /** A sorted sequence with the same elements and the same order among equal
      keys as `s` is `Sort(s)`: the three properties specify the sort. */
  lemma {:induction false} SortUnique<T, K(!new)>(s: seq<T>, r: seq<T>, key: T -> K, le: (K, K) -> bool)
    requires TotalOrder(le)
    requires SortedBy(r, key, le)
    requires forall k :: WithKey(r, key, k) == WithKey(s, key, k)
    ensures r == Sort(s, key, le)
  {
    var t := Sort(s, key, le);
    SortSorted(s, key, le);
    forall k ensures WithKey(t, key, k) == WithKey(r, key, k) {
      SortStable(s, key, le, k);
    }
    SortedSameGroups(t, r, key, le);
  }

  /** Two sorted sequences with the same key groups are equal. */
  lemma {:induction false} SortedSameGroups<T, K(!new)>(a: seq<T>, b: seq<T>, key: T -> K, le: (K, K) -> bool)
    requires TotalOrder(le)
    requires SortedBy(a, key, le) && SortedBy(b, key, le)
    requires forall k :: WithKey(a, key, k) == WithKey(b, key, k)
    ensures a == b
    decreases |a| + |b|
  {
    if |a| == 0 && |b| == 0 {
    } else if |a| == 0 {
      assert false;
    } else if |b| == 0 {
      WithKeyOwn(a, key);
      assert false;
    } else {
      var ka, kb := key(a[0]), key(b[0]);
      // the first element of each has the least key of both
      var wa := WithKey(a, key, ka);
      assert wa == [a[0]] + WithKey(a[1..], key, ka);
      assert WithKey(b, key, ka) == wa;
      var j := WithKeyIndex(b, key, ka);
      assert le(kb, ka) by {
        if j > 0 { assert le(key(b[0]), key(b[j])); }
      }
      var wb := WithKey(b, key, kb);
      assert wb == [b[0]] + WithKey(b[1..], key, kb);
      var i := WithKeyIndex(a, key, kb);
      assert le(ka, kb) by {
        if i > 0 { assert le(key(a[0]), key(a[i])); }
      }
      assert ka == kb;
      assert wa == wb;
      assert wa[0] == a[0] && wb[0] == b[0];
      forall k ensures WithKey(a[1..], key, k) == WithKey(b[1..], key, k) {
        assert WithKey(a, key, k) == WithKey(b, key, k);
        assert WithKey(a, key, k) == (if ka == k then [a[0]] else []) + WithKey(a[1..], key, k);
        assert WithKey(b, key, k) == (if kb == k then [b[0]] else []) + WithKey(b[1..], key, k);
        if ka == k {
          assert WithKey(a[1..], key, k) == WithKey(a, key, k)[1..];
          assert WithKey(b[1..], key, k) == WithKey(b, key, k)[1..];
        } else {
          assert WithKey(a[1..], key, k) == WithKey(a, key, k);
          assert WithKey(b[1..], key, k) == WithKey(b, key, k);
        }
      }
      SortedSameGroups(a[1..], b[1..], key, le);
      assert a == [a[0]] + a[1..];
      assert b == [b[0]] + b[1..];
    }
  }

  lemma WithKeyOwn<T, K>(s: seq<T>, key: T -> K)
    requires |s| > 0
    ensures WithKey(s, key, key(s[0])) != []
  {
  }

  /** Some element of `s` carries key `k` whenever the group of `k` is not empty. */
  lemma {:induction false} WithKeyIndex<T, K>(s: seq<T>, key: T -> K, k: K) returns (j: nat)
    requires WithKey(s, key, k) != []
    ensures j < |s| && key(s[j]) == k
  {
    if key(s[0]) == k {
      j := 0;
    } else {
      var j' := WithKeyIndex(s[1..], key, k);
      j := j' + 1;
    }
  }

  // ---------------------------------------------------------------------------
  // Orders used by the pipeline

  lemma StrLeTotalOrder()
    ensures TotalOrder(StrLe)
  {
    forall a ensures StrLe(a, a) { StrLeRefl(a); }
    forall a, b | StrLe(a, b) && StrLe(b, a) ensures a == b { StrLeAntisym(a, b); }
    forall a, b, c | StrLe(a, b) && StrLe(b, c) ensures StrLe(a, c) { StrLeTrans(a, b, c); }
    forall a, b ensures StrLe(a, b) || StrLe(b, a) { StrLeTotal(a, b); }
  }

  /** Descending order on integers (`reverse=True` on a numeric key). */
  predicate IntGe(a: int, b: int) {
    a >= b
  }

  lemma IntGeTotalOrder()
    ensures TotalOrder(IntGe)
  {
  }

  /** Descending lexicographic order on pairs (`reverse=True` on a tuple key). */
  predicate PairGe(a: (int, int), b: (int, int)) {
    a.0 > b.0 || (a.0 == b.0 && a.1 >= b.1)
  }

  lemma PairGeTotalOrder()
    ensures TotalOrder(PairGe)
  {
  }
}
