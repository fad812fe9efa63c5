/** Python's `collections.Counter` as the pipeline uses it: counting equal
    values in first-seen order and `most_common(n)`, plus `dict.fromkeys`
    de-duplication. */
module Counting {
  import opened Seqs
  import opened Sorting

  /** One entry of a counter: a value and how often it was seen. */
  datatype Tallied<T> = Tallied(item: T, count: nat)

  function Occurrences<T(==)>(s: seq<T>, x: T): nat {
    multiset(s)[x]
  }

  /** The index of the first occurrence of `x` in `s`. */
  function FirstIndex<T(==)>(s: seq<T>, x: T): (r: nat)
    requires x in s
    ensures r < |s| && s[r] == x
    ensures forall j :: 0 <= j < r ==> s[j] != x
  {
    if s[0] == x then 0 else 1 + FirstIndex(s[1..], x)
  }

  /** The values of `s` without repeats, in the order they first appear
      (`list(dict.fromkeys(s))`). */
  function Distinct<T(==)>(s: seq<T>): (r: seq<T>)
    ensures forall i :: 0 <= i < |r| ==> r[i] in s
    ensures forall i :: 0 <= i < |s| ==> s[i] in r
    ensures forall i, j :: 0 <= i < j < |r| ==> r[i] != r[j]
    ensures |r| <= |s|
  {
    if |s| == 0 then []
    else
      var d := Distinct(s[..|s| - 1]);
      assert s == s[..|s| - 1] + [s[|s| - 1]];
      if s[|s| - 1] in d then d else d + [s[|s| - 1]]
  }

  lemma FirstIndexOfPrefix<T>(s: seq<T>, x: T)
    requires |s| > 0 && x in s[..|s| - 1]
    ensures FirstIndex(s, x) == FirstIndex(s[..|s| - 1], x)
  {
    var p := s[..|s| - 1];
    var k := FirstIndex(p, x);
    assert s[k] == x;
    assert forall j :: 0 <= j < k ==> s[j] == p[j];
  }

  /** `Distinct` lists values in the order of their first occurrence. */
  lemma {:induction false} DistinctFirstSeen<T>(s: seq<T>)
    ensures forall i, j :: 0 <= i < j < |Distinct(s)| ==>
      FirstIndex(s, Distinct(s)[i]) < FirstIndex(s, Distinct(s)[j])
  {
    if |s| > 0 {
      var p := s[..|s| - 1];
      var y := s[|s| - 1];
      var d := Distinct(p);
      DistinctFirstSeen(p);
      forall x | x in d ensures FirstIndex(s, x) == FirstIndex(p, x) {
        FirstIndexOfPrefix(s, x);
      }
      if y !in d {
        assert y !in p;
        assert FirstIndex(s, y) == |s| - 1;
      }
    }
  }

  /** The counter built from `s`: each distinct value with its count, in
      first-seen order (`Counter(s).items()`). */
  function Tally<T(==)>(s: seq<T>): (r: seq<Tallied<T>>)
    ensures |r| == |Distinct(s)|
    ensures forall i :: 0 <= i < |r| ==>
      r[i].item == Distinct(s)[i] && r[i].count == Occurrences(s, r[i].item)
  {
    var d := Distinct(s);
    seq(|d|, i requires 0 <= i < |d| => Tallied(d[i], Occurrences(s, d[i])))
  }

  function CountOf<T>(t: Tallied<T>): int {
    t.count
  }

  /** `Counter(s).most_common(n)`: the counter's entries in descending order
      of count, ties in first-seen order, at most `n` of them. */
  function MostCommon<T(==)>(s: seq<T>, n: nat): seq<Tallied<T>> {
    Take(Sort(Tally(s), CountOf, IntGe), n)
  }

  /** `Insert` puts `x` at some position `p`, after elements of other keys. */
  lemma {:induction false} InsertSplit<T, K(!new)>(x: T, s: seq<T>, key: T -> K, le: (K, K) -> bool) returns (p: nat)
    requires Reflexive(le)
    ensures p <= |s| && Insert(x, s, key, le) == s[..p] + [x] + s[p..]
    ensures forall i :: 0 <= i < p ==> key(s[i]) != key(x)
  {
    if |s| == 0 {
      p := 0;
    } else if le(key(x), key(s[0])) {
      p := 0;
    } else {
      var q := InsertSplit(x, s[1..], key, le);
      p := q + 1;
      assert le(key(x), key(x));
      assert key(s[0]) != key(x);
      calc {
        Insert(x, s, key, le);
        [s[0]] + Insert(x, s[1..], key, le);
        [s[0]] + (s[1..][..q] + [x] + s[1..][q..]);
        { assert [s[0]] + s[1..][..q] == s[..p]; assert s[1..][q..] == s[p..]; }
        s[..p] + [x] + s[p..];
      }
      forall i | 0 <= i < p ensures key(s[i]) != key(x) {
        if i > 0 {
          assert s[i] == s[1..][i - 1];
        }
      }
    }
  }

  /** Among elements with equal keys, `rank` increases along `r`. */
  predicate TiesByRank<T, K(==)>(r: seq<T>, key: T -> K, rank: T -> int) {
    forall i, j :: 0 <= i < j < |r| && key(r[i]) == key(r[j]) ==> rank(r[i]) < rank(r[j])
  }

  /** Putting an element of least rank into a sequence, after every element
      of its own key... there are none before it, keeps ties ordered by rank. */
  lemma SpliceKeepsRank<T, K>(a: seq<T>, x: T, p: nat, key: T -> K, rank: T -> int)
    requires p <= |a|
    requires forall i :: 0 <= i < p ==> key(a[i]) != key(x)
    requires forall i :: 0 <= i < |a| ==> rank(x) < rank(a[i])
    requires TiesByRank(a, key, rank)
    ensures TiesByRank(a[..p] + [x] + a[p..], key, rank)
  {
    var r := a[..p] + [x] + a[p..];
    forall i, j | 0 <= i < j < |r| && key(r[i]) == key(r[j])
      ensures rank(r[i]) < rank(r[j])
    {
      if j < p {
        assert r[i] == a[i] && r[j] == a[j];
      } else if j == p {
      } else if i < p {
        assert r[i] == a[i] && r[j] == a[j - 1];
      } else if i == p {
        assert r[j] == a[j - 1];
      } else {
        assert r[i] == a[i - 1] && r[j] == a[j - 1];
      }
    }
  }

  /** Equal keys keep the order of a rank that increases along the input. */
  lemma {:induction false} SortKeepsRankOnTies<T, K(!new)>(s: seq<T>, key: T -> K, le: (K, K) -> bool, rank: T -> int)
    requires Reflexive(le)
    requires forall i, j :: 0 <= i < j < |s| ==> rank(s[i]) < rank(s[j])
    ensures TiesByRank(Sort(s, key, le), key, rank)
  {
    if |s| > 0 {
      var x := s[0];
      var r' := Sort(s[1..], key, le);
      SortKeepsRankOnTies(s[1..], key, le, rank);
      var p := InsertSplit(x, r', key, le);
      forall i | 0 <= i < |r'| ensures rank(x) < rank(r'[i]) {
        assert r'[i] in multiset(s[1..]);
        var m :| 0 <= m < |s[1..]| && s[1..][m] == r'[i];
        assert s[m + 1] == r'[i];
      }
      SpliceKeepsRank(r', x, p, key, rank);
    }
  }

  /** The first-seen rank of a counter entry. */
  function SeenRank<T(==)>(s: seq<T>): Tallied<T> -> int {
    (e: Tallied<T>) => if e.item in s then FirstIndex(s, e.item) else |s|
  }

  /** The counter, sorted by descending count. */
  function ByCount<T(==)>(s: seq<T>): (r: seq<Tallied<T>>)
    ensures |r| == |Distinct(s)|
  {
    Sort(Tally(s), CountOf, IntGe)
  }

  lemma ByCountEntries<T>(s: seq<T>)
    ensures forall i :: 0 <= i < |ByCount(s)| ==> ByCount(s)[i] in Tally(s)
    ensures forall i :: 0 <= i < |ByCount(s)| ==>
      ByCount(s)[i].item in s && ByCount(s)[i].count == Occurrences(s, ByCount(s)[i].item)
  {
    var t := Tally(s);
    forall i | 0 <= i < |ByCount(s)| ensures ByCount(s)[i] in t {
      assert ByCount(s)[i] in multiset(t);
    }
  }

  lemma ByCountItemsDistinct<T>(s: seq<T>)
    ensures forall i, j :: 0 <= i < j < |ByCount(s)| ==> ByCount(s)[i].item != ByCount(s)[j].item
  {
    var t := Tally(s);
    var sorted := ByCount(s);
    ByCountEntries(s);
    forall i, j | 0 <= i < j < |sorted| ensures sorted[i].item != sorted[j].item {
      var a :| 0 <= a < |t| && t[a] == sorted[i];
      var b :| 0 <= b < |t| && t[b] == sorted[j];
      assert t[a].item == Distinct(s)[a] && t[b].item == Distinct(s)[b];
      if a == b {
        TallyOnce(s, a);
        TwiceInSeq(sorted, i, j);
      }
    }
  }

  lemma TwiceInSeq<T>(r: seq<T>, i: nat, j: nat)
    requires i < j < |r|
    ensures multiset(r)[r[i]] >= (if r[i] == r[j] then 2 else 1)
  {
    assert r == r[..j] + r[j..];
    assert r[i] in r[..j];
    assert r[j] in r[j..];
    assert multiset(r) == multiset(r[..j]) + multiset(r[j..]);
  }

  lemma ByCountTies<T>(s: seq<T>)
    ensures TiesByRank(ByCount(s), CountOf, SeenRank(s))
  {
    var t := Tally(s);
    DistinctFirstSeen(s);
    forall i, j | 0 <= i < j < |t| ensures SeenRank(s)(t[i]) < SeenRank(s)(t[j]) {
    }
    SortKeepsRankOnTies(t, CountOf, IntGe, SeenRank(s));
  }

  lemma ByCountLeftOut<T>(s: seq<T>, n: nat, x: T, i: nat)
    requires x in s
    requires forall k :: 0 <= k < |ByCount(s)| && k < n ==> ByCount(s)[k].item != x
    requires i < |ByCount(s)| && i < n
    ensures ByCount(s)[i].count >= Occurrences(s, x)
  {
    var t := Tally(s);
    var sorted := ByCount(s);
    IntGeTotalOrder();
    SortSorted(t, CountOf, IntGe);
    var a := FirstIndex(Distinct(s), x);
    assert t[a] in multiset(sorted);
    var j :| 0 <= j < |sorted| && sorted[j] == t[a];
    assert IntGe(CountOf(sorted[i]), CountOf(sorted[j]));
  }

  /** What `most_common(n)` promises: the `min(n, distinct)` largest counts,
      exact, distinct values, in descending order of count. */
  lemma MostCommonSpec<T>(s: seq<T>, n: nat)
    ensures |MostCommon(s, n)| == if n < |Distinct(s)| then n else |Distinct(s)|
    ensures forall i :: 0 <= i < |MostCommon(s, n)| ==>
      MostCommon(s, n)[i].item in s && MostCommon(s, n)[i].count == Occurrences(s, MostCommon(s, n)[i].item)
    ensures forall i, j :: 0 <= i < j < |MostCommon(s, n)| ==>
      MostCommon(s, n)[i].count >= MostCommon(s, n)[j].count
    ensures forall i, j :: 0 <= i < j < |MostCommon(s, n)| ==>
      MostCommon(s, n)[i].item != MostCommon(s, n)[j].item
  {
    var sorted := ByCount(s);
    var r := MostCommon(s, n);
    assert r == sorted[..|r|];
    IntGeTotalOrder();
    SortSorted(Tally(s), CountOf, IntGe);
    ByCountEntries(s);
    ByCountItemsDistinct(s);
  }

  /** Ties in count keep first-seen order. */
  lemma MostCommonRanked<T>(s: seq<T>, n: nat)
    ensures forall i, j :: 0 <= i < j < |MostCommon(s, n)| && MostCommon(s, n)[i].count == MostCommon(s, n)[j].count ==>
      MostCommon(s, n)[i].item in s && MostCommon(s, n)[j].item in s
      && FirstIndex(s, MostCommon(s, n)[i].item) < FirstIndex(s, MostCommon(s, n)[j].item)
  {
    var sorted := ByCount(s);
    var r := MostCommon(s, n);
    assert r == sorted[..|r|];
    ByCountEntries(s);
    ByCountTies(s);
  }

  /** No value left out is counted more often than one that was kept. */
  lemma MostCommonLeftOut<T>(s: seq<T>, n: nat)
    ensures forall x, i ::
      (x in s && (forall k :: 0 <= k < |MostCommon(s, n)| ==> MostCommon(s, n)[k].item != x) && 0 <= i < |MostCommon(s, n)|)
      ==> MostCommon(s, n)[i].count >= Occurrences(s, x)
  {
    var sorted := ByCount(s);
    var r := MostCommon(s, n);
    assert r == sorted[..|r|];
    forall x, i | x in s && (forall k :: 0 <= k < |r| ==> r[k].item != x) && 0 <= i < |r|
      ensures r[i].count >= Occurrences(s, x)
    {
      ByCountLeftOut(s, n, x, i);
    }
  }

  /** When `n` reaches the number of distinct values, `most_common(n)`
      lists every value that occurs. */
  lemma MostCommonCovers<T>(s: seq<T>, n: nat, x: T)
    requires x in s && |Distinct(s)| <= n
    ensures exists k :: 0 <= k < |MostCommon(s, n)| && MostCommon(s, n)[k].item == x
  {
    var k := ByCountCovers(s, x);
    assert MostCommon(s, n) == ByCount(s);
  }

  /** The counter sorted by count holds every value that occurs, at `k`. */
  lemma ByCountCovers<T>(s: seq<T>, x: T) returns (k: nat)
    requires x in s
    ensures k < |ByCount(s)| && ByCount(s)[k].item == x
  {
    var t := Tally(s);
    var d := Distinct(s);
    var i :| 0 <= i < |s| && s[i] == x;
    assert x in d;
    var a :| 0 <= a < |d| && d[a] == x;
    assert t[a] in multiset(t);
    k :| 0 <= k < |ByCount(s)| && ByCount(s)[k] == t[a];
  }

  /** Each counter entry occurs exactly once in the counter. */
  lemma TallyOnce<T>(s: seq<T>, a: nat)
    requires a < |Tally(s)|
    ensures multiset(Tally(s))[Tally(s)[a]] == 1
  {
    var t := Tally(s);
    assert forall i, j :: 0 <= i < j < |t| ==> t[i] != t[j];
    DistinctOnce(t, a);
  }

  lemma {:induction false} DistinctOnce<T>(t: seq<T>, a: nat)
    requires a < |t|
    requires forall i, j :: 0 <= i < j < |t| ==> t[i] != t[j]
    ensures multiset(t)[t[a]] == 1
  {
    var x := t[a];
    assert t == t[..a] + [x] + t[a + 1..];
    assert x !in t[..a];
    assert x !in t[a + 1..];
    assert multiset(t) == multiset(t[..a]) + multiset{x} + multiset(t[a + 1..]);
  }
}
