/**
  Sorting by an integer key, standing for Swift's `sorted { k($0) > k($1) }`
  and `sorted { k($0) < k($1) }`. Swift does not document the order of equal
  keys; this insertion sort keeps equal keys in input order, and no contract
  below relies on that.
 */
module Sorting {
  import opened Seqs

  ghost predicate SortedDesc<T>(s: seq<T>, key: T -> int)
  {
    forall i, j :: 0 <= i < j < |s| ==> key(s[i]) >= key(s[j])
  }

  ghost predicate SortedAsc<T>(s: seq<T>, key: T -> int)
  {
    forall i, j :: 0 <= i < j < |s| ==> key(s[i]) <= key(s[j])
  }

  /** Inserts `x` before the first element whose key is not larger. */
  function Insert<T>(x: T, s: seq<T>, key: T -> int): (r: seq<T>)
    ensures |r| == |s| + 1
    ensures multiset(r) == multiset(s) + multiset{x}
  {
    if |s| == 0 then [x]
    else if key(s[0]) <= key(x) then [x] + s
    else
      assert s == [s[0]] + s[1..];
      [s[0]] + Insert(x, s[1..], key)
  }

  /** Inserting into a sorted sequence keeps it sorted. */
  lemma {:induction false} InsertSorted<T>(x: T, s: seq<T>, key: T -> int)
    requires SortedDesc(s, key)
    ensures SortedDesc(Insert(x, s, key), key)
  {
    if |s| > 0 && key(s[0]) > key(x) {
      var tail := Insert(x, s[1..], key);
      InsertSorted(x, s[1..], key);
      forall j | 0 <= j < |tail| ensures key(s[0]) >= key(tail[j]) {
        assert tail[j] in multiset(tail);
        if tail[j] != x {
          assert tail[j] in multiset(s[1..]);
          var k :| 0 <= k < |s[1..]| && s[1..][k] == tail[j];
          assert s[k + 1] == tail[j];
        }
      }
    }
  }

  function SortDesc<T>(s: seq<T>, key: T -> int): (r: seq<T>)
    ensures |r| == |s|
    ensures multiset(r) == multiset(s)
    ensures SortedDesc(r, key)
  {
    if |s| == 0 then []
    else
      assert s == [s[0]] + s[1..];
      InsertSorted(s[0], SortDesc(s[1..], key), key);
      Insert(s[0], SortDesc(s[1..], key), key)
  }

  function Negate<T>(key: T -> int): T -> int
  {
    x => -key(x)
  }

  function SortAsc<T>(s: seq<T>, key: T -> int): (r: seq<T>)
    ensures |r| == |s|
    ensures multiset(r) == multiset(s)
    ensures SortedAsc(r, key)
  {
    var r := SortDesc(s, Negate(key));
    assert forall i, j :: 0 <= i < j < |r| ==> Negate(key)(r[i]) >= Negate(key)(r[j]);
    r
  }

  /** Inserting adds exactly the inserted element's term to any sum. */
  lemma {:induction false} SumOfInsert<T>(x: T, s: seq<T>, key: T -> int, f: T -> int)
    ensures SumOf(Insert(x, s, key), f) == f(x) + SumOf(s, f)
  {
    if |s| == 0 {
    } else if key(s[0]) <= key(x) {
      assert ([x] + s)[1..] == s;
    } else {
      SumOfInsert(x, s[1..], key, f);
      assert ([s[0]] + Insert(x, s[1..], key))[1..] == Insert(x, s[1..], key);
    }
  }

  /** Sorting does not change any sum over the sequence. */
  lemma {:induction false} SumOfSortDesc<T>(s: seq<T>, key: T -> int, f: T -> int)
    ensures SumOf(SortDesc(s, key), f) == SumOf(s, f)
  {
    if |s| > 0 {
      SumOfSortDesc(s[1..], key, f);
      SumOfInsert(s[0], SortDesc(s[1..], key), key, f);
    }
  }

  /** Filtering a sorted sequence leaves it sorted. */
  lemma {:induction false} FilterKeepsSortedDesc<T(!new)>(s: seq<T>, key: T -> int, p: T -> bool)
    requires SortedDesc(s, key)
    ensures SortedDesc(Filter(s, p), key)
  {
    if |s| > 0 {
      FilterKeepsSortedDesc(s[1..], key, p);
      var tail := Filter(s[1..], p);
      forall y | y in tail ensures key(s[0]) >= key(y) {
        assert y in multiset(tail);
        assert y in multiset(s[1..]);
      }
    }
  }

  lemma {:induction false} FilterKeepsSortedAsc<T(!new)>(s: seq<T>, key: T -> int, p: T -> bool)
    requires SortedAsc(s, key)
    ensures SortedAsc(Filter(s, p), key)
  {
    if |s| > 0 {
      FilterKeepsSortedAsc(s[1..], key, p);
      var tail := Filter(s[1..], p);
      forall y | y in tail ensures key(s[0]) <= key(y) {
        assert y in multiset(tail);
        assert y in multiset(s[1..]);
      }
    }
  }
}
