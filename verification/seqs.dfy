/**
  Sequence operations the application uses through Swift's collection API:
  `reduce(0, +)`, `filter`, `map`, `firstIndex(where:)`, `remove(at:)`,
  together with the lemmas that relate them to concatenation and to
  permutation of their input.
 */
module Seqs {
  import opened Options

  /** `s.reduce(0) { $0 + f($1) }`. */
  function SumOf<T>(s: seq<T>, f: T -> int): int
  {
    if |s| == 0 then 0 else f(s[0]) + SumOf(s[1..], f)
  }

  /** Summing is additive over concatenation. */
  lemma {:induction false} SumOfConcat<T>(a: seq<T>, b: seq<T>, f: T -> int)
    ensures SumOf(a + b, f) == SumOf(a, f) + SumOf(b, f)
  {
    if |a| == 0 {
      assert a + b == b;
    } else {
      assert (a + b)[1..] == a[1..] + b;
      SumOfConcat(a[1..], b, f);
    }
  }

  /** A sum of non-negative terms is non-negative. */
  lemma {:induction false} SumOfNonNegative<T>(s: seq<T>, f: T -> int)
    requires forall i :: 0 <= i < |s| ==> f(s[i]) >= 0
    ensures SumOf(s, f) >= 0
  {
    if |s| > 0 {
      SumOfNonNegative(s[1..], f);
    }
  }

  /** Summing two functions that agree pointwise gives the same total, and
      a pointwise smaller function gives a smaller total. */
  lemma {:induction false} SumOfMonotone<T>(s: seq<T>, f: T -> int, g: T -> int)
    requires forall i :: 0 <= i < |s| ==> f(s[i]) <= g(s[i])
    ensures SumOf(s, f) <= SumOf(s, g)
  {
    if |s| > 0 {
      SumOfMonotone(s[1..], f, g);
    }
  }

  /** `s.filter(p)`: the elements satisfying `p`, in their original order. */
  function Filter<T(!new)>(s: seq<T>, p: T -> bool): (r: seq<T>)
    ensures |r| <= |s|
    ensures forall i :: 0 <= i < |r| ==> p(r[i])
    ensures forall x :: multiset(r)[x] == if p(x) then multiset(s)[x] else 0
  {
    if |s| == 0 then []
    else
      assert s == [s[0]] + s[1..];
      (if p(s[0]) then [s[0]] else []) + Filter(s[1..], p)
  }

  /** Filtering commutes with concatenation: relative order is kept. */
  lemma {:induction false} FilterConcat<T(!new)>(a: seq<T>, b: seq<T>, p: T -> bool)
    ensures Filter(a + b, p) == Filter(a, p) + Filter(b, p)
  {
    if |a| == 0 {
      assert a + b == b;
    } else {
      assert (a + b)[1..] == a[1..] + b;
      FilterConcat(a[1..], b, p);
      var head := if p(a[0]) then [a[0]] else [];
      assert Filter(a, p) == head + Filter(a[1..], p);
      AppendAssoc(head, Filter(a[1..], p), Filter(b, p));
    }
  }

  /** Concatenation is associative. */
  lemma AppendAssoc<T>(a: seq<T>, b: seq<T>, c: seq<T>)
    ensures a + (b + c) == (a + b) + c
  {
  }

  /** Filtering keeps everything exactly when every element passes. */
  lemma {:induction false} FilterAll<T(!new)>(s: seq<T>, p: T -> bool)
    requires forall i :: 0 <= i < |s| ==> p(s[i])
    ensures Filter(s, p) == s
  {
    if |s| > 0 {
      FilterAll(s[1..], p);
    }
  }

  /** When test `p` is the disjoint union of tests `q` and `u`, what `p`
      keeps is what `q` keeps together with what `u` keeps. */
  lemma {:induction false} FilterSplit<T(!new)>(s: seq<T>, p: T -> bool, q: T -> bool, u: T -> bool)
    requires forall x :: p(x) <==> q(x) || u(x)
    requires forall x :: !(q(x) && u(x))
    ensures multiset(Filter(s, p)) == multiset(Filter(s, q)) + multiset(Filter(s, u))
    ensures |Filter(s, p)| == |Filter(s, q)| + |Filter(s, u)|
  {
    if |s| > 0 {
      FilterSplit(s[1..], p, q, u);
    }
  }

  /** The number of elements kept depends only on the multiset of the input. */
  lemma FilterPermutation<T(!new)>(a: seq<T>, b: seq<T>, p: T -> bool)
    requires multiset(a) == multiset(b)
    ensures multiset(Filter(a, p)) == multiset(Filter(b, p))
    ensures |Filter(a, p)| == |Filter(b, p)|
  {
    var fa, fb := Filter(a, p), Filter(b, p);
    assert forall x :: multiset(fa)[x] == multiset(fb)[x];
    assert multiset(fa) == multiset(fb);
    assert |fa| == |multiset(fa)| == |multiset(fb)| == |fb|;
  }

  /** The indices of `s` whose element satisfies `p`. */
  ghost function IndexSet<T>(s: seq<T>, p: T -> bool): set<int>
  {
    set i | 0 <= i < |s| && p(s[i])
  }

  /** The length of a filter is the number of indices that pass. */
  lemma {:induction false} FilterCountsIndices<T(!new)>(s: seq<T>, p: T -> bool)
    ensures |Filter(s, p)| == |IndexSet(s, p)|
  {
    if |s| == 0 {
      assert IndexSet(s, p) == {};
    } else {
      var n := |s| - 1;
      var init := s[..n];
      FilterCountsIndices(init, p);
      assert s == init + [s[n]];
      FilterConcat(init, [s[n]], p);
      IndexSetSnoc(s, p);
    }
  }

  lemma IndexSetSnoc<T>(s: seq<T>, p: T -> bool)
    requires |s| > 0
    ensures var n := |s| - 1;
      |IndexSet(s, p)| == |IndexSet(s[..n], p)| + if p(s[n]) then 1 else 0
  {
    var n := |s| - 1;
    var prefix := IndexSet(s[..n], p);
    assert n !in prefix;
    assert forall i :: 0 <= i < n ==> s[..n][i] == s[i];
    if p(s[n]) {
      assert IndexSet(s, p) == prefix + {n};
    } else {
      assert IndexSet(s, p) == prefix;
    }
  }

  /** `s.map(f)`. */
  function MapSeq<T, U>(s: seq<T>, f: T -> U): (r: seq<U>)
    ensures |r| == |s|
    ensures forall i :: 0 <= i < |s| ==> r[i] == f(s[i])
  {
    seq(|s|, i requires 0 <= i < |s| => f(s[i]))
  }

  lemma MapConcat<T, U>(a: seq<T>, b: seq<T>, f: T -> U)
    ensures MapSeq(a + b, f) == MapSeq(a, f) + MapSeq(b, f)
  {
    assert forall i :: 0 <= i < |a| + |b| ==> MapSeq(a + b, f)[i] == (MapSeq(a, f) + MapSeq(b, f))[i];
  }

  /** Mapping two permutations of each other gives permutations of each other. */
  lemma {:induction false} MapPermutation<T, U>(a: seq<T>, b: seq<T>, f: T -> U)
    requires multiset(a) == multiset(b)
    ensures multiset(MapSeq(a, f)) == multiset(MapSeq(b, f))
  {
    if |a| == 0 {
      assert |b| == |multiset(b)| == 0;
    } else {
      var x := a[0];
      assert x in multiset(b);
      var k :| 0 <= k < |b| && b[k] == x;
      var rest := b[..k] + b[k + 1..];
      assert b == b[..k] + [x] + b[k + 1..];
      assert a == [x] + a[1..];
      assert multiset(b) == multiset(b[..k]) + multiset{x} + multiset(b[k + 1..]);
      assert multiset(rest) == multiset(b[..k]) + multiset(b[k + 1..]);
      assert multiset(a) == multiset{x} + multiset(a[1..]);
      assert multiset(a[1..]) == multiset(a) - multiset{x};
      assert multiset(rest) == multiset(b) - multiset{x};
      MapPermutation(a[1..], rest, f);
      MapConcat([x], a[1..], f);
      MapConcat(b[..k] + [x], b[k + 1..], f);
      MapConcat(b[..k], [x], f);
      MapConcat(b[..k], b[k + 1..], f);
    }
  }

  /** `s.firstIndex(where: p)`. */
  function FirstIndex<T>(s: seq<T>, p: T -> bool): (r: Option<nat>)
    ensures r.None? <==> forall i :: 0 <= i < |s| ==> !p(s[i])
    ensures r.Some? ==> r.value < |s| && p(s[r.value])
    ensures r.Some? ==> forall i :: 0 <= i < r.value ==> !p(s[i])
  {
    if |s| == 0 then None
    else if p(s[0]) then Some(0)
    else
      match FirstIndex(s[1..], p)
      case None => None
      case Some(k) => Some(k + 1)
  }

  /** An element satisfying `p` with none before it is the first index. */
  lemma {:induction false} FirstIndexIs<T>(s: seq<T>, p: T -> bool, i: nat)
    requires i < |s| && p(s[i])
    requires forall j :: 0 <= j < i ==> !p(s[j])
    ensures FirstIndex(s, p) == Some(i)
  {
    if i > 0 {
      FirstIndexIs(s[1..], p, i - 1);
    }
  }

  /** `s.remove(at: i)`. */
  function RemoveAt<T>(s: seq<T>, i: nat): (r: seq<T>)
    requires i < |s|
    ensures |r| == |s| - 1
    ensures multiset(r) == multiset(s) - multiset{s[i]}
    ensures forall j :: 0 <= j < i ==> r[j] == s[j]
    ensures forall j :: i <= j < |r| ==> r[j] == s[j + 1]
  {
    assert s == s[..i] + [s[i]] + s[i + 1..];
    s[..i] + s[i + 1..]
  }

  /** Replacing one element changes a sum by the difference of its terms. */
  lemma SumOfUpdate<T>(s: seq<T>, i: nat, v: T, f: T -> int)
    requires i < |s|
    ensures SumOf(s[i := v], f) == SumOf(s, f) - f(s[i]) + f(v)
  {
    var pre, post := s[..i], s[i + 1..];
    assert s == pre + [s[i]] + post;
    assert s[i := v] == pre + [v] + post;
    SumOfConcat(pre + [s[i]], post, f);
    SumOfConcat(pre, [s[i]], f);
    SumOfConcat(pre + [v], post, f);
    SumOfConcat(pre, [v], f);
    assert SumOf([v], f) == f(v) by { assert [v][1..] == []; }
    assert SumOf([s[i]], f) == f(s[i]) by { assert [s[i]][1..] == []; }
  }

  /** No element occurs twice. */
  ghost predicate NoDup<T>(s: seq<T>)
  {
    forall i, j :: 0 <= i < j < |s| ==> s[i] != s[j]
  }

  lemma {:induction false} NoDupMultiplicity<T>(s: seq<T>, x: T)
    requires NoDup(s)
    ensures multiset(s)[x] <= 1
  {
    if |s| > 0 {
      assert s == [s[0]] + s[1..];
      NoDupMultiplicity(s[1..], x);
      if x == s[0] {
        assert x !in s[1..] by {
          forall k | 0 <= k < |s[1..]| ensures s[1..][k] != x {
            assert s[1..][k] == s[k + 1];
          }
        }
      }
    }
  }

  lemma MultiplicityNoDup<T>(s: seq<T>)
    requires forall x :: x in s ==> multiset(s)[x] <= 1
    ensures NoDup(s)
  {
    forall i, j | 0 <= i < j < |s| ensures s[i] != s[j] {
      var pre := s[..j];
      assert s == pre + [s[j]] + s[j + 1..];
      assert s[i] in pre;
      assert multiset(s) == multiset(pre) + multiset{s[j]} + multiset(s[j + 1..]);
      assert multiset(s)[s[j]] >= multiset(pre)[s[j]] + 1;
    }
  }

  /** Being free of duplicates survives permutation. */
  lemma NoDupPermutation<T>(a: seq<T>, b: seq<T>)
    requires multiset(a) == multiset(b)
    requires NoDup(a)
    ensures NoDup(b)
  {
    forall x | x in b ensures multiset(b)[x] <= 1 {
      NoDupMultiplicity(a, x);
    }
    MultiplicityNoDup(b);
  }

  /** A filter is empty exactly when no element passes. */
  lemma FilterEmpty<T(!new)>(s: seq<T>, p: T -> bool)
    ensures |Filter(s, p)| == 0 <==> forall i :: 0 <= i < |s| ==> !p(s[i])
  {
    var r := Filter(s, p);
    if |r| == 0 {
      forall i | 0 <= i < |s| ensures !p(s[i]) {
        assert s[i] in multiset(s);
        assert multiset(r)[s[i]] == 0;
      }
    } else {
      assert r[0] in multiset(r);
      assert r[0] in multiset(s);
    }
  }
}
