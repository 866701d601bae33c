/**
 * Stable sorting by a key, the ordering used by JavaScript's `Array.sort`
 * with a comparator and by the store's `orderBy` queries.
 */
module Sorting {

  ghost predicate Total<K(!new)>(le: (K, K) -> bool) {
    forall a, b :: le(a, b) || le(b, a)
  }

  ghost predicate Transitive<K(!new)>(le: (K, K) -> bool) {
    forall a, b, c :: le(a, b) && le(b, c) ==> le(a, c)
  }

  ghost predicate SortedBy<T, K>(s: seq<T>, key: T -> K, le: (K, K) -> bool) {
    forall i, j :: 0 <= i < j < |s| ==> le(key(s[i]), key(s[j]))
  }

  /** Places `x` in front of the first element whose key it does not exceed. */
  function Insert<T, K>(x: T, s: seq<T>, key: T -> K, le: (K, K) -> bool): (r: seq<T>)
    ensures |r| == |s| + 1
  {
    if s == [] then [x]
    else if le(key(x), key(s[0])) then [x] + s
    else [s[0]] + Insert(x, s[1..], key, le)
  }

  /** Insertion sort; equal keys keep their input order. */
  function SortBy<T, K>(s: seq<T>, key: T -> K, le: (K, K) -> bool): (r: seq<T>)
    ensures |r| == |s|
  {
    if s == [] then [] else Insert(s[0], SortBy(s[1..], key, le), key, le)
  }

  /** The elements of `s` whose key is `k`, in order. */
  function WithKey<T, K(==)>(s: seq<T>, key: T -> K, k: K): (r: seq<T>)
    ensures |r| <= |s|
  {
    if s == [] then []
    else (if key(s[0]) == k then [s[0]] else []) + WithKey(s[1..], key, k)
  }

  lemma {:induction false} InsertPermutes<T, K>(x: T, s: seq<T>, key: T -> K, le: (K, K) -> bool)
    ensures multiset(Insert(x, s, key, le)) == multiset(s) + multiset{x}
  {
    if s == [] {
    } else if le(key(x), key(s[0])) {
      assert Insert(x, s, key, le) == [x] + s;
    } else {
      var rest := Insert(x, s[1..], key, le);
      InsertPermutes(x, s[1..], key, le);
      assert Insert(x, s, key, le) == [s[0]] + rest;
      assert s == [s[0]] + s[1..];
      assert multiset(s) == multiset{s[0]} + multiset(s[1..]);
      assert multiset([s[0]] + rest) == multiset{s[0]} + multiset(rest);
    }
  }

  lemma {:induction false} SortByPermutes<T, K>(s: seq<T>, key: T -> K, le: (K, K) -> bool)
    ensures multiset(SortBy(s, key, le)) == multiset(s)
  {
    if s != [] {
      SortByPermutes(s[1..], key, le);
      InsertPermutes(s[0], SortBy(s[1..], key, le), key, le);
      assert s == [s[0]] + s[1..];
    }
  }

  lemma SortByMembers<T, K>(s: seq<T>, key: T -> K, le: (K, K) -> bool)
    ensures forall x :: x in SortBy(s, key, le) <==> x in s
  {
    SortByPermutes(s, key, le);
    forall x
      ensures x in SortBy(s, key, le) <==> x in s
    {
      assert x in SortBy(s, key, le) <==> x in multiset(SortBy(s, key, le));
      assert x in s <==> x in multiset(s);
    }
  }

  /** No element occurs twice: at most once in the multiset. */
  lemma {:induction false} DistinctCountsOnce<T>(s: seq<T>, x: T)
    requires forall a, b :: 0 <= a < b < |s| ==> s[a] != s[b]
    ensures multiset(s)[x] <= 1
  {
    if s != [] {
      DistinctCountsOnce(s[1..], x);
      assert s == [s[0]] + s[1..];
      assert multiset(s) == multiset{s[0]} + multiset(s[1..]);
      if s[0] == x {
        assert x !in s[1..];
      }
    }
  }

  /** An element at two positions occurs at least twice in the multiset. */
  lemma RepeatCountsTwice<T>(r: seq<T>, a: int, b: int)
    requires 0 <= a < b < |r| && r[a] == r[b]
    ensures multiset(r)[r[a]] >= 2
  {
    var x := r[a];
    assert r == r[..a] + [x] + r[a+1..b] + [x] + r[b+1..];
    assert multiset(r) == multiset(r[..a]) + multiset{x} + multiset(r[a+1..b]) + multiset{x} + multiset(r[b+1..]);
  }

  /** A rearrangement of a sequence without repeats has no repeats. */
  lemma PermutationKeepsDistinct<T>(s: seq<T>, r: seq<T>)
    requires multiset(r) == multiset(s)
    requires forall a, b :: 0 <= a < b < |s| ==> s[a] != s[b]
    ensures forall a, b :: 0 <= a < b < |r| ==> r[a] != r[b]
  {
    forall a, b | 0 <= a < b < |r|
      ensures r[a] != r[b]
    {
      if r[a] == r[b] {
        RepeatCountsTwice(r, a, b);
        DistinctCountsOnce(s, r[a]);
      }
    }
  }

  lemma {:induction false} InsertSorted<T, K(!new)>(x: T, s: seq<T>, key: T -> K, le: (K, K) -> bool)
    requires Total(le) && Transitive(le)
    requires SortedBy(s, key, le)
    ensures SortedBy(Insert(x, s, key, le), key, le)
  {
    if s != [] && !le(key(x), key(s[0])) {
      InsertSorted(x, s[1..], key, le);
      InsertPermutes(x, s[1..], key, le);
      var t := Insert(x, s[1..], key, le);
      forall j | 0 <= j < |t|
        ensures le(key(s[0]), key(t[j]))
      {
        assert t[j] in multiset(t);
        if t[j] != x {
          assert t[j] in multiset(s[1..]);
          var m :| 0 <= m < |s[1..]| && s[1..][m] == t[j];
          assert s[1 + m] == t[j];
        }
      }
      assert Insert(x, s, key, le) == [s[0]] + t;
    }
  }

  lemma {:induction false} SortBySorted<T, K(!new)>(s: seq<T>, key: T -> K, le: (K, K) -> bool)
    requires Total(le) && Transitive(le)
    ensures SortedBy(SortBy(s, key, le), key, le)
  {
    if s != [] {
      SortBySorted(s[1..], key, le);
      InsertSorted(s[0], SortBy(s[1..], key, le), key, le);
    }
  }

  lemma WithKeyCons<T, K>(y: T, t: seq<T>, key: T -> K, k: K)
    ensures WithKey([y] + t, key, k) == (if key(y) == k then [y] else []) + WithKey(t, key, k)
  {
    assert ([y] + t)[0] == y;
    assert ([y] + t)[1..] == t;
  }

  lemma {:induction false} WithKeyInsert<T, K(!new)>(x: T, s: seq<T>, key: T -> K, le: (K, K) -> bool, k: K)
    requires Total(le)
    ensures WithKey(Insert(x, s, key, le), key, k)
         == (if key(x) == k then [x] else []) + WithKey(s, key, k)
  {
    if s == [] {
      WithKeyCons(x, [], key, k);
    } else if le(key(x), key(s[0])) {
      WithKeyCons(x, s, key, k);
    } else {
      assert le(key(x), key(x));
      var t := Insert(x, s[1..], key, le);
      WithKeyInsert(x, s[1..], key, le, k);
      WithKeyCons(s[0], t, key, k);
      WithKeyCons(s[0], s[1..], key, k);
      assert s == [s[0]] + s[1..];
    }
  }

  /** Stability: among the elements that share a key, the input order survives. */
  lemma {:induction false} SortByStable<T, K(!new)>(s: seq<T>, key: T -> K, le: (K, K) -> bool, k: K)
    requires Total(le)
    ensures WithKey(SortBy(s, key, le), key, k) == WithKey(s, key, k)
  {
    if s != [] {
      SortByStable(s[1..], key, le, k);
      WithKeyInsert(s[0], SortBy(s[1..], key, le), key, le, k);
    }
  }

  /** Integers in ascending order. */
  function IntLe(a: int, b: int): bool { a <= b }

  lemma IntLeIsTotalOrder()
    ensures Total(IntLe) && Transitive(IntLe)
  {
  }

  /**
   * Strings in lexicographic order of their Unicode code points: one
   * collation that meets what the name-ordered listings require of theirs.
   */
  function StrLe(a: string, b: string): bool {
    if a == [] then true
    else if b == [] then false
    else if a[0] != b[0] then a[0] < b[0]
    else StrLe(a[1..], b[1..])
  }

  lemma {:induction false} StrLeTotal(a: string, b: string)
    ensures StrLe(a, b) || StrLe(b, a)
  {
    if a != [] && b != [] && a[0] == b[0] {
      StrLeTotal(a[1..], b[1..]);
    }
  }

  lemma {:induction false} StrLeTrans(a: string, b: string, c: string)
    requires StrLe(a, b) && StrLe(b, c)
    ensures StrLe(a, c)
  {
    if a != [] && b != [] && c != [] && a[0] == b[0] && b[0] == c[0] {
      StrLeTrans(a[1..], b[1..], c[1..]);
    }
  }

  lemma StrLeIsTotalOrder()
    ensures Total(StrLe) && Transitive(StrLe)
  {
    forall a, b
      ensures StrLe(a, b) || StrLe(b, a)
    {
      StrLeTotal(a, b);
    }
    forall a, b, c | StrLe(a, b) && StrLe(b, c)
      ensures StrLe(a, c)
    {
      StrLeTrans(a, b, c);
    }
  }
}
