/**
 * The array methods the views are written with: `filter`, `find`, `map`, a `reduce`
 * that sums, `reverse`, `slice(0, k)` and a stable `sort` by a numeric key.
 */
module Seqs {
  import opened Common

  /** `s.filter(p)`. */
  function Filter<T(!new)>(s: seq<T>, p: T -> bool): (r: seq<T>)
    ensures |r| <= |s|
    ensures forall x :: x in r <==> x in s && p(x)
    decreases |s|
  {
    if s == [] then [] else (if p(s[0]) then [s[0]] else []) + Filter(s[1..], p)
  }

  /** Filtering a concatenation filters each part and keeps their order. */
  lemma {:induction false} FilterConcat<T(!new)>(a: seq<T>, b: seq<T>, p: T -> bool)
    ensures Filter(a + b, p) == Filter(a, p) + Filter(b, p)
    decreases |a|
  {
    if a != [] {
      assert (a + b)[1..] == a[1..] + b;
      FilterConcat(a[1..], b, p);
    } else {
      assert a + b == b;
    }
  }

  /** Filtering keeps every copy of a selected element and drops every other. */
  lemma {:induction false} FilterMultiset<T(!new)>(s: seq<T>, p: T -> bool)
    ensures forall x :: multiset(Filter(s, p))[x] == if p(x) then multiset(s)[x] else 0
    decreases |s|
  {
    if s != [] {
      FilterMultiset(s[1..], p);
      assert s == [s[0]] + s[1..];
    }
  }

  /** Filters by predicates that agree on every element are equal. */
  lemma {:induction false} FilterCongruent<T(!new)>(s: seq<T>, p: T -> bool, q: T -> bool)
    requires forall x :: x in s ==> p(x) == q(x)
    ensures Filter(s, p) == Filter(s, q)
    decreases |s|
  {
    if s != [] {
      FilterCongruent(s[1..], p, q);
    }
  }

  /** Two arrangements of the same elements have equally long filters. */
  lemma CountOfPermutation<T(!new)>(a: seq<T>, b: seq<T>, p: T -> bool)
    requires multiset(a) == multiset(b)
    ensures |Filter(a, p)| == |Filter(b, p)|
  {
    FilterMultiset(a, p);
    FilterMultiset(b, p);
    assert multiset(Filter(a, p)) == multiset(Filter(b, p));
  }

  /** A filter every element passes keeps the sequence whole. */
  lemma {:induction false} FilterKeepsAll<T(!new)>(s: seq<T>, p: T -> bool)
    requires forall x :: x in s ==> p(x)
    ensures Filter(s, p) == s
    decreases |s|
  {
    if s != [] {
      assert forall x :: x in s[1..] ==> x in s;
      FilterKeepsAll(s[1..], p);
    }
  }

  /** A filter no element passes keeps nothing. */
  lemma {:induction false} FilterKeepsNone<T(!new)>(s: seq<T>, p: T -> bool)
    requires forall x :: x in s ==> !p(x)
    ensures Filter(s, p) == []
    decreases |s|
  {
    if s != [] {
      assert forall x :: x in s[1..] ==> x in s;
      FilterKeepsNone(s[1..], p);
    }
  }

  /** `r` is `s` with some elements dropped and the rest in their order. */
  predicate Subsequence<T(==)>(r: seq<T>, s: seq<T>)
    decreases |s|
  {
    if r == [] then true
    else if s == [] then false
    else (r[0] == s[0] && Subsequence(r[1..], s[1..])) || Subsequence(r, s[1..])
  }

  /** Filtering keeps the order of what it keeps. */
  lemma {:induction false} FilterIsSubsequence<T(!new)>(s: seq<T>, p: T -> bool)
    ensures Subsequence(Filter(s, p), s)
    decreases |s|
  {
    if s != [] {
      FilterIsSubsequence(s[1..], p);
      var r := Filter(s, p);
      if p(s[0]) {
        assert r[0] == s[0] && r[1..] == Filter(s[1..], p);
      } else {
        assert r == Filter(s[1..], p);
        if r != [] {
          assert Subsequence(r, s[1..]);
        }
      }
    }
  }

  /** `s.find(p)`: the first element satisfying `p`, if any. */
  function Find<T(!new)>(s: seq<T>, p: T -> bool): (r: Option<T>)
    ensures r.None? <==> forall x :: x in s ==> !p(x)
    ensures r.Some? ==> r.value in s && p(r.value)
    decreases |s|
  {
    if s == [] then None else if p(s[0]) then Some(s[0]) else Find(s[1..], p)
  }

  /** What `find` returns is the first match: no element before it satisfies `p`. */
  lemma {:induction false} FindIsFirst<T(!new)>(s: seq<T>, p: T -> bool)
    ensures Find(s, p).Some? ==>
      exists i :: 0 <= i < |s| && s[i] == Find(s, p).value && forall j :: 0 <= j < i ==> !p(s[j])
    decreases |s|
  {
    if s != [] && Find(s, p).Some? {
      if p(s[0]) {
        assert s[0] == Find(s, p).value;
      } else {
        FindIsFirst(s[1..], p);
        var i :| 0 <= i < |s[1..]| && s[1..][i] == Find(s, p).value
                 && forall j :: 0 <= j < i ==> !p(s[1..][j]);
        assert s[i + 1] == Find(s, p).value;
        assert forall j :: 0 <= j < i + 1 ==> !p(s[j]) by {
          forall j | 0 <= j < i + 1
            ensures !p(s[j])
          {
            if j > 0 {
              assert s[j] == s[1..][j - 1];
            }
          }
        }
      }
    }
  }

  /** Position `i` holds the first element of `s` satisfying `p`. */
  predicate FirstMatchAt<T>(s: seq<T>, p: T -> bool, i: int) {
    0 <= i < |s| && p(s[i]) && forall j :: 0 <= j < i ==> !p(s[j])
  }

  /** Conversely, `find` returns the element at the first matching position. */
  lemma {:induction false} FindAtFirstMatch<T(!new)>(s: seq<T>, p: T -> bool)
    ensures forall i :: FirstMatchAt(s, p, i) ==> Find(s, p) == Some(s[i])
    decreases |s|
  {
    if s != [] && !p(s[0]) {
      FindAtFirstMatch(s[1..], p);
      forall i | FirstMatchAt(s, p, i)
        ensures Find(s, p) == Some(s[i])
      {
        assert i > 0;
        assert FirstMatchAt(s[1..], p, i - 1) by {
          forall j | 0 <= j < i - 1
            ensures !p(s[1..][j])
          {
            assert s[1..][j] == s[j + 1];
          }
        }
      }
    }
  }

  /** `s.map(f)`. */
  function Map<T, U>(s: seq<T>, f: T -> U): (r: seq<U>)
    ensures |r| == |s|
    ensures forall i :: 0 <= i < |s| ==> r[i] == f(s[i])
  {
    seq(|s|, i requires 0 <= i < |s| => f(s[i]))
  }

  /** Mapping a concatenation maps each part. */
  lemma MapConcat<T, U>(a: seq<T>, b: seq<T>, f: T -> U)
    ensures Map(a + b, f) == Map(a, f) + Map(b, f)
  {
    assert forall i :: 0 <= i < |a + b| ==> Map(a + b, f)[i] == (Map(a, f) + Map(b, f))[i];
  }

  /** Every sequence is a subsequence of itself. */
  lemma {:induction false} SubsequenceOfItself<T>(s: seq<T>)
    ensures Subsequence(s, s)
    decreases |s|
  {
    if s != [] {
      SubsequenceOfItself(s[1..]);
    }
  }

  /** `s.reduce((acc, x) => acc + f(x), 0)`. */
  function Sum<T>(s: seq<T>, f: T -> real): real
    decreases |s|
  {
    if s == [] then 0.0 else f(s[0]) + Sum(s[1..], f)
  }

  /** Summing a concatenation adds the sums of its parts. */
  lemma {:induction false} SumConcat<T>(a: seq<T>, b: seq<T>, f: T -> real)
    ensures Sum(a + b, f) == Sum(a, f) + Sum(b, f)
    decreases |a|
  {
    if a != [] {
      assert (a + b)[1..] == a[1..] + b;
      SumConcat(a[1..], b, f);
    } else {
      assert a + b == b;
    }
  }

  /** A sum of values that all lie in `[lo, hi]` lies in `[n * lo, n * hi]`. */
  lemma {:induction false} SumBounds<T>(s: seq<T>, f: T -> real, lo: real, hi: real)
    requires forall x :: x in s ==> lo <= f(x) <= hi
    ensures |s| as real * lo <= Sum(s, f) <= |s| as real * hi
    decreases |s|
  {
    if s != [] {
      SumBounds(s[1..], f, lo, hi);
      var m := |s[1..]| as real;
      assert s[0] in s;
      assert |s| as real * lo == lo + m * lo && |s| as real * hi == hi + m * hi;
    }
  }

  /** One step of summing a filter. */
  lemma SumFilterCons<T(!new)>(s: seq<T>, p: T -> bool, f: T -> real)
    requires s != []
    ensures Sum(Filter(s, p), f) == (if p(s[0]) then f(s[0]) else 0.0) + Sum(Filter(s[1..], p), f)
  {
    var head := if p(s[0]) then [s[0]] else [];
    assert Filter(s, p) == head + Filter(s[1..], p);
    SumConcat(head, Filter(s[1..], p), f);
    assert head != [] ==> head[1..] == [];
  }

  /** `[0, 1, ..., n - 1]`. */
  function Upto(n: nat): (r: seq<int>)
    ensures |r| == n
    ensures forall i :: 0 <= i < n ==> r[i] == i
  {
    if n == 0 then [] else Upto(n - 1) + [n - 1]
  }

  /** Rearranging the elements does not change their sum. */
  lemma {:induction false} SumPermutation<T>(a: seq<T>, b: seq<T>, f: T -> real)
    requires multiset(a) == multiset(b)
    ensures Sum(a, f) == Sum(b, f)
    decreases |a|
  {
    if a != [] {
      assert a[0] in multiset(b);
      var i :| 0 <= i < |b| && b[i] == a[0];
      var rest := b[..i] + b[i + 1..];
      WithoutOne(a, 0);
      assert a[..0] + a[1..] == a[1..];
      WithoutOne(b, i);
      SumPermutation(a[1..], rest, f);
      SumSplit(b, i, f);
    }
  }

  lemma WithoutOne<T>(s: seq<T>, i: nat)
    requires i < |s|
    ensures multiset(s[..i] + s[i + 1..]) == multiset(s) - multiset{s[i]}
  {
    assert s == s[..i] + [s[i]] + s[i + 1..];
  }

  lemma SumSplit<T>(s: seq<T>, i: nat, f: T -> real)
    requires i < |s|
    ensures Sum(s, f) == f(s[i]) + Sum(s[..i] + s[i + 1..], f)
  {
    SumConcat(s[..i], s[i + 1..], f);
    SumConcat(s[..i], [s[i]] + s[i + 1..], f);
    assert ([s[i]] + s[i + 1..])[1..] == s[i + 1..];
    assert s[..i] + ([s[i]] + s[i + 1..]) == s;
  }

  /** `total / count`, or 0 when there is nothing to divide by. */
  function Average(total: real, count: nat): (a: real)
    ensures count > 0 ==> a * count as real == total
    ensures count == 0 ==> a == 0.0
  {
    if count > 0 then total / count as real else 0.0
  }

  /** `[...s].reverse()`. */
  function Reverse<T>(s: seq<T>): (r: seq<T>)
    ensures |r| == |s|
    ensures forall i :: 0 <= i < |s| ==> r[i] == s[|s| - 1 - i]
    decreases |s|
  {
    if s == [] then [] else Reverse(s[1..]) + [s[0]]
  }

  /** Reversing does not change the sum. */
  lemma {:induction false} SumReverse<T>(s: seq<T>, f: T -> real)
    ensures Sum(Reverse(s), f) == Sum(s, f)
    decreases |s|
  {
    if s != [] {
      SumReverse(s[1..], f);
      assert Reverse(s) == Reverse(s[1..]) + [s[0]];
      SumConcat(Reverse(s[1..]), [s[0]], f);
      assert [s[0]][1..] == [];
    }
  }

  /** `s.slice(0, k)`. */
  function Take<T>(s: seq<T>, k: nat): (r: seq<T>)
    ensures |r| == if |s| <= k then |s| else k
    ensures r == s[..|r|]
  {
    if |s| <= k then s else s[..k]
  }

  /** Non-increasing by `key`. */
  predicate SortedDesc<T>(s: seq<T>, key: T -> real) {
    forall i, j :: 0 <= i < j < |s| ==> key(s[i]) >= key(s[j])
  }

  /** Puts `x` before the first element whose key is not larger than its own. */
  function Insert<T>(x: T, s: seq<T>, key: T -> real): (r: seq<T>)
    requires SortedDesc(s, key)
    ensures SortedDesc(r, key)
    ensures multiset(r) == multiset(s) + multiset{x}
    ensures forall y :: y in r ==> y == x || y in s
    decreases |s|
  {
    if s == [] || key(x) >= key(s[0]) then
      HeadBoundsSorted(s, x, key);
      ConsSorted(x, s, key);
      [x] + s
    else
      var rest := Insert(x, s[1..], key);
      HeadBoundsSorted(s, s[0], key);
      InsertedBelowHead(x, s, rest, key);
      ConsSorted(s[0], rest, key);
      assert s == [s[0]] + s[1..];
      assert multiset([s[0]] + rest) == multiset{s[0]} + multiset(rest);
      [s[0]] + rest
  }

  /** A key at least that of the head of a sorted list is at least every key in it. */
  lemma HeadBoundsSorted<T>(s: seq<T>, h: T, key: T -> real)
    requires SortedDesc(s, key)
    requires s != [] ==> key(s[0]) <= key(h)
    ensures forall i :: 0 <= i < |s| ==> key(s[i]) <= key(h)
  {
  }

  /** What is left after the head of a sorted list, with `x` inserted below the head,
      has no key above the head's. */
  lemma InsertedBelowHead<T>(x: T, s: seq<T>, rest: seq<T>, key: T -> real)
    requires s != [] && key(x) < key(s[0])
    requires forall i :: 0 <= i < |s| ==> key(s[i]) <= key(s[0])
    requires forall y :: y in rest ==> y == x || y in s[1..]
    ensures forall i :: 0 <= i < |rest| ==> key(rest[i]) <= key(s[0])
  {
    forall i | 0 <= i < |rest|
      ensures key(rest[i]) <= key(s[0])
    {
      assert rest[i] in rest;
      if rest[i] != x {
        var k :| 0 <= k < |s[1..]| && s[1..][k] == rest[i];
        assert s[k + 1] == rest[i];
      }
    }
  }

  /** A sorted list stays sorted under a head whose key is at least every key in it. */
  lemma ConsSorted<T>(h: T, t: seq<T>, key: T -> real)
    requires SortedDesc(t, key)
    requires forall i :: 0 <= i < |t| ==> key(t[i]) <= key(h)
    ensures SortedDesc([h] + t, key)
  {
    var r := [h] + t;
    forall i, j | 0 <= i < j < |r|
      ensures key(r[i]) >= key(r[j])
    {
      assert r[j] == t[j - 1];
      if i > 0 {
        assert r[i] == t[i - 1];
      }
    }
  }

  /**
   * `[...s].sort((a, b) => key(b) - key(a))`: largest key first; JavaScript's sort is
   * stable, and so is this one (an element goes before the equal keys that follow it).
   */
  function SortDesc<T>(s: seq<T>, key: T -> real): (r: seq<T>)
    ensures SortedDesc(r, key)
    ensures multiset(r) == multiset(s)
    decreases |s|
  {
    if s == [] then [] else
      assert s == [s[0]] + s[1..];
      Insert(s[0], SortDesc(s[1..], key), key)
  }

  /** The elements whose key is `k`. */
  function SameKey<T>(key: T -> real, k: real): T -> bool {
    (x: T) => key(x) == k
  }

  /** Inserting puts `x` before every element with the same key. */
  lemma {:induction false} InsertKeepsTies<T(!new)>(x: T, s: seq<T>, key: T -> real, k: real)
    requires SortedDesc(s, key)
    ensures Filter(Insert(x, s, key), SameKey(key, k)) == (if key(x) == k then [x] else []) + Filter(s, SameKey(key, k))
    decreases |s|
  {
    var p := SameKey(key, k);
    if s == [] || key(x) >= key(s[0]) {
      assert Insert(x, s, key) == [x] + s;
      FilterCons(x, s, p);
    } else {
      var rest := Insert(x, s[1..], key);
      InsertKeepsTies(x, s[1..], key, k);
      assert Insert(x, s, key) == [s[0]] + rest;
      FilterCons(s[0], rest, p);
      FilterCons(s[0], s[1..], p);
      assert s == [s[0]] + s[1..];
      TiesBelowHead(x, s[0], key, k, Filter(s[1..], p));
    }
  }

  /** Filtering a list with a head filters the head, then the rest. */
  lemma FilterCons<T(!new)>(h: T, t: seq<T>, p: T -> bool)
    ensures Filter([h] + t, p) == (if p(h) then [h] else []) + Filter(t, p)
  {
    assert ([h] + t)[1..] == t;
  }

  /** `x`, below a head with a larger key, cannot share the head's key. */
  lemma TiesBelowHead<T>(x: T, h: T, key: T -> real, k: real, tail: seq<T>)
    requires key(x) < key(h)
    ensures (if SameKey(key, k)(h) then [h] else []) + ((if SameKey(key, k)(x) then [x] else []) + tail)
         == (if SameKey(key, k)(x) then [x] else []) + ((if SameKey(key, k)(h) then [h] else []) + tail)
  {
  }

  /** The sort is stable: the elements of each key keep their order. */
  lemma {:induction false} SortDescIsStable<T(!new)>(s: seq<T>, key: T -> real, k: real)
    ensures Filter(SortDesc(s, key), SameKey(key, k)) == Filter(s, SameKey(key, k))
    decreases |s|
  {
    if s != [] {
      SortDescIsStable(s[1..], key, k);
      InsertKeepsTies(s[0], SortDesc(s[1..], key), key, k);
    }
  }

  /**
   * `[...s].sort(byKeyDescending).slice(0, k)`: at most `k` entries, largest first,
   * all taken from `s`, and nothing left out has a larger key than any entry kept.
   */
  function TopK<T(!new)>(s: seq<T>, key: T -> real, k: nat): (r: seq<T>)
    ensures |r| == if |s| <= k then |s| else k
    ensures SortedDesc(r, key)
    ensures multiset(r) <= multiset(s)
    ensures forall x, y :: x in multiset(s) - multiset(r) && y in r ==> key(x) <= key(y)
  {
    var sorted := SortDesc(s, key);
    var r := Take(sorted, k);
    PrefixOfSorted(sorted, |r|, key);
    r
  }

  /** A prefix of a list sorted by decreasing key is sorted, is part of the list, and
      every element after it has a key no larger than any element in it. */
  lemma PrefixOfSorted<T>(sorted: seq<T>, n: nat, key: T -> real)
    requires n <= |sorted| && SortedDesc(sorted, key)
    ensures SortedDesc(sorted[..n], key)
    ensures multiset(sorted[..n]) <= multiset(sorted)
    ensures forall x, y :: x in multiset(sorted) - multiset(sorted[..n]) && y in sorted[..n] ==> key(x) <= key(y)
  {
    var r := sorted[..n];
    assert sorted == r + sorted[n..];
    assert multiset(sorted) == multiset(r) + multiset(sorted[n..]);
    forall x, y | x in multiset(sorted) - multiset(r) && y in r
      ensures key(x) <= key(y)
    {
      assert x in multiset(sorted[n..]);
      var i :| n <= i < |sorted| && sorted[i] == x;
      var j :| 0 <= j < n && r[j] == y;
    }
  }

  /** No element occurs twice. */
  predicate NoDuplicates<T(==)>(s: seq<T>) {
    forall i, j :: 0 <= i < j < |s| ==> s[i] != s[j]
  }

  /** `[...new Set(s)]`: each element once, in the order of its first occurrence. */
  function Distinct<T(==,!new)>(s: seq<T>): (r: seq<T>)
    ensures NoDuplicates(r)
    ensures forall x :: x in r <==> x in s
    decreases |s|
  {
    if s == [] then []
    else
      var d := Distinct(s[..|s| - 1]);
      assert s == s[..|s| - 1] + [s[|s| - 1]];
      if s[|s| - 1] in d then d else d + [s[|s| - 1]]
  }

  /** The position of the first occurrence of `x`. */
  function FirstIndex<T(==)>(s: seq<T>, x: T): (i: nat)
    requires x in s
    ensures i < |s| && s[i] == x
    ensures forall j :: 0 <= j < i ==> s[j] != x
    decreases |s|
  {
    if s[0] == x then 0
    else
      var k := FirstIndex(s[1..], x);
      assert forall j :: 0 < j <= k ==> s[j] == s[1..][j - 1];
      1 + k
  }

  /** Lengthening a sequence does not move the first occurrence of what it held. */
  lemma FirstIndexOfPrefix<T>(s: seq<T>, n: nat, x: T)
    requires n <= |s| && x in s[..n]
    ensures FirstIndex(s, x) == FirstIndex(s[..n], x)
  {
    var i := FirstIndex(s[..n], x);
    var k := FirstIndex(s, x);
    assert s[i] == s[..n][i] == x;
    assert k <= i;
    assert s[..n][k] == x;
  }

  /** `Distinct` lists its elements in the order of their first occurrences. */
  lemma {:induction false} DistinctInFirstOrder<T(!new)>(s: seq<T>)
    ensures forall i, j :: 0 <= i < j < |Distinct(s)| ==>
      FirstIndex(s, Distinct(s)[i]) < FirstIndex(s, Distinct(s)[j])
    decreases |s|
  {
    if s != [] {
      var n := |s| - 1;
      var p := s[..n];
      var d := Distinct(p);
      DistinctInFirstOrder(p);
      forall x | x in d
        ensures FirstIndex(s, x) == FirstIndex(p, x) < n
      {
        FirstIndexOfPrefix(s, n, x);
      }
      if s[n] !in d {
        assert s[n] !in p;
        assert FirstIndex(s, s[n]) == n;
      }
    }
  }

  /** How many elements have key `k`. */
  function CountKey<T, K(==)>(s: seq<T>, key: T -> K, k: K): nat
    decreases |s|
  {
    if s == [] then 0 else (if key(s[0]) == k then 1 else 0) + CountKey(s[1..], key, k)
  }

  /** How many times `x` occurs in `ks`. */
  function Occurrences<K(==)>(ks: seq<K>, x: K): nat
    decreases |ks|
  {
    if ks == [] then 0 else (if ks[0] == x then 1 else 0) + Occurrences(ks[1..], x)
  }

  /** The sizes of the groups of `s` with key `ks[0]`, `ks[1]`, ..., added up. */
  function GroupTotal<T, K(==)>(s: seq<T>, key: T -> K, ks: seq<K>): nat
    decreases |ks|
  {
    if ks == [] then 0 else CountKey(s, key, ks[0]) + GroupTotal(s, key, ks[1..])
  }

  /** Counting by key finds the elements a filter by that key keeps. */
  lemma {:induction false} CountKeyIsFilter<T(!new), K>(s: seq<T>, key: T -> K, k: K, p: T -> bool)
    requires forall x :: p(x) == (key(x) == k)
    ensures CountKey(s, key, k) == |Filter(s, p)|
    decreases |s|
  {
    if s != [] {
      CountKeyIsFilter(s[1..], key, k, p);
    }
  }

  lemma {:induction false} NoOccurrences<K>(ks: seq<K>, x: K)
    requires x !in ks
    ensures Occurrences(ks, x) == 0
    decreases |ks|
  {
    if ks != [] {
      NoOccurrences(ks[1..], x);
    }
  }

  lemma {:induction false} OccursOnce<K>(ks: seq<K>, x: K)
    requires NoDuplicates(ks) && x in ks
    ensures Occurrences(ks, x) == 1
    decreases |ks|
  {
    if ks[0] == x {
      assert forall j :: 1 <= j < |ks| ==> ks[j] != x;
      NoOccurrences(ks[1..], x);
    } else {
      OccursOnce(ks[1..], x);
    }
  }

  lemma {:induction false} GroupTotalStep<T, K>(s: seq<T>, key: T -> K, ks: seq<K>)
    requires s != []
    ensures GroupTotal(s, key, ks) == Occurrences(ks, key(s[0])) + GroupTotal(s[1..], key, ks)
    decreases |ks|
  {
    if ks != [] {
      GroupTotalStep(s, key, ks[1..]);
    }
  }

  lemma {:induction false} GroupTotalOfNothing<T, K>(key: T -> K, ks: seq<K>)
    ensures GroupTotal([], key, ks) == 0
    decreases |ks|
  {
    if ks != [] {
      GroupTotalOfNothing(key, ks[1..]);
    }
  }

  /** Grouping by a list of distinct keys that holds every element's key counts every
      element exactly once. */
  lemma {:induction false} GroupsCoverAll<T, K>(s: seq<T>, key: T -> K, ks: seq<K>)
    requires NoDuplicates(ks)
    requires forall i :: 0 <= i < |s| ==> key(s[i]) in ks
    ensures GroupTotal(s, key, ks) == |s|
    decreases |s|
  {
    if s == [] {
      GroupTotalOfNothing(key, ks);
    } else {
      GroupsCoverAll(s[1..], key, ks);
      GroupTotalStep(s, key, ks);
      OccursOnce(ks, key(s[0]));
    }
  }
}
