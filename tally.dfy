/**
 * Grouping by key the way the statistics views do it: `reduce` into a plain object with
 * `acc[k] = (acc[k] || 0) + w`, then read it back with `acc[k] || 0` or list it with
 * `Object.entries`. The object is an association list in insertion order.
 */
module Tally {
  import opened Seqs

  /** An object `{key: amount}` as the list `Object.entries` returns. */
  type Entries<K> = seq<(K, real)>

  function Value<K>(e: (K, real)): real {
    e.1
  }

  /** The sum of all amounts. */
  function Total<K>(t: Entries<K>): real {
    Sum(t, Value)
  }

  function Keys<K>(t: Entries<K>): (ks: seq<K>)
    ensures |ks| == |t|
  {
    seq(|t|, i requires 0 <= i < |t| => t[i].0)
  }

  /** No key is listed twice, as in an object. */
  predicate DistinctKeys<K(==)>(t: Entries<K>) {
    forall i, j :: 0 <= i < j < |t| ==> t[i].0 != t[j].0
  }

  /** Listing the entries backwards keeps their keys distinct. */
  lemma ReversedKeysDistinct<K>(t: Entries<K>)
    requires DistinctKeys(t)
    ensures DistinctKeys(Reverse(t))
  {
    var r := Reverse(t);
    forall i, j | 0 <= i < j < |r|
      ensures r[i].0 != r[j].0
    {
      assert r[i] == t[|r| - 1 - i] && r[j] == t[|r| - 1 - j];
    }
  }

  /** `t[k] || 0`. */
  function Lookup<K(==)>(t: Entries<K>, k: K): real
    decreases |t|
  {
    if t == [] then 0.0 else if t[0].0 == k then t[0].1 else Lookup(t[1..], k)
  }

  /** `t[k] = (t[k] || 0) + w`: an existing key keeps its place, a new one goes last. */
  function Add<K(==)>(t: Entries<K>, k: K, w: real): Entries<K>
    decreases |t|
  {
    if t == [] then [(k, w)]
    else if t[0].0 == k then [(k, t[0].1 + w)] + t[1..]
    else [t[0]] + Add(t[1..], k, w)
  }

  /** Adding to a key changes what that key reads and nothing else, keeps the keys
      distinct, lists exactly one more key at most, and raises the total by `w`. */
  lemma AddFacts<K>(t: Entries<K>, k: K, w: real)
    ensures forall k' :: Lookup(Add(t, k, w), k') == Lookup(t, k') + (if k' == k then w else 0.0)
    ensures forall k' :: k' in Keys(Add(t, k, w)) <==> k' in Keys(t) || k' == k
    ensures DistinctKeys(t) ==> DistinctKeys(Add(t, k, w))
    ensures Total(Add(t, k, w)) == Total(t) + w
  {
    forall k' ensures Lookup(Add(t, k, w), k') == Lookup(t, k') + (if k' == k then w else 0.0) {
      AddLookup(t, k, w, k');
    }
    AddKeys(t, k, w);
    if DistinctKeys(t) {
      AddDistinct(t, k, w);
    }
    AddTotal(t, k, w);
  }

  lemma {:induction false} AddLookup<K>(t: Entries<K>, k: K, w: real, k': K)
    ensures Lookup(Add(t, k, w), k') == Lookup(t, k') + (if k' == k then w else 0.0)
    decreases |t|
  {
    if t != [] && t[0].0 != k {
      AddLookup(t[1..], k, w, k');
      assert Add(t, k, w)[1..] == Add(t[1..], k, w);
    }
  }

  lemma {:induction false} AddKeys<K>(t: Entries<K>, k: K, w: real)
    ensures forall k' :: k' in Keys(Add(t, k, w)) <==> k' in Keys(t) || k' == k
    decreases |t|
  {
    var r := Add(t, k, w);
    if t == [] {
      assert Keys(r) == [k];
    } else if t[0].0 == k {
      assert Keys(r) == Keys(t);
      assert Keys(t)[0] == k;
    } else {
      AddKeys(t[1..], k, w);
      assert r[1..] == Add(t[1..], k, w);
      assert Keys(r) == [t[0].0] + Keys(r[1..]);
      assert Keys(t) == [t[0].0] + Keys(t[1..]);
    }
  }

  lemma {:induction false} AddDistinct<K>(t: Entries<K>, k: K, w: real)
    requires DistinctKeys(t)
    ensures DistinctKeys(Add(t, k, w))
    decreases |t|
  {
    var r := Add(t, k, w);
    if t != [] && t[0].0 != k {
      AddDistinct(t[1..], k, w);
      AddKeys(t[1..], k, w);
      assert r[1..] == Add(t[1..], k, w);
      forall j | 0 < j < |r|
        ensures r[0].0 != r[j].0
      {
        assert Keys(r[1..])[j - 1] == r[j].0;
        assert r[j].0 in Keys(r[1..]);
        if r[j].0 != k {
          assert r[j].0 in Keys(t[1..]);
          var m :| 0 <= m < |t[1..]| && Keys(t[1..])[m] == r[j].0;
          assert t[m + 1].0 == r[j].0;
        }
      }
      forall i, j | 0 <= i < j < |r|
        ensures r[i].0 != r[j].0
      {
        if i > 0 {
          assert r[i] == r[1..][i - 1] && r[j] == r[1..][j - 1];
        }
      }
    } else if t != [] {
      forall i, j | 0 <= i < j < |r|
        ensures r[i].0 != r[j].0
      {
        assert r[j] == t[j];
        if i > 0 {
          assert r[i] == t[i];
        }
      }
    }
  }

  lemma {:induction false} AddTotal<K>(t: Entries<K>, k: K, w: real)
    ensures Total(Add(t, k, w)) == Total(t) + w
    decreases |t|
  {
    var r := Add(t, k, w);
    if t == [] {
      assert r[1..] == [];
    } else if t[0].0 == k {
      assert r[1..] == t[1..];
    } else {
      AddTotal(t[1..], k, w);
      assert r[1..] == Add(t[1..], k, w);
    }
  }

  /** `pairs.reduce((acc, [k, w]) => { acc[k] = (acc[k] || 0) + w; return acc }, {})`. */
  function Tally<K(==)>(pairs: seq<(K, real)>): Entries<K>
    decreases |pairs|
  {
    if pairs == [] then []
    else
      var last := pairs[|pairs| - 1];
      Add(Tally(pairs[..|pairs| - 1]), last.0, last.1)
  }

  /** The reference meaning of a tally: the sum of the amounts paired with `k`. */
  function Weight<K(==)>(pairs: seq<(K, real)>, k: K): real
    decreases |pairs|
  {
    if pairs == [] then 0.0
    else
      var last := pairs[|pairs| - 1];
      Weight(pairs[..|pairs| - 1], k) + (if last.0 == k then last.1 else 0.0)
  }

  /**
   * The tally lists every key that occurs and no other, each once, reads for every key
   * the sum of its amounts, and its amounts add up to the sum of all amounts.
   */
  lemma {:induction false} TallyFacts<K>(pairs: seq<(K, real)>)
    ensures DistinctKeys(Tally(pairs))
    ensures forall k :: k in Keys(Tally(pairs)) <==> k in Keys(pairs)
    ensures forall k :: Lookup(Tally(pairs), k) == Weight(pairs, k)
    ensures Total(Tally(pairs)) == Total(pairs)
    decreases |pairs|
  {
    if pairs != [] {
      var init := pairs[..|pairs| - 1];
      var last := pairs[|pairs| - 1];
      TallyFacts(init);
      AddFacts(Tally(init), last.0, last.1);
      assert pairs == init + [last];
      assert Keys(pairs) == Keys(init) + [last.0];
      SumConcat(init, [last], Value);
    }
  }

  /** In a list without repeated keys, each entry is what its key reads. */
  lemma {:induction false} LookupEntry<K>(t: Entries<K>, i: nat)
    requires DistinctKeys(t)
    requires i < |t|
    ensures Lookup(t, t[i].0) == t[i].1
    decreases i
  {
    if i > 0 {
      LookupEntry(t[1..], i - 1);
    }
  }

  /** A key that is not listed reads 0. */
  lemma {:induction false} LookupAbsent<K>(t: Entries<K>, k: K)
    requires k !in Keys(t)
    ensures Lookup(t, k) == 0.0
    decreases |t|
  {
    if t != [] {
      assert Keys(t) == [t[0].0] + Keys(t[1..]);
      LookupAbsent(t[1..], k);
    }
  }

  /** `items.map(x => [key(x), w(x)])`: the pairs a `reduce` over `items` adds up. */
  function Pairs<T, K>(s: seq<T>, key: T -> K, w: T -> real): (ps: seq<(K, real)>)
    ensures |ps| == |s|
    ensures forall i :: 0 <= i < |s| ==> ps[i] == (key(s[i]), w(s[i]))
  {
    Map(s, (x: T) => (key(x), w(x)))
  }

  /** The elements whose key is `k`. */
  function KeyIs<T, K(==)>(key: T -> K, k: K): T -> bool {
    (x: T) => key(x) == k
  }

  /** What a key's amounts add up to is the sum over the elements with that key. */
  lemma {:induction false} WeightOfPairs<T(!new), K>(s: seq<T>, key: T -> K, w: T -> real, k: K)
    ensures Weight(Pairs(s, key, w), k) == Sum(Filter(s, KeyIs(key, k)), w)
    decreases |s|
  {
    if s != [] {
      var init := s[..|s| - 1];
      var last := s[|s| - 1];
      var ps := Pairs(s, key, w);
      var own := if key(last) == k then w(last) else 0.0;
      WeightOfPairs(init, key, w, k);
      assert ps[..|s| - 1] == Pairs(init, key, w);
      assert Weight(ps, k) == Weight(Pairs(init, key, w), k) + own;
      assert s == init + [last];
      FilterConcat(init, [last], KeyIs(key, k));
      SumConcat(Filter(init, KeyIs(key, k)), Filter([last], KeyIs(key, k)), w);
      assert Sum(Filter([last], KeyIs(key, k)), w) == own by {
        assert [last][1..] == [];
      }
    }
  }

  /** The amounts of the pairs add up to the sum of the weights. */
  lemma {:induction false} TotalOfPairs<T, K>(s: seq<T>, key: T -> K, w: T -> real)
    ensures Total(Pairs(s, key, w)) == Sum(s, w)
    decreases |s|
  {
    if s != [] {
      TotalOfPairs(s[1..], key, w);
      assert Pairs(s, key, w)[1..] == Pairs(s[1..], key, w);
    }
  }

  function One<T>(x: T): real {
    1.0
  }

  /** `reduce((acc, x) => { acc[key(x)] = (acc[key(x)] || 0) + 1; return acc }, {})`. */
  function CountBy<T, K(==)>(s: seq<T>, key: T -> K): Entries<K> {
    Tally(Pairs(s, key, One))
  }

  /**
   * Counting by key lists each key that occurs once and no other, reads for every key
   * the number of elements with that key, and its counts add up to the length of `s`.
   */
  lemma CountByFacts<T(!new), K>(s: seq<T>, key: T -> K)
    ensures DistinctKeys(CountBy(s, key))
    ensures forall k :: k in Keys(CountBy(s, key)) <==> exists x :: x in s && key(x) == k
    ensures forall k :: Lookup(CountBy(s, key), k) == CountKey(s, key, k) as real
    ensures Total(CountBy(s, key)) == |s| as real
  {
    var ps := Pairs(s, key, One);
    OnesAddUp(s, key);
    TallyFacts(ps);
    KeysOfPairs(s, key, One);
    forall k
      ensures Lookup(CountBy(s, key), k) == CountKey(s, key, k) as real
    {
      CountOfKey(s, key, k);
    }
  }

  lemma OnesAddUp<T, K>(s: seq<T>, key: T -> K)
    ensures Total(Pairs(s, key, One)) == |s| as real
  {
    TotalOfPairs(s, key, One);
    SumBounds(s, One, 1.0, 1.0);
  }

  /** The keys of the pairs are the keys of the elements. */
  lemma KeysOfPairs<T, K>(s: seq<T>, key: T -> K, w: T -> real)
    ensures forall k :: k in Keys(Pairs(s, key, w)) <==> exists x :: x in s && key(x) == k
  {
    var ps := Pairs(s, key, w);
    forall k
      ensures k in Keys(ps) <==> exists x :: x in s && key(x) == k
    {
      if k in Keys(ps) {
        var i :| 0 <= i < |ps| && Keys(ps)[i] == k;
        assert s[i] in s && key(s[i]) == k;
      }
      if exists x :: x in s && key(x) == k {
        var x :| x in s && key(x) == k;
        var i :| 0 <= i < |s| && s[i] == x;
        assert Keys(ps)[i] == k;
      }
    }
  }

  /** Counting the ones paired with `k` counts the elements with key `k`. */
  lemma CountOfKey<T(!new), K>(s: seq<T>, key: T -> K, k: K)
    ensures Weight(Pairs(s, key, One), k) == CountKey(s, key, k) as real
  {
    var f := Filter(s, KeyIs(key, k));
    WeightOfPairs(s, key, One, k);
    assert forall x :: x in f ==> One(x) == 1.0;
    SumBounds(f, One, 1.0, 1.0);
    assert Sum(f, One) == |f| as real;
    assert forall x :: KeyIs(key, k)(x) == (key(x) == k);
    CountKeyIsFilter(s, key, k, KeyIs(key, k));
  }

  /** `ks.map(k => [k, t[k] || 0])`: one entry per listed key. */
  function Column<K(==)>(t: Entries<K>, ks: seq<K>): (c: Entries<K>)
    ensures |c| == |ks|
    ensures forall i :: 0 <= i < |ks| ==> c[i] == (ks[i], Lookup(t, ks[i]))
  {
    Map(ks, (k: K) => (k, Lookup(t, k)))
  }

  /** Reading the counts under a list of keys adds up the sizes of those groups. */
  lemma {:induction false} ColumnOfCounts<T(!new), K>(s: seq<T>, key: T -> K, ks: seq<K>)
    ensures Total(Column(CountBy(s, key), ks)) == GroupTotal(s, key, ks) as real
    decreases |ks|
  {
    if ks != [] {
      CountByFacts(s, key);
      ColumnOfCounts(s, key, ks[1..]);
      assert Column(CountBy(s, key), ks)[1..] == Column(CountBy(s, key), ks[1..]);
    }
  }
}
