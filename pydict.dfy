/** Python's insertion-ordered `dict`: keys in order of first insertion, last write wins. */
module PyDict {
  import opened Wrappers

  datatype Dict<K, V> = Dict(keys: seq<K>, items: map<K, V>)
  {
    predicate Valid() {
      (forall i, j :: 0 <= i < j < |keys| ==> keys[i] != keys[j])
      && (forall i :: 0 <= i < |keys| ==> keys[i] in items)
      && (forall k :: k in items ==> k in keys)
    }

    /** `d.get(k)`. */
    function Get(k: K): Option<V> {
      if k in items then Some(items[k]) else None
    }
  }

  /** In a valid dict every key in `keys` is in `items` (the converse is part of `Valid`). */
  lemma KeyInItems<K, V>(d: Dict<K, V>, k: K)
    requires d.Valid() && k in d.keys
    ensures k in d.items
  {
    var i :| 0 <= i < |d.keys| && d.keys[i] == k;
  }

  function EmptyDict<K, V>(): (d: Dict<K, V>)
    ensures d.Valid() && d.keys == []
  {
    Dict([], map[])
  }

  /** `d[k] = v`: a new key goes last; an existing key keeps its place. */
  function Put<K(==), V>(d: Dict<K, V>, k: K, v: V): (r: Dict<K, V>)
    requires d.Valid()
    ensures r.Valid()
    ensures r.items == d.items[k := v]
    ensures r.keys == if k in d.items then d.keys else d.keys + [k]
  {
    PutValid(d, k, v);
    Dict(if k in d.items then d.keys else d.keys + [k], d.items[k := v])
  }

  lemma PutValid<K, V>(d: Dict<K, V>, k: K, v: V)
    requires d.Valid()
    ensures Dict(if k in d.items then d.keys else d.keys + [k], d.items[k := v]).Valid()
  {
    if k !in d.items {
      PutNewValid(d, k, v);
    }
  }

  lemma PutNewValid<K, V>(d: Dict<K, V>, k: K, v: V)
    requires d.Valid() && k !in d.items
    ensures Dict(d.keys + [k], d.items[k := v]).Valid()
  {
    var r := Dict(d.keys + [k], d.items[k := v]);
    if k in d.keys {
      KeyInItems(d, k);
    }
    DistinctSnoc(d.keys, k);
    forall i | 0 <= i < |r.keys| ensures r.keys[i] in r.items {
      if i < |d.keys| {
        assert r.keys[i] == d.keys[i];
      }
    }
    forall x | x in r.items ensures x in r.keys {
      if x != k {
        var i :| 0 <= i < |d.keys| && d.keys[i] == x;
        assert r.keys[i] == x;
      } else {
        assert r.keys[|d.keys|] == k;
      }
    }
  }

  lemma DistinctSnoc<K>(s: seq<K>, k: K)
    requires forall i, j :: 0 <= i < j < |s| ==> s[i] != s[j]
    requires k !in s
    ensures forall i, j :: 0 <= i < j < |s + [k]| ==> (s + [k])[i] != (s + [k])[j]
  {
  }

  /** The dict built by assigning the pairs in order. */
  function FromPairs<K(==), V>(pairs: seq<(K, V)>): (r: Dict<K, V>)
    ensures r.Valid()
  {
    if pairs == [] then EmptyDict()
    else Put(FromPairs(pairs[..|pairs| - 1]), pairs[|pairs| - 1].0, pairs[|pairs| - 1].1)
  }

  /** Assigning one more pair into `d` after the others. */
  lemma PutAllSnoc<K, V>(d: Dict<K, V>, pairs: seq<(K, V)>, k: K, v: V)
    requires d.Valid()
    ensures PutAll(d, pairs + [(k, v)]) == Put(PutAll(d, pairs), k, v)
  {
    assert (pairs + [(k, v)])[..|pairs|] == pairs;
  }

  /** The value of the last pair whose key is `k`. */
  function LastValue<K(==), V>(pairs: seq<(K, V)>, k: K): Option<V> {
    if pairs == [] then None
    else if pairs[|pairs| - 1].0 == k then Some(pairs[|pairs| - 1].1)
    else LastValue(pairs[..|pairs| - 1], k)
  }

  /**
   * Building a dict from pairs keeps exactly the keys that occur, and a repeated key
   * holds the value of its last pair.
   */
  lemma {:induction false} FromPairsLastWins<K, V>(pairs: seq<(K, V)>, k: K)
    ensures FromPairs(pairs).Get(k) == LastValue(pairs, k)
    ensures k in FromPairs(pairs).keys <==> exists i :: 0 <= i < |pairs| && pairs[i].0 == k
  {
    FromPairsGet(pairs, k);
    if k in FromPairs(pairs).keys {
      KeyInItems(FromPairs(pairs), k);
    }
    LastValueSome(pairs, k);
  }

  lemma {:induction false} FromPairsGet<K, V>(pairs: seq<(K, V)>, k: K)
    ensures FromPairs(pairs).Get(k) == LastValue(pairs, k)
  {
    if pairs != [] {
      FromPairsGet(pairs[..|pairs| - 1], k);
    }
  }

  /** Some pair has key `k` exactly when `LastValue` finds one. */
  lemma {:induction false} LastValueSome<K, V>(pairs: seq<(K, V)>, k: K)
    ensures LastValue(pairs, k).Some? <==> exists i :: 0 <= i < |pairs| && pairs[i].0 == k
  {
    if pairs != [] {
      var pre := pairs[..|pairs| - 1];
      LastValueSome(pre, k);
      if exists i :: 0 <= i < |pre| && pre[i].0 == k {
        var i :| 0 <= i < |pre| && pre[i].0 == k;
        assert pairs[i].0 == k;
      }
      if exists i :: 0 <= i < |pairs| && pairs[i].0 == k {
        var i :| 0 <= i < |pairs| && pairs[i].0 == k;
        if i < |pre| { assert pre[i].0 == k; }
      }
    }
  }

  /** The last pair with a given key decides that key's value. */
  lemma {:induction false} LastValueAt<K, V>(pairs: seq<(K, V)>, i: nat)
    requires i < |pairs| && forall j :: i < j < |pairs| ==> pairs[j].0 != pairs[i].0
    ensures LastValue(pairs, pairs[i].0) == Some(pairs[i].1)
  {
    if i < |pairs| - 1 {
      var pre := pairs[..|pairs| - 1];
      assert pre[i] == pairs[i];
      LastValueAt(pre, i);
    }
  }

  /** Assigning one more pair puts it into the dict built so far. */
  lemma FromPairsSnoc<K, V>(pairs: seq<(K, V)>, k: K, v: V)
    ensures FromPairs(pairs + [(k, v)]) == Put(FromPairs(pairs), k, v)
  {
    assert (pairs + [(k, v)])[..|pairs|] == pairs;
  }

  /** A value `LastValue` finds is that of some pair with the key. */
  lemma {:induction false} LastValueFound<K, V>(pairs: seq<(K, V)>, k: K)
    requires LastValue(pairs, k).Some?
    ensures exists i :: 0 <= i < |pairs| && pairs[i] == (k, LastValue(pairs, k).value)
  {
    var pre := pairs[..|pairs| - 1];
    if pairs[|pairs| - 1].0 != k {
      LastValueFound(pre, k);
      var i :| 0 <= i < |pre| && pre[i] == (k, LastValue(pre, k).value);
      assert pairs[i] == pre[i];
    }
  }

  /** Assigning the pairs in order into `d`. */
  function PutAll<K(==), V>(d: Dict<K, V>, pairs: seq<(K, V)>): (r: Dict<K, V>)
    requires d.Valid()
    ensures r.Valid()
  {
    if pairs == [] then d
    else Put(PutAll(d, pairs[..|pairs| - 1]), pairs[|pairs| - 1].0, pairs[|pairs| - 1].1)
  }

  /**
   * After assigning the pairs, a key holds the value of its last pair, or its old value
   * when no pair has it; the old keys keep their places and the new ones follow.
   */
  lemma {:induction false} PutAllGet<K, V>(d: Dict<K, V>, pairs: seq<(K, V)>, k: K)
    requires d.Valid()
    ensures PutAll(d, pairs).Get(k) == if LastValue(pairs, k).Some? then LastValue(pairs, k) else d.Get(k)
    ensures |PutAll(d, pairs).keys| >= |d.keys| && PutAll(d, pairs).keys[..|d.keys|] == d.keys
  {
    if pairs != [] {
      PutAllGet(d, pairs[..|pairs| - 1], k);
    }
  }

  /** Assigning two runs of pairs one after the other. */
  lemma {:induction false} PutAllAppend<K, V>(d: Dict<K, V>, a: seq<(K, V)>, b: seq<(K, V)>)
    requires d.Valid()
    ensures PutAll(d, a + b) == PutAll(PutAll(d, a), b)
  {
    if b == [] {
      assert a + b == a;
    } else {
      var pre, last := b[..|b| - 1], b[|b| - 1];
      PutAllAppend(d, a, pre);
      SplitLast(a, b);
      PutAllSnoc(d, a + pre, last.0, last.1);
      PutAllSnoc(PutAll(d, a), pre, last.0, last.1);
    }
  }

  lemma SplitLast<T>(a: seq<T>, b: seq<T>)
    requires b != []
    ensures b == b[..|b| - 1] + [b[|b| - 1]]
    ensures a + b == (a + b[..|b| - 1]) + [b[|b| - 1]]
  {
  }

  /** The keys of the pairs, in order. */
  function PairKeys<K, V>(pairs: seq<(K, V)>): (r: seq<K>)
    ensures |r| == |pairs| && forall i :: 0 <= i < |pairs| ==> r[i] == pairs[i].0
  {
    seq(|pairs|, i requires 0 <= i < |pairs| => pairs[i].0)
  }

  lemma PairKeysAppend<K, V>(a: seq<(K, V)>, b: seq<(K, V)>)
    ensures PairKeys(a + b) == PairKeys(a) + PairKeys(b)
  {
    assert forall i :: 0 <= i < |a + b| ==> PairKeys(a + b)[i] == (PairKeys(a) + PairKeys(b))[i];
  }

  lemma PairKeysSnoc<K, V>(ks: seq<K>, pairs: seq<(K, V)>)
    requires pairs != []
    ensures ks + PairKeys(pairs) == ks + PairKeys(pairs[..|pairs| - 1]) + [pairs[|pairs| - 1].0]
  {
  }

  /** Assigning pairs whose keys are new and distinct appends their keys in order. */
  lemma {:induction false} PutAllFreshKeys<K, V>(d: Dict<K, V>, pairs: seq<(K, V)>)
    requires d.Valid()
    requires forall i :: 0 <= i < |pairs| ==> pairs[i].0 !in d.items
    requires forall i, j :: 0 <= i < j < |pairs| ==> pairs[i].0 != pairs[j].0
    ensures PutAll(d, pairs).keys == d.keys + PairKeys(pairs)
  {
    if pairs != [] {
      var pre, last := pairs[..|pairs| - 1], pairs[|pairs| - 1];
      PutAllFreshKeys(d, pre);
      forall i | 0 <= i < |pre| ensures pre[i].0 != last.0 {
        assert pre[i] == pairs[i];
      }
      PutAllFreshItems(d, pre, last.0);
      assert PutAll(d, pairs) == Put(PutAll(d, pre), last.0, last.1);
      PairKeysSnoc(d.keys, pairs);
    }
  }

  /** A key that is neither in `d` nor among the pairs' keys is not in `PutAll(d, pairs)`. */
  lemma {:induction false} PutAllFreshItems<K, V>(d: Dict<K, V>, pairs: seq<(K, V)>, k: K)
    requires d.Valid() && k !in d.items && forall i :: 0 <= i < |pairs| ==> pairs[i].0 != k
    ensures k !in PutAll(d, pairs).items
  {
    if pairs != [] {
      PutAllFreshItems(d, pairs[..|pairs| - 1], k);
    }
  }

  /** The last pair with a key in `a + b` is `b`'s when `b` has one, else `a`'s. */
  lemma {:induction false} LastValueAppend<K, V>(a: seq<(K, V)>, b: seq<(K, V)>, k: K)
    ensures LastValue(a + b, k) == if LastValue(b, k).Some? then LastValue(b, k) else LastValue(a, k)
  {
    if b != [] {
      assert (a + b)[..|a + b| - 1] == a + b[..|b| - 1];
      LastValueAppend(a, b[..|b| - 1], k);
    } else {
      assert a + b == a;
    }
  }

  /** The same keys, in the same order, with other values. */
  lemma SameKeysValid<K, V, W>(d: Dict<K, V>, m: map<K, W>)
    requires d.Valid() && m.Keys == d.items.Keys
    ensures Dict(d.keys, m).Valid()
  {
    assert forall k :: k in m <==> k in d.items;
  }

  /** `d[k] = v` for a key already present: the keys and their order stay as they are. */
  function Replace<K(==), V>(d: Dict<K, V>, k: K, v: V): (r: Dict<K, V>)
    requires d.Valid() && k in d.items
    ensures r.Valid() && r.keys == d.keys && r.items == d.items[k := v]
  {
    Dict(d.keys, d.items[k := v])
  }
}

