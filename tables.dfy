/**
 * Semantics of a constant `std::map<Key, V>` built from an initializer list.
 *
 * A table is kept as a list of its (key, value) rows. `std::map`'s
 * initializer-list constructor inserts the rows one by one and an insert never
 * overwrites, so the FIRST row with a given key is the one the map keeps and
 * later rows with the same key are silently dropped. `Lookup` and `ToMap`
 * state that policy; `DistinctKeys` is the well-formedness condition under
 * which nothing is dropped.
 */
module Tables {

  datatype Option<T> = None | Some(value: T)

  /** The keys of the rows, in the order they are listed. */
  function KeysOf<K, V>(t: seq<(K, V)>): seq<K>
  {
    if t == [] then [] else [t[0].0] + KeysOf(t[1..])
  }

  /** No key occurs in two rows. */
  ghost predicate DistinctKeys<K, V>(t: seq<(K, V)>)
  {
    forall i, j :: 0 <= i < j < |t| ==> t[i].0 != t[j].0
  }

  lemma {:induction false} KeysOfIndex<K, V>(t: seq<(K, V)>)
    ensures |KeysOf(t)| == |t|
    ensures forall i :: 0 <= i < |t| ==> KeysOf(t)[i] == t[i].0
  {
    if t != [] {
      KeysOfIndex(t[1..]);
    }
  }

  /**
   * Exact-key lookup with the initializer-list policy: the value of the first
   * row whose key is `k`, or `None` when no row carries `k`.
   */
  function Lookup<K(==), V>(t: seq<(K, V)>, k: K): (r: Option<V>)
    ensures r.None? <==> (forall i :: 0 <= i < |t| ==> t[i].0 != k)
    ensures r.Some? ==> (k, r.value) in t
    ensures forall i :: 0 <= i < |t| && t[i].0 == k && (forall j :: 0 <= j < i ==> t[j].0 != k) ==> r == Some(t[i].1)
  {
    if t == [] then None
    else if t[0].0 == k then Some(t[0].1)
    else
      var r := Lookup(t[1..], k);
      assert forall i :: 1 <= i < |t| ==> t[1..][i - 1] == t[i];
      r
  }

  /** The `std::map` the initializer list builds. */
  function ToMap<K(==, !new), V>(t: seq<(K, V)>): (m: map<K, V>)
    ensures forall k :: k in m <==> Lookup(t, k).Some?
    ensures forall k :: k in m ==> m[k] == Lookup(t, k).value
  {
    if t == [] then map[]
    else
      var rest := ToMap(t[1..]);
      assert forall k :: Lookup(t, k) == if t[0].0 == k then Some(t[0].1) else Lookup(t[1..], k);
      rest[t[0].0 := t[0].1]
  }

  /** Under distinct keys every row is found again by its own key. */
  lemma LookupRow<K(!new), V>(t: seq<(K, V)>, r: (K, V))
    requires DistinctKeys(t)
    requires r in t
    ensures Lookup(t, r.0) == Some(r.1)
    ensures r.0 in ToMap(t) && ToMap(t)[r.0] == r.1
  {
    var i :| 0 <= i < |t| && t[i] == r;
    assert forall j :: 0 <= j < i ==> t[j].0 != r.0;
  }

  /** A key no row carries is absent from the map. */
  lemma LookupAbsent<K(!new), V>(t: seq<(K, V)>, k: K)
    requires k !in KeysOf(t)
    ensures Lookup(t, k) == None
    ensures k !in ToMap(t)
  {
    KeysOfIndex(t);
    assert forall i :: 0 <= i < |t| ==> t[i].0 == KeysOf(t)[i];
  }

  /** The map `m` holds every row of `t` under that row's key. */
  ghost predicate MapHolds<K, V>(t: seq<(K, V)>, m: map<K, V>)
  {
    forall r :: r in t ==> r.0 in m && m[r.0] == r.1
  }

  /** The map built from a table with distinct keys holds each of its rows. */
  lemma RowsToMap<K(!new), V>(t: seq<(K, V)>)
    requires DistinctKeys(t)
    ensures MapHolds(t, ToMap(t))
  {
    forall r | r in t
      ensures r.0 in ToMap(t) && ToMap(t)[r.0] == r.1
    {
      LookupRow(t, r);
    }
  }

  /** Distinct keys split into a first row whose key is new and a distinct rest. */
  lemma DistinctKeysCons<K, V>(t: seq<(K, V)>)
    requires t != []
    ensures DistinctKeys(t) <==> DistinctKeys(t[1..]) && t[0].0 !in KeysOf(t[1..])
  {
    var rest := t[1..];
    KeysOfIndex(rest);
    if DistinctKeys(rest) && t[0].0 !in KeysOf(rest) {
      forall i, j | 0 <= i < j < |t|
        ensures t[i].0 != t[j].0
      {
        assert t[j] == rest[j - 1];
        if i > 0 {
          assert t[i] == rest[i - 1];
        } else {
          assert KeysOf(rest)[j - 1] == t[j].0;
        }
      }
    }
    if DistinctKeys(t) {
      forall i, j | 0 <= i < j < |rest|
        ensures rest[i].0 != rest[j].0
      {
        assert rest[i] == t[i + 1] && rest[j] == t[j + 1];
      }
      forall i | 0 <= i < |rest|
        ensures KeysOf(rest)[i] != t[0].0
      {
        assert rest[i] == t[i + 1];
      }
    }
  }

  lemma MapUpdateSize<K, V>(m: map<K, V>, k: K, v: V)
    ensures k in m ==> |m[k := v]| == |m|
    ensures k !in m ==> |m[k := v]| == |m| + 1
  {
    if k in m {
      assert m[k := v].Keys == m.Keys;
    } else {
      assert m[k := v].Keys == m.Keys + {k};
    }
  }

  /**
   * The map keeps one entry per row exactly when the keys are distinct: a
   * duplicate key in the initializer list always shrinks the map.
   */
  lemma {:induction false} MapSizeIffDistinct<K(!new), V>(t: seq<(K, V)>)
    ensures |ToMap(t)| <= |t|
    ensures |ToMap(t)| == |t| <==> DistinctKeys(t)
  {
    if t != [] {
      var rest := t[1..];
      MapSizeIffDistinct(rest);
      DistinctKeysCons(t);
      var k := t[0].0;
      var m := ToMap(rest);
      MapUpdateSize(m, k, t[0].1);
      KeysOfIndex(rest);
      if k in m {
        var i :| 0 <= i < |rest| && rest[i].0 == k;
        assert KeysOf(rest)[i] == k;
      } else {
        assert forall i :: 0 <= i < |rest| ==> KeysOf(rest)[i] != k;
      }
    }
  }
}
