/** Python dictionaries, which keep their keys in insertion order, modelled as
    association lists. `Put` is `d[k] = v` (an existing key keeps its position,
    a new key goes last) and `Update` is `d.update(e)`. */
module Dicts {
  import opened Wrappers

  type Dict<K, V> = seq<(K, V)>

  function Keys<K, V>(d: Dict<K, V>): (ks: seq<K>)
    ensures |ks| == |d|
    ensures forall i :: 0 <= i < |d| ==> ks[i] == d[i].0
  {
    seq(|d|, i requires 0 <= i < |d| => d[i].0)
  }

  function Values<K, V>(d: Dict<K, V>): (vs: seq<V>)
    ensures |vs| == |d|
    ensures forall i :: 0 <= i < |d| ==> vs[i] == d[i].1
  {
    seq(|d|, i requires 0 <= i < |d| => d[i].1)
  }

  /** A Python dict never holds the same key twice. */
  predicate UniqueKeys<K(==), V>(d: Dict<K, V>) {
    forall i, j :: 0 <= i < j < |d| ==> d[i].0 != d[j].0
  }

  /** The keys of a non-empty dict: its first key, then the keys of the rest. */
  lemma KeysCons<K, V>(d: Dict<K, V>)
    requires d != []
    ensures Keys(d) == [d[0].0] + Keys(d[1..])
  {
    assert forall i :: 0 < i < |d| ==> d[1..][i - 1] == d[i];
  }

  /** Dropping the last entries keeps the keys distinct. */
  lemma UniqueKeysPrefix<K, V>(d: Dict<K, V>, n: nat)
    requires UniqueKeys(d) && n <= |d|
    ensures UniqueKeys(d[..n])
  {
    forall i, j | 0 <= i < j < n ensures d[..n][i].0 != d[..n][j].0 {
      assert d[..n][i] == d[i] && d[..n][j] == d[j];
    }
  }

  /** `d.get(k)`: the value bound to `k`, if any. */
  function Get<K(==), V>(d: Dict<K, V>, k: K): (r: Option<V>)
    ensures r.None? <==> k !in Keys(d)
    ensures r.Some? ==> (k, r.value) in d
  {
    if d == [] then None
    else if d[0].0 == k then Some(d[0].1)
    else Get(d[1..], k)
  }

  /** `d.get(k, default)`. */
  function GetOr<K(==), V>(d: Dict<K, V>, k: K, default: V): (r: V)
    ensures k !in Keys(d) ==> r == default
    ensures k in Keys(d) ==> Get(d, k) == Some(r)
  {
    Get(d, k).GetOr(default)
  }

  /** `d[k] = v`. */
  function Put<K(==), V>(d: Dict<K, V>, k: K, v: V): (r: Dict<K, V>)
    ensures Keys(r) == if k in Keys(d) then Keys(d) else Keys(d) + [k]
  {
    if d == [] then [(k, v)]
    else if d[0].0 == k then [(k, v)] + d[1..]
    else [d[0]] + Put(d[1..], k, v)
  }

  /** After `d[k] = v`, `k` holds `v` and every other key is untouched. */
  lemma {:induction false} PutGet<K, V>(d: Dict<K, V>, k: K, v: V, j: K)
    ensures Get(Put(d, k, v), j) == if j == k then Some(v) else Get(d, j)
  {
    if d != [] && d[0].0 != k {
      PutGet(d[1..], k, v, j);
    }
  }

  /** Writing a key the dictionary lacks appends it after every existing entry. */
  lemma {:induction false} PutAbsent<K, V>(d: Dict<K, V>, k: K, v: V)
    requires k !in Keys(d)
    ensures Put(d, k, v) == d + [(k, v)]
  {
    if d != [] {
      assert Keys(d)[0] == d[0].0;
      assert k !in Keys(d[1..]) by {
        forall i | 0 <= i < |d[1..]| ensures Keys(d[1..])[i] != k {
          assert Keys(d[1..])[i] == Keys(d)[i + 1];
        }
      }
      PutAbsent(d[1..], k, v);
      assert [d[0]] + (d[1..] + [(k, v)]) == d + [(k, v)];
    }
  }

  lemma {:induction false} PutKeepsKeysUnique<K(!new), V>(d: Dict<K, V>, k: K, v: V)
    requires UniqueKeys(d)
    ensures UniqueKeys(Put(d, k, v))
  {
    var r := Put(d, k, v);
    forall i, j | 0 <= i < j < |r| ensures r[i].0 != r[j].0 {
      assert Keys(r)[i] == r[i].0 && Keys(r)[j] == r[j].0;
      if k !in Keys(d) {
        if j == |d| {
          assert Keys(d)[i] == r[i].0;
        } else {
          assert Keys(d)[i] == r[i].0 && Keys(d)[j] == r[j].0;
        }
      } else {
        assert Keys(d)[i] == r[i].0 && Keys(d)[j] == r[j].0;
      }
    }
  }

  /** `d.update(e)`: the entries of `e`, in order, written over `d`. */
  function Update<K(==), V>(d: Dict<K, V>, e: Dict<K, V>): Dict<K, V>
    decreases |e|
  {
    if e == [] then d else Update(Put(d, e[0].0, e[0].1), e[1..])
  }

  /** After `d.update(e)` a key holds `e`'s value if `e` has it and keeps its
      old value (or stays absent) otherwise. */
  lemma {:induction false} UpdateGet<K(!new), V>(d: Dict<K, V>, e: Dict<K, V>, k: K)
    requires UniqueKeys(e)
    ensures Get(Update(d, e), k) == if k in Keys(e) then Get(e, k) else Get(d, k)
    decreases |e|
  {
    if e != [] {
      var d' := Put(d, e[0].0, e[0].1);
      assert UniqueKeys(e[1..]);
      UpdateGet(d', e[1..], k);
      PutGet(d, e[0].0, e[0].1, k);
      KeysCons(e);
      if k == e[0].0 {
        assert k !in Keys(e[1..]) by {
          forall i | 0 <= i < |e[1..]| ensures Keys(e[1..])[i] != k {
            assert e[1..][i] == e[i + 1];
          }
        }
      }
    }
  }

  lemma {:induction false} UpdateKeepsKeysUnique<K(!new), V>(d: Dict<K, V>, e: Dict<K, V>)
    requires UniqueKeys(d)
    ensures UniqueKeys(Update(d, e))
    decreases |e|
  {
    if e != [] {
      PutKeepsKeysUnique(d, e[0].0, e[0].1);
      UpdateKeepsKeysUnique(Put(d, e[0].0, e[0].1), e[1..]);
    }
  }

  /** Every key of `d` is still there after an update. */
  lemma {:induction false} UpdateKeepsKeys<K(!new), V>(d: Dict<K, V>, e: Dict<K, V>, k: K)
    requires k in Keys(d) || k in Keys(e)
    ensures k in Keys(Update(d, e))
    decreases |e|
  {
    if e != [] {
      var d' := Put(d, e[0].0, e[0].1);
      KeysCons(e);
      UpdateKeepsKeys(d', e[1..], k);
    }
  }

  /** Writing a binding a dict already has leaves it as it is. */
  lemma {:induction false} PutPresent<K, V>(d: Dict<K, V>, k: K, v: V)
    requires Get(d, k) == Some(v)
    ensures Put(d, k, v) == d
  {
    assert d == [d[0]] + d[1..];
    if d[0].0 != k {
      PutPresent(d[1..], k, v);
    }
  }

  /** `d.update(e)` twice is `d.update(e)` once. */
  lemma {:induction false} UpdateIdempotent<K(!new), V>(d: Dict<K, V>, e: Dict<K, V>)
    requires UniqueKeys(e)
    ensures Update(Update(d, e), e) == Update(d, e)
  {
    var u := Update(d, e);
    forall k | k in Keys(e) ensures Get(u, k) == Get(e, k) {
      UpdateGet(d, e, k);
    }
    UpdateAbsorbs(u, e);
  }

  /** Updating with bindings a dict already has leaves it as it is. */
  lemma {:induction false} UpdateAbsorbs<K(!new), V>(u: Dict<K, V>, e: Dict<K, V>)
    requires UniqueKeys(e)
    requires forall k :: k in Keys(e) ==> Get(u, k) == Get(e, k)
    ensures Update(u, e) == u
    decreases |e|
  {
    if e != [] {
      assert Keys(e)[0] == e[0].0;
      assert Get(e, e[0].0) == Some(e[0].1);
      PutPresent(u, e[0].0, e[0].1);
      forall k | k in Keys(e[1..]) ensures Get(u, k) == Get(e[1..], k) {
        var i :| 0 <= i < |e[1..]| && Keys(e[1..])[i] == k;
        assert e[i + 1].0 == k && Keys(e)[i + 1] == k;
        assert k != e[0].0;
      }
      UpdateAbsorbs(u, e[1..]);
    }
  }
}
