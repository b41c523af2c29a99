/**
 * A JavaScript `Map` (and, with unit values, a `Set`): a sequence of
 * entries with pairwise distinct keys, kept in insertion order.  `set` on a
 * present key replaces the value in place; on a new key it appends.
 */
module OrderedMap {
  import opened Wrappers

  datatype Entry<K, V> = Entry(key: K, value: V)

  predicate DistinctKeys<K(==), V>(t: seq<Entry<K, V>>) {
    forall i, j :: 0 <= i < j < |t| ==> t[i].key != t[j].key
  }

  predicate HasKey<K(==), V>(t: seq<Entry<K, V>>, k: K) {
    exists i :: 0 <= i < |t| && t[i].key == k
  }

  /** `map.get(k)`. */
  function Get<K(==), V(==)>(t: seq<Entry<K, V>>, k: K): (r: Option<V>)
    ensures r.None? <==> !HasKey(t, k)
    ensures r.Some? ==> exists i :: 0 <= i < |t| && t[i] == Entry(k, r.value)
    ensures DistinctKeys(t) ==> forall i :: 0 <= i < |t| && t[i].key == k ==> r == Some(t[i].value)
  {
    if t == [] then None
    else if t[0].key == k then Some(t[0].value)
    else
      var r := Get(t[1..], k);
      assert r.Some? ==> exists i :: 0 <= i < |t| && t[i] == Entry(k, r.value) by {
        if r.Some? {
          var i :| 0 <= i < |t[1..]| && t[1..][i] == Entry(k, r.value);
          assert t[i + 1] == Entry(k, r.value);
        }
      }
      assert HasKey(t, k) ==> HasKey(t[1..], k) by {
        if HasKey(t, k) {
          var i :| 0 <= i < |t| && t[i].key == k;
          assert t[1..][i - 1].key == k;
        }
      }
      r
  }

  /** `map.set(k, v)`. */
  function Set<K(==), V>(t: seq<Entry<K, V>>, k: K, v: V): (r: seq<Entry<K, V>>)
    ensures HasKey(t, k) ==> |r| == |t| && forall i :: 0 <= i < |t| ==>
      r[i] == if t[i].key == k then Entry(k, v) else t[i]
    ensures !HasKey(t, k) ==> r == t + [Entry(k, v)]
  {
    if HasKey(t, k) then seq(|t|, i requires 0 <= i < |t| => if t[i].key == k then Entry(k, v) else t[i])
    else t + [Entry(k, v)]
  }

  /** `map.delete(k)`: the entries with other keys, in their order. */
  function Delete<K(==), V(==)>(t: seq<Entry<K, V>>, k: K): (r: seq<Entry<K, V>>)
    ensures !HasKey(r, k)
    ensures forall i :: 0 <= i < |r| ==> r[i] in t && r[i].key != k
    ensures forall i :: 0 <= i < |t| && t[i].key != k ==> t[i] in r
    ensures !HasKey(t, k) ==> r == t
    ensures |r| <= |t|
  {
    if t == [] then []
    else
      var rest := Delete(t[1..], k);
      assert !HasKey(t, k) ==> !HasKey(t[1..], k) by {
        if HasKey(t[1..], k) {
          var i :| 0 <= i < |t[1..]| && t[1..][i].key == k;
          assert t[i + 1].key == k;
        }
      }
      if t[0].key == k then rest else [t[0]] + rest
  }

  /** `Array.from(map.values())`. */
  function Values<K, V>(t: seq<Entry<K, V>>): (r: seq<V>)
    ensures |r| == |t| && forall i :: 0 <= i < |t| ==> r[i] == t[i].value
  {
    seq(|t|, i requires 0 <= i < |t| => t[i].value)
  }

  /** The defining properties of a map hold of `Set`: the new key maps to the new value, and no other key changes. */
  lemma {:induction false} GetSet<K, V>(t: seq<Entry<K, V>>, k: K, v: V, k': K)
    requires DistinctKeys(t)
    ensures DistinctKeys(Set(t, k, v))
    ensures Get(Set(t, k, v), k') == if k' == k then Some(v) else Get(t, k')
  {
    var r := Set(t, k, v);
    if HasKey(t, k) {
      forall i, j | 0 <= i < j < |r| ensures r[i].key != r[j].key {
        assert r[i].key == t[i].key && r[j].key == t[j].key;
      }
      if HasKey(t, k') {
        var i :| 0 <= i < |t| && t[i].key == k';
        assert r[i].key == k';
      } else {
        assert !HasKey(r, k') by {
          forall i | 0 <= i < |r| ensures r[i].key != k' { assert r[i].key == t[i].key; }
        }
      }
    } else {
      assert r[|t|] == Entry(k, v);
      if HasKey(t, k') {
        var i :| 0 <= i < |t| && t[i].key == k';
        assert r[i] == t[i];
      } else if k' != k {
        assert !HasKey(r, k') by {
          forall i | 0 <= i < |r| ensures r[i].key != k' { if i < |t| { assert r[i] == t[i]; } }
        }
      }
    }
  }

  /** `Delete` keeps keys distinct, removes `k` and leaves every other key's value as it was. */
  lemma {:induction false} GetDelete<K, V>(t: seq<Entry<K, V>>, k: K, k': K)
    requires DistinctKeys(t)
    ensures DistinctKeys(Delete(t, k))
    ensures Get(Delete(t, k), k') == if k' == k then None else Get(t, k')
  {
    if t != [] {
      assert DistinctKeys(t[1..]) by {
        forall i, j | 0 <= i < j < |t[1..]| ensures t[1..][i].key != t[1..][j].key {
          assert t[1..][i] == t[i + 1] && t[1..][j] == t[j + 1];
        }
      }
      GetDelete(t[1..], k, k');
      var rest := Delete(t[1..], k);
      if t[0].key != k {
        var r := [t[0]] + rest;
        assert r == Delete(t, k);
        forall i, j | 0 <= i < j < |r| ensures r[i].key != r[j].key {
          if i == 0 {
            assert r[j] == rest[j - 1];
            assert r[j] in t[1..];
            var m :| 0 <= m < |t[1..]| && t[1..][m] == r[j];
            assert t[m + 1] == r[j];
          } else {
            assert r[i] == rest[i - 1] && r[j] == rest[j - 1];
          }
        }
        if k' == t[0].key {
          assert Get(r, k') == Some(t[0].value);
        } else {
          assert r[1..] == rest;
        }
      }
    }
  }
}
