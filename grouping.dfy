/**
 * The grouping loop the application writes several times: walk a list,
 * skip the elements a test rejects, create a key's list the first time the
 * key is met, and push each kept element onto its key's list.  The groups
 * are an insertion-ordered map (`OrderedMap`).
 */
module Grouping {
  import opened Wrappers
  import opened OrderedMap
  import Lists
  import Sorting

  type Groups<K, T> = seq<Entry<K, seq<T>>>

  /** The elements that go under key `k`. */
  function Under<K(==), T>(keep: T -> bool, key: T -> K, k: K): T -> bool {
    (x: T) => keep(x) && key(x) == k
  }

  /** One step of the loop: create the key's list if it is missing, then push the element. */
  function Push<K(==), T(==)>(groups: Groups<K, T>, k: K, x: T): Groups<K, T> {
    var current := Get(groups, k);
    Set(groups, k, (if current.Some? then current.value else []) + [x])
  }

  /** The groups after the loop has seen every element of `items`. */
  function Grouped<K(==), T(==)>(items: seq<T>, keep: T -> bool, key: T -> K): Groups<K, T> {
    if items == [] then []
    else
      var prev := Grouped(items[..|items| - 1], keep, key);
      var x := items[|items| - 1];
      if keep(x) then Push(prev, key(x), x) else prev
  }

  /** The loop itself. */
  method GroupBy<K(==), T(==)>(items: seq<T>, keep: T -> bool, key: T -> K) returns (groups: Groups<K, T>)
    ensures groups == Grouped(items, keep, key)
    ensures DistinctKeys(groups)
    ensures forall k :: (Get(groups, k) ==
      if Lists.Filter(items, Under(keep, key, k)) == [] then None else Some(Lists.Filter(items, Under(keep, key, k))))
  {
    groups := [];
    for i := 0 to |items|
      invariant groups == Grouped(items[..i], keep, key)
    {
      assert items[..i + 1][..i] == items[..i];
      if keep(items[i]) {
        groups := Push(groups, key(items[i]), items[i]);
      }
    }
    assert items[..|items|] == items;
    forall k ensures Get(groups, k) ==
      (if Lists.Filter(items, Under(keep, key, k)) == [] then None else Some(Lists.Filter(items, Under(keep, key, k))))
    {
      GroupedSpec(items, keep, key, k);
    }
    if items != [] {
      GroupedSpec(items, keep, key, key(items[0]));
    }
  }

  /**
   * The groups are a map: no key twice, and key `k` holds exactly the kept
   * elements with that key, in input order; a key with none has no group.
   */
  lemma {:induction false} GroupedSpec<K, T>(items: seq<T>, keep: T -> bool, key: T -> K, k: K)
    ensures DistinctKeys(Grouped(items, keep, key))
    ensures Get(Grouped(items, keep, key), k) ==
      (if Lists.Filter(items, Under(keep, key, k)) == [] then None else Some(Lists.Filter(items, Under(keep, key, k))))
  {
    if items != [] {
      var init, x := items[..|items| - 1], items[|items| - 1];
      assert items == init + [x];
      GroupedSpec(init, keep, key, k);
      var prev := Grouped(init, keep, key);
      var before := Lists.Filter(init, Under(keep, key, k));
      FilterSnoc(init, x, Under(keep, key, k));
      if keep(x) {
        GroupedSpec(init, keep, key, key(x));
        var current := Get(prev, key(x));
        GetSet(prev, key(x), (if current.Some? then current.value else []) + [x], k);
        if key(x) == k {
          assert Lists.Filter(items, Under(keep, key, k)) == before + [x];
        } else {
          assert Lists.Filter(items, Under(keep, key, k)) == before;
        }
      } else {
        assert Lists.Filter(items, Under(keep, key, k)) == before;
      }
    }
  }

  lemma FilterSnoc<T>(s: seq<T>, x: T, p: T -> bool)
    ensures Lists.Filter(s + [x], p) == Lists.Filter(s, p) + (if p(x) then [x] else [])
  {
    Lists.FilterAppend(s, [x], p);
    assert [x][1..] == [];
  }

  /** The keys, in the order the groups are read back. */
  function Keys<K, T>(groups: Groups<K, T>): (r: seq<K>)
    ensures |r| == |groups| && forall i :: 0 <= i < |groups| ==> r[i] == groups[i].key
  {
    seq(|groups|, i requires 0 <= i < |groups| => groups[i].key)
  }

  /** The key of each kept element, in input order. */
  function KeptKeys<K, T>(items: seq<T>, keep: T -> bool, key: T -> K): seq<K> {
    if items == [] then []
    else
      var rest := KeptKeys(items[..|items| - 1], keep, key);
      var x := items[|items| - 1];
      if keep(x) then rest + [key(x)] else rest
  }

  /** The first occurrence of each value, in order. */
  function FirstOccurrences<K(==)>(s: seq<K>): seq<K> {
    if s == [] then []
    else
      var rest := FirstOccurrences(s[..|s| - 1]);
      if s[|s| - 1] in rest then rest else rest + [s[|s| - 1]]
  }

  /** Every value occurs once in `FirstOccurrences`, and only values of the input do. */
  lemma {:induction false} FirstOccurrencesMembers<K>(s: seq<K>)
    ensures forall x :: x in FirstOccurrences(s) <==> x in s
    ensures forall i, j :: 0 <= i < j < |FirstOccurrences(s)| ==> FirstOccurrences(s)[i] != FirstOccurrences(s)[j]
  {
    if s != [] {
      assert s == s[..|s| - 1] + [s[|s| - 1]];
      FirstOccurrencesMembers(s[..|s| - 1]);
    }
  }

  /** Groups appear in the order of their first kept element. */
  lemma {:induction false} KeysInFirstAppearanceOrder<K, T>(items: seq<T>, keep: T -> bool, key: T -> K)
    ensures Keys(Grouped(items, keep, key)) == FirstOccurrences(KeptKeys(items, keep, key))
  {
    if items != [] {
      var init, x := items[..|items| - 1], items[|items| - 1];
      KeysInFirstAppearanceOrder(init, keep, key);
      var prev := Grouped(init, keep, key);
      if keep(x) {
        var k := key(x);
        var kk := KeptKeys(items, keep, key);
        assert kk[..|kk| - 1] == KeptKeys(init, keep, key);
        var current := Get(prev, k);
        var next := Set(prev, k, (if current.Some? then current.value else []) + [x]);
        assert HasKey(prev, k) <==> k in Keys(prev) by {
          if k in Keys(prev) {
            var i :| 0 <= i < |prev| && Keys(prev)[i] == k;
            assert prev[i].key == k;
          }
        }
        if HasKey(prev, k) {
          assert Keys(next) == Keys(prev);
        } else {
          assert Keys(next) == Keys(prev) + [k];
        }
      }
    }
  }

  /** A group of a list sorted by `le` is itself sorted by `le`: grouping keeps the order inside each group. */
  lemma GroupsKeepOrder<K, T>(items: seq<T>, keep: T -> bool, key: T -> K, k: K, le: (T, T) -> bool)
    requires Sorting.SortedBy(items, le)
    requires Get(Grouped(items, keep, key), k).Some?
    ensures Sorting.SortedBy(Get(Grouped(items, keep, key), k).value, le)
  {
    GroupedSpec(items, keep, key, k);
    FilterSorted(items, Under(keep, key, k), le);
  }

  /** Filtering keeps a sorted list sorted. */
  lemma {:induction false} FilterSorted<T>(s: seq<T>, p: T -> bool, le: (T, T) -> bool)
    requires Sorting.SortedBy(s, le)
    ensures Sorting.SortedBy(Lists.Filter(s, p), le)
  {
    if s != [] {
      var tail := s[1..];
      assert Sorting.SortedBy(tail, le) by {
        forall i, j | 0 <= i < j < |tail| ensures le(tail[i], tail[j]) {
          assert tail[i] == s[i + 1] && tail[j] == s[j + 1];
        }
      }
      FilterSorted(tail, p, le);
      var rest := Lists.Filter(tail, p);
      if p(s[0]) {
        var r := [s[0]] + rest;
        assert Lists.Filter(s, p) == r;
        forall j | 0 <= j < |rest| ensures le(s[0], rest[j]) {
          assert rest[j] in multiset(rest);
          assert rest[j] in tail;
          var m :| 0 <= m < |tail| && tail[m] == rest[j];
          assert s[m + 1] == rest[j];
        }
        forall i, j | 0 <= i < j < |r| ensures le(r[i], r[j]) {
          if i == 0 { assert r[j] == rest[j - 1]; }
          else { assert r[i] == rest[i - 1] && r[j] == rest[j - 1]; }
        }
      } else {
        assert Lists.Filter(s, p) == rest;
      }
    }
  }
}
