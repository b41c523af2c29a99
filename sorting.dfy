/**
 * `Array.prototype.sort` with a comparator: JavaScript's sort is stable,
 * and `cmp(a, b) <= 0` is read as `le(a, b)`.  The model is a stable
 * insertion sort; for a comparator that is a total preorder its result is
 * sorted and a permutation of the input.
 */
module Sorting {

  ghost predicate TotalPreorder<T(!new)>(le: (T, T) -> bool) {
    (forall a, b :: le(a, b) || le(b, a))
    && (forall a, b, c :: le(a, b) && le(b, c) ==> le(a, c))
  }

  predicate SortedBy<T>(s: seq<T>, le: (T, T) -> bool) {
    forall i, j :: 0 <= i < j < |s| ==> le(s[i], s[j])
  }

  /** Inserts `x` after every element that is not strictly greater than it. */
  function Insert<T>(x: T, s: seq<T>, le: (T, T) -> bool): (r: seq<T>)
    ensures multiset(r) == multiset(s) + multiset{x}
    ensures |r| == |s| + 1
  {
    if s == [] then [x]
    else if le(x, s[0]) && !le(s[0], x) then [x] + s
    else
      assert s == [s[0]] + s[1..];
      [s[0]] + Insert(x, s[1..], le)
  }

  /** The stable sort: each element in turn is inserted after its equals. */
  function SortBy<T>(s: seq<T>, le: (T, T) -> bool): (r: seq<T>)
    ensures multiset(r) == multiset(s)
    ensures |r| == |s|
  {
    if s == [] then []
    else
      assert s == s[..|s| - 1] + [s[|s| - 1]];
      Insert(s[|s| - 1], SortBy(s[..|s| - 1], le), le)
  }

  /** `le` is total and transitive on the values `dom` admits. */
  ghost predicate PreorderOn<T(!new)>(le: (T, T) -> bool, dom: T -> bool) {
    (forall a, b :: dom(a) && dom(b) ==> le(a, b) || le(b, a))
    && (forall a, b, c :: dom(a) && dom(b) && dom(c) && le(a, b) && le(b, c) ==> le(a, c))
  }

  lemma {:induction false} InsertSorted<T(!new)>(x: T, s: seq<T>, le: (T, T) -> bool, dom: T -> bool)
    requires PreorderOn(le, dom) && dom(x) && forall k :: 0 <= k < |s| ==> dom(s[k])
    requires SortedBy(s, le)
    ensures SortedBy(Insert(x, s, le), le)
  {
    if s != [] && !(le(x, s[0]) && !le(s[0], x)) {
      var tail := s[1..];
      SortedTail(s, le);
      assert forall k :: 0 <= k < |tail| ==> dom(tail[k]) by {
        assert forall k :: 0 <= k < |tail| ==> tail[k] == s[k + 1];
      }
      InsertSorted(x, tail, le, dom);
      assert le(s[0], x);
      InsertAboveHead(x, s, le, dom);
      SortedCons(s[0], Insert(x, tail, le), le);
    } else if s != [] {
      forall k | 0 <= k < |s| ensures le(x, s[k]) {
        if k > 0 {
          assert le(s[0], s[k]);
        }
      }
      SortedCons(x, s, le);
    }
  }

  lemma SortedTail<T>(s: seq<T>, le: (T, T) -> bool)
    requires s != [] && SortedBy(s, le)
    ensures SortedBy(s[1..], le)
  {
    var tail := s[1..];
    forall i, j | 0 <= i < j < |tail| ensures le(tail[i], tail[j]) {
      assert tail[i] == s[i + 1] && tail[j] == s[j + 1];
    }
  }

  /** A sorted list stays sorted with an element in front that may come before all of it. */
  lemma SortedCons<T>(h: T, rest: seq<T>, le: (T, T) -> bool)
    requires SortedBy(rest, le) && forall k :: 0 <= k < |rest| ==> le(h, rest[k])
    ensures SortedBy([h] + rest, le)
  {
    var r := [h] + rest;
    forall i, j | 0 <= i < j < |r| ensures le(r[i], r[j]) {
      if i == 0 {
        assert r[j] == rest[j - 1];
      } else {
        assert r[i] == rest[i - 1] && r[j] == rest[j - 1];
      }
    }
  }

  /** Inserting into the tail an element the head may precede keeps the head before everything. */
  lemma InsertAboveHead<T(!new)>(x: T, s: seq<T>, le: (T, T) -> bool, dom: T -> bool)
    requires PreorderOn(le, dom) && dom(x) && forall k :: 0 <= k < |s| ==> dom(s[k])
    requires s != [] && SortedBy(s, le) && le(s[0], x)
    ensures forall k :: 0 <= k < |Insert(x, s[1..], le)| ==> le(s[0], Insert(x, s[1..], le)[k])
  {
    var tail := s[1..];
    var rest := Insert(x, tail, le);
    forall k | 0 <= k < |rest| ensures le(s[0], rest[k]) {
      assert rest[k] in multiset(rest);
      assert rest[k] in multiset(tail) + multiset{x};
      if rest[k] != x {
        assert rest[k] in tail;
        var m :| 0 <= m < |tail| && tail[m] == rest[k];
        assert s[m + 1] == rest[k];
      }
    }
  }

  /** For a comparator that is a preorder on the elements, the stable sort yields a sorted permutation. */
  lemma {:induction false} SortBySorted<T(!new)>(s: seq<T>, le: (T, T) -> bool, dom: T -> bool)
    requires PreorderOn(le, dom) && forall k :: 0 <= k < |s| ==> dom(s[k])
    ensures SortedBy(SortBy(s, le), le)
  {
    if s != [] {
      var init := s[..|s| - 1];
      assert forall k :: 0 <= k < |init| ==> init[k] == s[k];
      SortBySorted(init, le, dom);
      var sorted := SortBy(init, le);
      forall k | 0 <= k < |sorted| ensures dom(sorted[k]) {
        assert sorted[k] in multiset(sorted);
        assert sorted[k] in init;
      }
      InsertSorted(s[|s| - 1], sorted, le, dom);
    }
  }

  /** Under a total preorder every input sorts. */
  lemma SortByTotalSorted<T(!new)>(s: seq<T>, le: (T, T) -> bool)
    requires TotalPreorder(le)
    ensures SortedBy(SortBy(s, le), le)
  {
    SortBySorted(s, le, (x: T) => true);
  }

  /** An element no smaller than everything already present goes to the end. */
  lemma {:induction false} InsertAfterAll<T>(x: T, s: seq<T>, le: (T, T) -> bool)
    requires forall k :: 0 <= k < |s| ==> le(s[k], x)
    ensures Insert(x, s, le) == s + [x]
  {
    if s != [] {
      InsertAfterAll(x, s[1..], le);
      assert [s[0]] + (s[1..] + [x]) == s + [x];
    }
  }

  /** Stability on sorted input: a list that is already in order is returned unchanged. */
  lemma {:induction false} SortBySortedIdentity<T>(s: seq<T>, le: (T, T) -> bool)
    requires SortedBy(s, le)
    ensures SortBy(s, le) == s
  {
    if s != [] {
      var init := s[..|s| - 1];
      assert SortedBy(init, le) by {
        forall i, j | 0 <= i < j < |init| ensures le(init[i], init[j]) {
          assert init[i] == s[i] && init[j] == s[j];
        }
      }
      SortBySortedIdentity(init, le);
      forall k | 0 <= k < |init| ensures le(init[k], s[|s| - 1]) { assert init[k] == s[k]; }
      InsertAfterAll(s[|s| - 1], init, le);
      assert init + [s[|s| - 1]] == s;
    }
  }

  /**
   * Where a character's UTF-16 code units place it among other characters.
   * A character outside the Basic Multilingual Plane starts with a
   * surrogate (U+D800..U+DBFF), so it sorts after U+0000..U+D7FF and before
   * U+E000..U+FFFF; within each group the order is that of the values.
   */
  function UnitKey(c: char): (k: int)
    ensures (k < 0xD800) == (c as int < 0xD800)
    ensures 0xE000 <= c as int < 0x10000 ==> k > 0x10FFFF
  {
    if 0xE000 <= c as int < 0x10000 then c as int + 0x110000 else c as int
  }

  /**
   * Lexicographic order on the strings' UTF-16 code units, the order `<`
   * and `>` give on JavaScript strings.
   */
  predicate StringLe(a: string, b: string) {
    a == [] || (b != [] && (UnitKey(a[0]) < UnitKey(b[0]) || (a[0] == b[0] && StringLe(a[1..], b[1..]))))
  }

  /** The code-unit order is not the order of the characters' values: U+FFFF sorts after U+10000. */
  lemma CodeUnitOrderDiffers()
    ensures StringLe("\U{10000}", "\U{FFFF}") && !StringLe("\U{FFFF}", "\U{10000}")
  {
  }

  lemma {:induction false} StringLeTotal(a: string, b: string)
    ensures StringLe(a, b) || StringLe(b, a)
  {
    if a != [] && b != [] && a[0] == b[0] { StringLeTotal(a[1..], b[1..]); }
  }

  lemma {:induction false} StringLeTransitive(a: string, b: string, c: string)
    requires StringLe(a, b) && StringLe(b, c)
    ensures StringLe(a, c)
  {
    if a != [] && b != [] && c != [] && a[0] == b[0] && b[0] == c[0] {
      StringLeTransitive(a[1..], b[1..], c[1..]);
    }
  }

  lemma {:induction false} StringLeAntisymmetric(a: string, b: string)
    requires StringLe(a, b) && StringLe(b, a)
    ensures a == b
  {
    if a != [] && b != [] {
      StringLeAntisymmetric(a[1..], b[1..]);
      assert a == [a[0]] + a[1..] && b == [b[0]] + b[1..];
    }
  }

  lemma StringLeIsTotalPreorder()
    ensures TotalPreorder(StringLe)
  {
    forall a, b ensures StringLe(a, b) || StringLe(b, a) { StringLeTotal(a, b); }
    forall a, b, c | StringLe(a, b) && StringLe(b, c) ensures StringLe(a, c) {
      StringLeTransitive(a, b, c);
    }
  }

  /** A common prefix does not change how two strings compare. */
  lemma {:induction false} StringLeAfterPrefix(p: string, a: string, b: string)
    requires StringLe(a, b)
    ensures StringLe(p + a, p + b)
  {
    if p != [] {
      var x, y := p + a, p + b;
      assert x[1..] == p[1..] + a && y[1..] == p[1..] + b;
      StringLeAfterPrefix(p[1..], a, b);
      assert x[0] == y[0] && StringLe(x[1..], y[1..]);
    } else {
      assert p + a == a && p + b == b;
    }
  }

  /** Two different strings of one length compare as they do whatever follows them. */
  lemma {:induction false} StringLeDecidedEarly(a1: string, a2: string, b1: string, b2: string)
    requires |a1| == |a2| && StringLe(a1, a2) && a1 != a2
    ensures StringLe(a1 + b1, a2 + b2)
  {
    var x, y := a1 + b1, a2 + b2;
    assert x[0] == a1[0] && y[0] == a2[0];
    if a1[0] == a2[0] {
      assert a1 == [a1[0]] + a1[1..] && a2 == [a2[0]] + a2[1..];
      assert x[1..] == a1[1..] + b1 && y[1..] == a2[1..] + b2;
      StringLeDecidedEarly(a1[1..], a2[1..], b1, b2);
      assert StringLe(x[1..], y[1..]);
    }
  }
}
