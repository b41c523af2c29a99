/**
 * Grouping navigation items by section, as both sidebars do before they
 * render: hidden items are skipped, an item without a section (or with an
 * empty one) goes under "main", a section's list is created the first time
 * one of its items is met, and items are appended to it in input order.
 * The compact sidebar keeps the groups in a JavaScript `Map`, read back
 * in insertion order (`GroupItems`, whose loop is `Grouping.GroupBy`).
 * The full sidebar keeps them in a plain object read back with
 * `Object.entries` (`GroupItemsAsObject`): there a section named like an
 * array index is listed before the others, and a section named after a
 * member of `Object.prototype` makes the grouping throw.
 */
module NavSections {
  import opened Wrappers
  import opened OrderedMap
  import Lists
  import Grouping
  import Sorting
  import JsText

  /** A navigation entry; `section` is "" when absent, and `children` holds the sub-items and `name` is the shown label. */
  datatype NavItem = NavItem(to: string, name: string, section: string, hidden: bool, children: seq<NavItem>)

  const DefaultSection := "main"

  /** `item.section || 'main'`. */
  function SectionKey(item: NavItem): (k: string)
    ensures k == (if item.section == "" then DefaultSection else item.section)
    ensures k != ""
  {
    if item.section == "" then DefaultSection else item.section
  }

  function Visible(item: NavItem): bool {
    !item.hidden
  }

  /** The items that belong under section `k`. */
  function InSection(k: string): NavItem -> bool {
    Grouping.Under(Visible, SectionKey, k)
  }

  /** `sections` of the compact sidebar: the groups of a `Map`, in insertion order. */
  method GroupItems(items: seq<NavItem>) returns (groups: Grouping.Groups<string, NavItem>)
    ensures DistinctKeys(groups)
    ensures forall k :: (Get(groups, k) ==
      if Lists.Filter(items, InSection(k)) == [] then None else Some(Lists.Filter(items, InSection(k))))
    ensures Grouping.Keys(groups) == Grouping.FirstOccurrences(Grouping.KeptKeys(items, Visible, SectionKey))
  {
    groups := Grouping.GroupBy(items, Visible, SectionKey);
    Grouping.KeysInFirstAppearanceOrder(items, Visible, SectionKey);
  }

  // ------------------------------------------------------------ plain object

  /**
   * The names a plain object `{}` inherits from `Object.prototype`.  Reading
   * one of them gives a function (for `__proto__`, the prototype itself),
   * which is truthy and has no `push`.
   */
  const InheritedNames: set<string> := {
    "constructor", "hasOwnProperty", "isPrototypeOf", "propertyIsEnumerable",
    "toLocaleString", "toString", "valueOf", "__proto__",
    "__defineGetter__", "__defineSetter__", "__lookupGetter__", "__lookupSetter__"}

  /**
   * An integer-like key: the canonical decimal form of an array index, 0 to
   * 2^32 - 2, with no sign and no leading zero.
   */
  predicate IsArrayIndex(k: string) {
    && |k| > 0
    && (forall i :: 0 <= i < |k| ==> JsText.IsDigit(k[i]))
    && (k[0] != '0' || |k| == 1)
    && JsText.DigitsValue(k) < 0xFFFF_FFFF
  }

  predicate NotArrayIndex(k: string) {
    !IsArrayIndex(k)
  }

  /** The value of an integer-like key; 0 for any other key, which is never compared by it. */
  function IndexNumber(k: string): nat {
    if IsArrayIndex(k) then JsText.DigitsValue(k) else 0
  }

  function IndexLe(a: string, b: string): bool {
    IndexNumber(a) <= IndexNumber(b)
  }

  /**
   * The order `Object.keys` lists an object's own keys in, for keys created
   * in the order `ks`: the integer-like keys ascending by value, then the
   * others in creation order.
   */
  function ObjectKeyOrder(ks: seq<string>): (r: seq<string>)
    ensures multiset(r) == multiset(ks)
  {
    FilterSplit(ks, IsArrayIndex, NotArrayIndex);
    Sorting.SortBy(Lists.Filter(ks, IsArrayIndex), IndexLe) + Lists.Filter(ks, NotArrayIndex)
  }

  /** Filtering by a test and by its negation splits the elements between the two. */
  lemma {:induction false} FilterSplit<T>(s: seq<T>, p: T -> bool, q: T -> bool)
    requires forall x :: q(x) == !p(x)
    ensures multiset(Lists.Filter(s, p)) + multiset(Lists.Filter(s, q)) == multiset(s)
  {
    if s != [] {
      FilterSplit(s[1..], p, q);
      assert s == [s[0]] + s[1..];
    }
  }

  /**
   * `Object.keys` order, spelled out: the first `n` keys are exactly the
   * integer-like ones and ascend by value; the rest keep creation order.
   */
  lemma ObjectKeyOrderSpec(ks: seq<string>)
    ensures var r, n := ObjectKeyOrder(ks), |Lists.Filter(ks, IsArrayIndex)|;
      && n <= |r|
      && (forall i :: 0 <= i < |r| ==> (IsArrayIndex(r[i]) <==> i < n))
      && (forall i, j :: 0 <= i < j < n ==> IndexNumber(r[i]) <= IndexNumber(r[j]))
      && r[n..] == Lists.Filter(ks, NotArrayIndex)
  {
    var indexes := Lists.Filter(ks, IsArrayIndex);
    var sorted := Sorting.SortBy(indexes, IndexLe);
    var others := Lists.Filter(ks, NotArrayIndex);
    var r := ObjectKeyOrder(ks);
    SortedIndexKeys(ks);
    assert r == sorted + others;
    IndexKeysFirst(sorted, others);
    forall i, j | 0 <= i < j < |sorted| ensures IndexNumber(r[i]) <= IndexNumber(r[j]) {
      assert IndexLe(sorted[i], sorted[j]);
    }
  }

  /** Integer-like keys followed by other keys: the first ones are exactly the integer-like ones. */
  lemma IndexKeysFirst(indexes: seq<string>, others: seq<string>)
    requires forall i :: 0 <= i < |indexes| ==> IsArrayIndex(indexes[i])
    requires forall i :: 0 <= i < |others| ==> NotArrayIndex(others[i])
    ensures forall i :: 0 <= i < |indexes + others| ==> (IsArrayIndex((indexes + others)[i]) <==> i < |indexes|)
  {
    forall i | |indexes| <= i < |indexes + others| ensures NotArrayIndex((indexes + others)[i]) {
      assert (indexes + others)[i] == others[i - |indexes|];
    }
  }

  /** The integer-like keys, sorted: all integer-like and ascending by value. */
  lemma SortedIndexKeys(ks: seq<string>)
    ensures var sorted := Sorting.SortBy(Lists.Filter(ks, IsArrayIndex), IndexLe);
      && (forall i :: 0 <= i < |sorted| ==> IsArrayIndex(sorted[i]))
      && Sorting.SortedBy(sorted, IndexLe)
  {
    var indexes := Lists.Filter(ks, IsArrayIndex);
    var sorted := Sorting.SortBy(indexes, IndexLe);
    forall i | 0 <= i < |sorted| ensures IsArrayIndex(sorted[i]) {
      assert sorted[i] in multiset(indexes);
    }
    Sorting.SortBySorted(indexes, IndexLe, (k: string) => true);
  }

  /** With no integer-like key, `Object.keys` lists the keys in creation order, as a `Map` would. */
  lemma PlainKeysKeepOrder(ks: seq<string>)
    requires forall i :: 0 <= i < |ks| ==> !IsArrayIndex(ks[i])
    ensures ObjectKeyOrder(ks) == ks
  {
    Lists.FilterAll(ks, NotArrayIndex);
  }

  /** A section named "2" is listed before "main", though it was created after it. */
  lemma NumericSectionFirst()
    ensures ObjectKeyOrder(["main", "2"]) == ["2", "main"]
  {
    TwoIsIndex();
    FilterTwoKeys("main", "2");
    Sorting.SortBySortedIdentity(["2"], IndexLe);
  }

  lemma TwoIsIndex()
    ensures IsArrayIndex("2") && NotArrayIndex("main")
  {
    assert "2"[..0] == [];
    assert !JsText.IsDigit("main"[0]);
  }

  lemma FilterTwoKeys(a: string, b: string)
    requires NotArrayIndex(a) && IsArrayIndex(b)
    ensures Lists.Filter([a, b], IsArrayIndex) == [b]
    ensures Lists.Filter([a, b], NotArrayIndex) == [a]
  {
    assert [a, b][1..] == [b] && [b][1..] == [];
  }

  /** Every key `Object.keys` lists is an own key of the object. */
  lemma KeysPresent<T>(obj: Grouping.Groups<string, T>, ks: seq<string>)
    requires multiset(ks) == multiset(Grouping.Keys(obj))
    ensures forall i :: 0 <= i < |ks| ==> HasKey(obj, ks[i])
  {
    forall i | 0 <= i < |ks| ensures HasKey(obj, ks[i]) {
      assert ks[i] in multiset(Grouping.Keys(obj));
      var j :| 0 <= j < |obj| && Grouping.Keys(obj)[j] == ks[i];
      assert obj[j].key == ks[i];
    }
  }

  /** `Object.entries(obj)`: each own key in `Object.keys` order, with its value. */
  function ObjectEntries<T(==)>(obj: Grouping.Groups<string, T>): (r: Grouping.Groups<string, T>)
    ensures Grouping.Keys(r) == ObjectKeyOrder(Grouping.Keys(obj))
    ensures forall i :: 0 <= i < |r| ==> Get(obj, r[i].key) == Some(r[i].value)
  {
    var ks := ObjectKeyOrder(Grouping.Keys(obj));
    KeysPresent(obj, ks);
    Lookups(obj, ks)
  }

  /** `[k, obj[k]]` for each key `k` of `ks`, in that order. */
  function Lookups<T(==)>(obj: Grouping.Groups<string, T>, ks: seq<string>): (r: Grouping.Groups<string, T>)
    requires forall i :: 0 <= i < |ks| ==> HasKey(obj, ks[i])
    ensures Grouping.Keys(r) == ks
    ensures forall i :: 0 <= i < |r| ==> Get(obj, r[i].key) == Some(r[i].value)
  {
    var r := seq(|ks|, i requires 0 <= i < |ks| => Entry(ks[i], Get(obj, ks[i]).value));
    assert Grouping.Keys(r) == ks;
    r
  }

  /**
   * `groupedItems` of the full sidebar, read back with `Object.entries`.
   * `!groups[section]` is false for a name the object inherits, so no list
   * is created and `push` on the inherited value throws a `TypeError`.
   * Otherwise every section with a visible item has its group, holding
   * exactly that section's visible items in input order, and the sections
   * come in `Object.keys` order of their first appearance.
   */
  method GroupItemsAsObject(items: seq<NavItem>) returns (r: Result<Grouping.Groups<string, NavItem>, string>)
    ensures r.Failure? <==> exists i :: 0 <= i < |items| && Visible(items[i]) && SectionKey(items[i]) in InheritedNames
    ensures r.Failure? ==> r.error == "TypeError"
    ensures r.Success? ==>
      Grouping.Keys(r.value) == ObjectKeyOrder(Grouping.FirstOccurrences(Grouping.KeptKeys(items, Visible, SectionKey)))
    ensures r.Success? ==> forall i :: 0 <= i < |r.value| ==>
      r.value[i].value == Lists.Filter(items, InSection(r.value[i].key)) && r.value[i].value != []
  {
    var groups: Grouping.Groups<string, NavItem> := [];
    for i := 0 to |items|
      invariant groups == Grouping.Grouped(items[..i], Visible, SectionKey)
      invariant forall j :: 0 <= j < i && Visible(items[j]) ==> SectionKey(items[j]) !in InheritedNames
    {
      assert items[..i + 1][..i] == items[..i];
      if Visible(items[i]) {
        var section := SectionKey(items[i]);
        if section in InheritedNames {
          return Failure("TypeError");
        }
        groups := Grouping.Push(groups, section, items[i]);
      }
    }
    assert items[..|items|] == items;
    Grouping.KeysInFirstAppearanceOrder(items, Visible, SectionKey);
    var entries := ObjectEntries(groups);
    forall i | 0 <= i < |entries|
      ensures entries[i].value == Lists.Filter(items, InSection(entries[i].key)) && entries[i].value != []
    {
      Grouping.GroupedSpec(items, Visible, SectionKey, entries[i].key);
    }
    r := Success(entries);
  }
}
