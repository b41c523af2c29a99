/**
 * The local-storage demo store (`LocalStorageManager`): items and categories
 * kept as JSON under two storage keys.  Every category carries an
 * `itemCount` that the item operations adjust; a category that items still
 * reference cannot be deleted.  Storage is modelled as the two slots the
 * manager reads and writes; fresh ids and timestamps are parameters.
 */
module ItemStore {
  import opened Wrappers
  import opened Lists
  import opened Storage
  import JsText

  datatype Priority = Low | Medium | High

  datatype Item = Item(id: string, name: string, description: Option<string>, category: string,
                       priority: Priority, completed: bool, createdAt: string, updatedAt: string)

  datatype Category = Category(id: string, name: string, color: string, itemCount: int)

  /** The fields a new item is created from (`Omit<LocalStorageItem, 'id' | 'createdAt' | 'updatedAt'>`). */
  datatype ItemDraft = ItemDraft(name: string, description: Option<string>, category: string,
                                 priority: Priority, completed: bool)

  /** `Partial<LocalStorageItem>`: `None` is a field the change leaves out (`updatedAt` is always overwritten). */
  datatype ItemChanges = ItemChanges(id: Option<string>, name: Option<string>, description: Option<string>,
                                     category: Option<string>, priority: Option<Priority>,
                                     completed: Option<bool>, createdAt: Option<string>)

  datatype CategoryDraft = CategoryDraft(name: string, color: string)

  datatype CategoryChanges = CategoryChanges(id: Option<string>, name: Option<string>, color: Option<string>,
                                             itemCount: Option<int>)

  function Pick<T>(change: Option<T>, current: T): T {
    if change.Some? then change.value else current
  }

  function NewItem(draft: ItemDraft, id: string, now: string): (r: Item)
    ensures r.id == id && r.createdAt == now && r.updatedAt == now
    ensures r.name == draft.name && r.category == draft.category && r.completed == draft.completed
  {
    Item(id, draft.name, draft.description, draft.category, draft.priority, draft.completed, now, now)
  }

  /** `{...item, ...changes, updatedAt: now}`. */
  function MergeItem(item: Item, ch: ItemChanges, now: string): Item {
    Item(Pick(ch.id, item.id), Pick(ch.name, item.name),
         if ch.description.Some? then ch.description else item.description,
         Pick(ch.category, item.category), Pick(ch.priority, item.priority),
         Pick(ch.completed, item.completed), Pick(ch.createdAt, item.createdAt), now)
  }

  /** `{...category, ...changes}`. */
  function MergeCategory(c: Category, ch: CategoryChanges): Category {
    Category(Pick(ch.id, c.id), Pick(ch.name, c.name), Pick(ch.color, c.color), Pick(ch.itemCount, c.itemCount))
  }

  function ItemIs(id: string): Item -> bool {
    (item: Item) => item.id == id
  }

  function CategoryIs(id: string): Category -> bool {
    (c: Category) => c.id == id
  }

  function InCategory(id: string): Item -> bool {
    (item: Item) => item.category == id
  }

  /**
   * `updateCategoryCount` on the list: the first category with that id, if
   * any, gets `max(0, itemCount + delta)`; every other one is unchanged.
   */
  function BumpCount(cats: seq<Category>, id: string, delta: int): (r: seq<Category>)
    ensures |r| == |cats|
    ensures forall j :: 0 <= j < |cats| && j != FindIndex(cats, CategoryIs(id)) ==> r[j] == cats[j]
    ensures FindIndex(cats, CategoryIs(id)) >= 0 ==> (
      var k := FindIndex(cats, CategoryIs(id));
      r[k] == cats[k].(itemCount := if cats[k].itemCount + delta < 0 then 0 else cats[k].itemCount + delta))
    ensures forall j :: 0 <= j < |r| ==> r[j].id == cats[j].id
    ensures forall j :: 0 <= j < |cats| && cats[j].itemCount >= 0 ==> r[j].itemCount >= 0
  {
    var k := FindIndex(cats, CategoryIs(id));
    if k < 0 then cats
    else cats[k := cats[k].(itemCount := if cats[k].itemCount + delta < 0 then 0 else cats[k].itemCount + delta)]
  }

  /** The category slot after `updateCategoryCount`: written back only when the category was found. */
  function BumpSlot(slot: Slot<seq<Category>>, id: string, delta: int): (r: Slot<seq<Category>>)
    ensures FindIndex(Read(slot), CategoryIs(id)) < 0 ==> r == slot
    ensures FindIndex(Read(slot), CategoryIs(id)) >= 0 ==> r == Stored(BumpCount(Read(slot), id, delta))
  {
    if FindIndex(Read(slot), CategoryIs(id)) < 0 then slot else Stored(BumpCount(Read(slot), id, delta))
  }

  /** The category change `updateItem` makes: counts move only for a non-empty, different category. */
  function MoveSlot(slot: Slot<seq<Category>>, oldCategory: string, change: Option<string>): Slot<seq<Category>> {
    if change.Some? && change.value != "" && change.value != oldCategory
    then BumpSlot(BumpSlot(slot, oldCategory, -1), change.value, 1)
    else slot
  }

  /** `searchItems`' test for a query already lowercased. */
  function MatchesQuery(lowerQuery: string): Item -> bool {
    (item: Item) =>
      JsText.Includes(JsText.ToLower(item.name), lowerQuery)
      || (item.description.Some? && JsText.Includes(JsText.ToLower(item.description.value), lowerQuery))
      || JsText.Includes(JsText.ToLower(item.category), lowerQuery)
  }

  predicate IsCompleted(item: Item) { item.completed }
  predicate IsPending(item: Item) { !item.completed }
  predicate IsLow(item: Item) { item.priority == Low }
  predicate IsMedium(item: Item) { item.priority == Medium }
  predicate IsHigh(item: Item) { item.priority == High }

  datatype CategorySummary = CategorySummary(name: string, count: int, color: string)

  datatype Stats = Stats(totalItems: nat, completedItems: nat, pendingItems: nat, totalCategories: nat,
                         low: nat, medium: nat, high: nat, categoryBreakdown: seq<CategorySummary>)

  lemma {:induction false} PriorityBuckets(s: seq<Item>)
    ensures Count(s, IsLow) + Count(s, IsMedium) + Count(s, IsHigh) == |s|
  {
    if s != [] { PriorityBuckets(s[1..]); }
  }

  /** `getStats`: every item is completed or pending and has exactly one of the three priorities. */
  function StatsOf(items: seq<Item>, cats: seq<Category>): (r: Stats)
    ensures r.totalItems == |items| && r.totalCategories == |cats|
    ensures r.completedItems + r.pendingItems == r.totalItems
    ensures r.low + r.medium + r.high == r.totalItems
    ensures r.completedItems == |Filter(items, IsCompleted)| && r.high == |Filter(items, IsHigh)|
    ensures |r.categoryBreakdown| == |cats| && forall j :: 0 <= j < |cats| ==>
      r.categoryBreakdown[j] == CategorySummary(cats[j].name, cats[j].itemCount, cats[j].color)
  {
    CountSplit(items, IsCompleted, IsPending);
    PriorityBuckets(items);
    CountIsFilterLength(items, IsCompleted);
    CountIsFilterLength(items, IsHigh);
    Stats(|items|, Count(items, IsCompleted), Count(items, IsPending), |cats|,
          Count(items, IsLow), Count(items, IsMedium), Count(items, IsHigh),
          seq(|cats|, j requires 0 <= j < |cats| => CategorySummary(cats[j].name, cats[j].itemCount, cats[j].color)))
  }

  // ---------------------------------------------------------------------
  // The demo data `initializeDemoData` seeds.

  function DemoItems(now: string, dayAgo: string, twoDaysAgo: string): seq<Item> {
    [Item("1", DemoTitles[0], Some(DemoDescriptions[0]), "work", High, false, now, now),
     Item("2", DemoTitles[1], Some(DemoDescriptions[1]), "development", Medium, true, dayAgo, now),
     Item("3", DemoTitles[2], Some(DemoDescriptions[2]), "planning", High, false, twoDaysAgo, twoDaysAgo)]
  }

  const DemoTitles: seq<string> := ["Complete project documentation", "Review code changes", "Plan next sprint"]

  const DemoDescriptions: seq<string> := [
    "Write comprehensive documentation for the TanStack DB implementation",
    "Go through recent commits and review for improvements",
    "Organize tasks and priorities for the upcoming development cycle"]

  const DemoCategories: seq<Category> := [
    Category("work", "Work", "#3B82F6", 1),
    Category("development", "Development", "#10B981", 1),
    Category("planning", "Planning", "#F59E0B", 1),
    Category("personal", "Personal", "#8B5CF6", 0)]

  /** Writes `demo` only into a key that holds nothing. */
  function Seed<T>(slot: Slot<T>, demo: T): (r: Slot<T>)
    ensures slot.Absent? ==> r == Stored(demo)
    ensures !slot.Absent? ==> r == slot
  {
    if slot.Absent? then Stored(demo) else slot
  }

  /** Seeding twice is seeding once. */
  lemma SeedIdempotent<T>(slot: Slot<T>, demo: T)
    ensures Seed(Seed(slot, demo), demo) == Seed(slot, demo)
  {
  }

  // ---------------------------------------------------------------------
  // The count invariant.

  predicate DistinctCategoryIds(cats: seq<Category>) {
    forall i, j :: 0 <= i < j < |cats| ==> cats[i].id != cats[j].id
  }

  /** Every category's `itemCount` is the number of items that reference it. */
  predicate CountsMatch(items: seq<Item>, cats: seq<Category>) {
    DistinctCategoryIds(cats) && forall j :: 0 <= j < |cats| ==> cats[j].itemCount == Count(items, InCategory(cats[j].id))
  }

  /** The seeded category counts are the numbers of seeded items per category. */
  lemma DemoCountsMatch(now: string, dayAgo: string, twoDaysAgo: string)
    ensures CountsMatch(DemoItems(now, dayAgo, twoDaysAgo), DemoCategories)
  {
    var items := DemoItems(now, dayAgo, twoDaysAgo);
    assert items[1..][1..][1..] == [];
    forall j | 0 <= j < |DemoCategories|
      ensures DemoCategories[j].itemCount == Count(items, InCategory(DemoCategories[j].id))
    {
      var p := InCategory(DemoCategories[j].id);
      assert items[1..][0] == items[1] && items[1..][1..][0] == items[2];
      assert Count(items[1..][1..][1..], p) == 0;
      assert Count(items[1..][1..], p) == (if p(items[2]) then 1 else 0);
      assert Count(items[1..], p) == (if p(items[1]) then 1 else 0) + (if p(items[2]) then 1 else 0);
      assert Count(items, p) == (if p(items[0]) then 1 else 0) + (if p(items[1]) then 1 else 0) + (if p(items[2]) then 1 else 0);
    }
  }

  /** Moving a count by `delta` on the category with that id, for lists with distinct ids. */
  lemma BumpCountAt(cats: seq<Category>, id: string, delta: int, j: int)
    requires DistinctCategoryIds(cats) && 0 <= j < |cats|
    ensures cats[j].id == id ==> (BumpCount(cats, id, delta)[j].itemCount ==
      if cats[j].itemCount + delta < 0 then 0 else cats[j].itemCount + delta)
    ensures cats[j].id != id ==> BumpCount(cats, id, delta)[j] == cats[j]
  {
    var k := FindIndex(cats, CategoryIs(id));
    assert CategoryIs(id)(cats[j]) == (cats[j].id == id);
    if cats[j].id == id {
      assert cats[k].id == id;
      assert k == j;
    } else {
      assert k != j;
    }
  }

  lemma BumpKeepsDistinct(cats: seq<Category>, id: string, delta: int)
    requires DistinctCategoryIds(cats)
    ensures DistinctCategoryIds(BumpCount(cats, id, delta))
  {
  }

  /** `createItem` keeps every count equal to the number of items referencing it. */
  lemma CreateKeepsCounts(items: seq<Item>, cats: seq<Category>, draft: ItemDraft, id: string, now: string)
    requires CountsMatch(items, cats)
    ensures CountsMatch(items + [NewItem(draft, id, now)], Read(BumpSlot(Stored(cats), draft.category, 1)))
  {
    var x := NewItem(draft, id, now);
    var cats' := Read(BumpSlot(Stored(cats), draft.category, 1));
    BumpKeepsDistinct(cats, draft.category, 1);
    forall j | 0 <= j < |cats'|
      ensures cats'[j].itemCount == Count(items + [x], InCategory(cats'[j].id))
    {
      CountAppend(items, [x], InCategory(cats[j].id));
      assert [x][1..] == [];
      BumpCountAt(cats, draft.category, 1, j);
      assert CategoryIs(draft.category)(cats[j]) == (cats[j].id == draft.category);
    }
  }

  /** `deleteItem` keeps the counts: the category of the removed item loses one. */
  lemma DeleteKeepsCounts(items: seq<Item>, cats: seq<Category>, i: int)
    requires CountsMatch(items, cats) && 0 <= i < |items|
    ensures CountsMatch(RemoveAt(items, i), Read(BumpSlot(Stored(cats), items[i].category, -1)))
  {
    var c := items[i].category;
    var cats' := Read(BumpSlot(Stored(cats), c, -1));
    BumpKeepsDistinct(cats, c, -1);
    forall j | 0 <= j < |cats'|
      ensures cats'[j].itemCount == Count(RemoveAt(items, i), InCategory(cats'[j].id))
    {
      CountRemoveAt(items, i, InCategory(cats[j].id));
      BumpCountAt(cats, c, -1, j);
      assert CategoryIs(c)(cats[j]) == (cats[j].id == c);
    }
  }

  /** Replacing item `i` by one in category `c2` while the category `c1` of the old one loses one and `c2` gains one. */
  lemma MoveKeepsCounts(items: seq<Item>, cats: seq<Category>, i: int, x: Item)
    requires CountsMatch(items, cats) && 0 <= i < |items| && x.category != items[i].category
    ensures CountsMatch(items[i := x], Read(BumpSlot(BumpSlot(Stored(cats), items[i].category, -1), x.category, 1)))
  {
    var c1, c2 := items[i].category, x.category;
    var mid := Read(BumpSlot(Stored(cats), c1, -1));
    var cats' := Read(BumpSlot(Stored(mid), c2, 1));
    assert BumpSlot(BumpSlot(Stored(cats), c1, -1), c2, 1) == BumpSlot(Stored(mid), c2, 1);
    BumpKeepsDistinct(cats, c1, -1);
    BumpKeepsDistinct(mid, c2, 1);
    forall j | 0 <= j < |cats'|
      ensures cats'[j].itemCount == Count(items[i := x], InCategory(cats'[j].id))
    {
      CountUpdate(items, i, x, InCategory(cats[j].id));
      BumpCountAt(cats, c1, -1, j);
      BumpCountAt(mid, c2, 1, j);
      assert CategoryIs(c1)(cats[j]) == (cats[j].id == c1);
      assert CategoryIs(c2)(mid[j]) == (mid[j].id == c2);
    }
  }

  /**
   * `updateItem` keeps the counts unless the change sets the category to the
   * empty string: that value is written but, being falsy, moves no count.
   */
  lemma UpdateKeepsCounts(items: seq<Item>, cats: seq<Category>, i: int, ch: ItemChanges, now: string)
    requires CountsMatch(items, cats) && 0 <= i < |items| && ch.category != Some("")
    ensures CountsMatch(items[i := MergeItem(items[i], ch, now)],
                        Read(MoveSlot(Stored(cats), items[i].category, ch.category)))
  {
    var x := MergeItem(items[i], ch, now);
    if x.category != items[i].category {
      MoveKeepsCounts(items, cats, i, x);
    } else {
      forall j | 0 <= j < |cats|
        ensures cats[j].itemCount == Count(items[i := x], InCategory(cats[j].id))
      {
        CountUpdate(items, i, x, InCategory(cats[j].id));
      }
    }
  }

  /** The empty-category update breaks the counts: the item leaves `work`, whose count stays 1. */
  lemma EmptyCategoryUpdateBreaksCounts()
    ensures var items := [Item("1", "a", None, "work", Low, false, "t", "t")];
      var cats := [Category("work", "Work", "#3B82F6", 1)];
      var ch := ItemChanges(None, None, None, Some(""), None, None, None);
      CountsMatch(items, cats)
      && !CountsMatch(items[0 := MergeItem(items[0], ch, "t")], Read(MoveSlot(Stored(cats), items[0].category, ch.category)))
  {
    var items := [Item("1", "a", None, "work", Low, false, "t", "t")];
    var cats := [Category("work", "Work", "#3B82F6", 1)];
    var ch := ItemChanges(None, None, None, Some(""), None, None, None);
    var items' := items[0 := MergeItem(items[0], ch, "t")];
    assert items[1..] == [] && items'[1..] == [];
    assert Count(items, InCategory("work")) == 1;
    assert Count(items', InCategory("work")) == 0;
  }

  /** The evidently intended test, `changes.category !== undefined`: any different category moves the counts, '' included. */
  function MoveSlotIntended(slot: Slot<seq<Category>>, oldCategory: string, change: Option<string>): Slot<seq<Category>> {
    if change.Some? && change.value != oldCategory
    then BumpSlot(BumpSlot(slot, oldCategory, -1), change.value, 1)
    else slot
  }

  /** With the intended test every update keeps the counts, the empty category included. */
  lemma UpdateIntendedKeepsCounts(items: seq<Item>, cats: seq<Category>, i: int, ch: ItemChanges, now: string)
    requires CountsMatch(items, cats) && 0 <= i < |items|
    ensures CountsMatch(items[i := MergeItem(items[i], ch, now)],
                        Read(MoveSlotIntended(Stored(cats), items[i].category, ch.category)))
  {
    var x := MergeItem(items[i], ch, now);
    if x.category != items[i].category {
      MoveKeepsCounts(items, cats, i, x);
    } else {
      forall j | 0 <= j < |cats|
        ensures cats[j].itemCount == Count(items[i := x], InCategory(cats[j].id))
      {
        CountUpdate(items, i, x, InCategory(cats[j].id));
      }
    }
  }

  /** `deleteCategory` removes a category no item references, and the others keep their counts. */
  lemma DeleteCategoryKeepsCounts(items: seq<Item>, cats: seq<Category>, k: int)
    requires CountsMatch(items, cats) && 0 <= k < |cats|
    ensures CountsMatch(items, RemoveAt(cats, k))
  {
  }

  // ---------------------------------------------------------------------
  // The manager.

  class LocalStorageManager {
    var itemsSlot: Slot<seq<Item>>
    var categoriesSlot: Slot<seq<Category>>
    var listeners: set<nat>
    /** How many times the listeners have been notified. */
    var notifications: nat

    /** The manager over whatever the two storage keys hold. */
    constructor (itemsSlot: Slot<seq<Item>>, categoriesSlot: Slot<seq<Category>>)
      ensures this.itemsSlot == itemsSlot && this.categoriesSlot == categoriesSlot
      ensures listeners == {} && notifications == 0
    {
      this.itemsSlot := itemsSlot;
      this.categoriesSlot := categoriesSlot;
      listeners := {};
      notifications := 0;
    }

    function Items(): seq<Item>
      reads this
    {
      Read(itemsSlot)
    }

    function Categories(): seq<Category>
      reads this
    {
      Read(categoriesSlot)
    }

    /** Only keys with nothing in them are written; the three timestamps stand for `new Date()` and its two offsets. */
    method InitializeDemoData(now: string, dayAgo: string, twoDaysAgo: string)
      modifies this
      ensures itemsSlot == Seed(old(itemsSlot), DemoItems(now, dayAgo, twoDaysAgo))
      ensures categoriesSlot == Seed(old(categoriesSlot), DemoCategories)
      ensures listeners == old(listeners) && notifications == old(notifications)
    {
      if itemsSlot.Absent? {
        var demo := DemoItems(now, dayAgo, twoDaysAgo);
        itemsSlot := Stored(demo);
      }
      if categoriesSlot.Absent? {
        var demo := DemoCategories;
        categoriesSlot := Stored(demo);
      }
    }

    method GetItem(id: string) returns (r: Option<Item>)
      ensures r.None? <==> FindIndex(Items(), ItemIs(id)) < 0
      ensures r.Some? ==> r.value == Items()[FindIndex(Items(), ItemIs(id))]
      ensures r.None? <==> forall j :: 0 <= j < |Items()| ==> Items()[j].id != id
      ensures r.Some? ==> exists j :: (0 <= j < |Items()| && Items()[j] == r.value && r.value.id == id
        && forall j' :: 0 <= j' < j ==> Items()[j'].id != id)
    {
      var k := FindIndex(Items(), ItemIs(id));
      if k < 0 {
        r := None;
      } else {
        r := Some(Items()[k]);
      }
    }

    method CreateItem(draft: ItemDraft, newId: string, now: string) returns (r: Item)
      modifies this
      ensures r == NewItem(draft, newId, now)
      ensures itemsSlot == Stored(old(Items()) + [r])
      ensures categoriesSlot == BumpSlot(old(categoriesSlot), draft.category, 1)
      ensures listeners == old(listeners) && notifications == old(notifications) + 1
    {
      r := NewItem(draft, newId, now);
      itemsSlot := Stored(Items() + [r]);
      UpdateCategoryCount(draft.category, 1);
      notifications := notifications + 1;
    }

    /** Returns `None` and changes nothing for an unknown id. */
    method UpdateItem(id: string, changes: ItemChanges, now: string) returns (r: Option<Item>)
      modifies this
      ensures FindIndex(old(Items()), ItemIs(id)) < 0 ==> (
        r == None && itemsSlot == old(itemsSlot) && categoriesSlot == old(categoriesSlot)
        && notifications == old(notifications))
      ensures FindIndex(old(Items()), ItemIs(id)) >= 0 ==> (
        var k := FindIndex(old(Items()), ItemIs(id));
        r == Some(MergeItem(old(Items())[k], changes, now))
        && itemsSlot == Stored(old(Items())[k := r.value])
        && categoriesSlot == MoveSlot(old(categoriesSlot), old(Items())[k].category, changes.category)
        && notifications == old(notifications) + 1)
      ensures listeners == old(listeners)
    {
      var items := Items();
      var k := FindIndex(items, ItemIs(id));
      if k < 0 {
        return None;
      }
      var oldItem := items[k];
      var updated := MergeItem(oldItem, changes, now);
      itemsSlot := Stored(items[k := updated]);
      if changes.category.Some? && changes.category.value != "" && changes.category.value != oldItem.category {
        UpdateCategoryCount(oldItem.category, -1);
        UpdateCategoryCount(changes.category.value, 1);
      }
      notifications := notifications + 1;
      r := Some(updated);
    }

    /** Removes only the first item with that id; false and no change when there is none. */
    method DeleteItem(id: string) returns (r: bool)
      modifies this
      ensures r <==> FindIndex(old(Items()), ItemIs(id)) >= 0
      ensures !r ==> itemsSlot == old(itemsSlot) && categoriesSlot == old(categoriesSlot) && notifications == old(notifications)
      ensures r ==> (
        var k := FindIndex(old(Items()), ItemIs(id));
        itemsSlot == Stored(RemoveAt(old(Items()), k))
        && categoriesSlot == BumpSlot(old(categoriesSlot), old(Items())[k].category, -1)
        && notifications == old(notifications) + 1)
      ensures listeners == old(listeners)
    {
      var items := Items();
      var k := FindIndex(items, ItemIs(id));
      if k < 0 {
        return false;
      }
      var item := items[k];
      var remaining := RemoveAt(items, k);
      itemsSlot := Stored(remaining);
      ghost var categories := categoriesSlot;
      UpdateCategoryCount(item.category, -1);
      notifications := notifications + 1;
      r := true;
      assert items == old(Items()) && categories == old(categoriesSlot);
    }

    method CreateCategory(draft: CategoryDraft, newId: string) returns (r: Category)
      modifies this
      ensures r == Category(newId, draft.name, draft.color, 0)
      ensures categoriesSlot == Stored(old(Categories()) + [r])
      ensures itemsSlot == old(itemsSlot) && listeners == old(listeners) && notifications == old(notifications) + 1
    {
      r := Category(newId, draft.name, draft.color, 0);
      categoriesSlot := Stored(Categories() + [r]);
      notifications := notifications + 1;
    }

    method UpdateCategory(id: string, changes: CategoryChanges) returns (r: Option<Category>)
      modifies this
      ensures FindIndex(old(Categories()), CategoryIs(id)) < 0 ==> (
        r == None && categoriesSlot == old(categoriesSlot) && notifications == old(notifications))
      ensures FindIndex(old(Categories()), CategoryIs(id)) >= 0 ==> (
        var k := FindIndex(old(Categories()), CategoryIs(id));
        r == Some(MergeCategory(old(Categories())[k], changes))
        && categoriesSlot == Stored(old(Categories())[k := r.value])
        && notifications == old(notifications) + 1)
      ensures itemsSlot == old(itemsSlot) && listeners == old(listeners)
    {
      var cats := Categories();
      var k := FindIndex(cats, CategoryIs(id));
      if k < 0 {
        return None;
      }
      var updated := MergeCategory(cats[k], changes);
      categoriesSlot := Stored(cats[k := updated]);
      notifications := notifications + 1;
      r := Some(updated);
    }

    /**
     * `false` for an unknown id; the error for a category some item still
     * references, with nothing written; otherwise that category alone is removed.
     */
    method DeleteCategory(id: string) returns (r: Result<bool, string>)
      modifies this
      ensures var k := FindIndex(old(Categories()), CategoryIs(id));
        k < 0 ==> r == Success(false) && categoriesSlot == old(categoriesSlot) && notifications == old(notifications)
      ensures var k := FindIndex(old(Categories()), CategoryIs(id));
        k >= 0 && (exists j :: 0 <= j < |Items()| && Items()[j].category == id) ==> (
          r == Failure("Cannot delete category with existing items")
          && categoriesSlot == old(categoriesSlot) && notifications == old(notifications))
      ensures var k := FindIndex(old(Categories()), CategoryIs(id));
        k >= 0 && (forall j :: 0 <= j < |Items()| ==> Items()[j].category != id) ==> (
          r == Success(true) && categoriesSlot == Stored(RemoveAt(old(Categories()), k))
          && notifications == old(notifications) + 1)
      ensures itemsSlot == old(itemsSlot) && listeners == old(listeners)
    {
      var cats := Categories();
      var k := FindIndex(cats, CategoryIs(id));
      if k < 0 {
        return Success(false);
      }
      var items := Items();
      var h := FindIndex(items, InCategory(id));
      if h >= 0 {
        assert items[h].category == id;
        return Failure("Cannot delete category with existing items");
      }
      categoriesSlot := Stored(RemoveAt(cats, k));
      notifications := notifications + 1;
      r := Success(true);
    }

    /** Never leaves a count below zero; nothing is written for an unknown category. */
    method UpdateCategoryCount(categoryId: string, delta: int)
      modifies this
      ensures categoriesSlot == BumpSlot(old(categoriesSlot), categoryId, delta)
      ensures itemsSlot == old(itemsSlot) && listeners == old(listeners) && notifications == old(notifications)
    {
      var cats := Categories();
      var k := FindIndex(cats, CategoryIs(categoryId));
      if k >= 0 {
        var count := if cats[k].itemCount + delta < 0 then 0 else cats[k].itemCount + delta;
        categoriesSlot := Stored(cats[k := cats[k].(itemCount := count)]);
      }
    }

    method Subscribe(listener: nat)
      modifies this
      ensures listeners == old(listeners) + {listener}
      ensures itemsSlot == old(itemsSlot) && categoriesSlot == old(categoriesSlot) && notifications == old(notifications)
    {
      listeners := listeners + {listener};
    }

    /** The function `subscribe` returns. */
    method Unsubscribe(listener: nat)
      modifies this
      ensures listeners == old(listeners) - {listener}
      ensures itemsSlot == old(itemsSlot) && categoriesSlot == old(categoriesSlot) && notifications == old(notifications)
    {
      listeners := listeners - {listener};
    }

    method SearchItems(query: string) returns (r: seq<Item>)
      ensures r == Filter(Items(), MatchesQuery(JsText.ToLower(query)))
    {
      r := Filter(Items(), MatchesQuery(JsText.ToLower(query)));
    }

    method GetItemsByCategory(categoryId: string) returns (r: seq<Item>)
      ensures r == Filter(Items(), InCategory(categoryId))
    {
      r := Filter(Items(), InCategory(categoryId));
    }

    method GetItemsByPriority(priority: Priority) returns (r: seq<Item>)
      ensures forall j :: 0 <= j < |r| ==> r[j].priority == priority
      ensures r == Filter(Items(), (item: Item) => item.priority == priority)
    {
      r := Filter(Items(), (item: Item) => item.priority == priority);
    }

    method GetCompletedItems() returns (r: seq<Item>)
      ensures forall j :: 0 <= j < |r| ==> r[j].completed
      ensures r == Filter(Items(), IsCompleted)
    {
      r := Filter(Items(), IsCompleted);
    }

    method GetPendingItems() returns (r: seq<Item>)
      ensures forall j :: 0 <= j < |r| ==> !r[j].completed
      ensures r == Filter(Items(), IsPending)
    {
      r := Filter(Items(), IsPending);
    }

    method GetStats() returns (r: Stats)
      ensures r == StatsOf(Items(), Categories())
    {
      r := StatsOf(Items(), Categories());
    }
  }

  /** An empty query matches every item, since every string includes "". */
  lemma EmptyQueryMatchesAll(items: seq<Item>)
    ensures Filter(items, MatchesQuery(JsText.ToLower(""))) == items
  {
    forall j | 0 <= j < |items| ensures MatchesQuery("")(items[j]) {
      JsText.IncludesEmpty(JsText.ToLower(items[j].name));
    }
    FilterAll(items, MatchesQuery(JsText.ToLower("")));
  }
}
