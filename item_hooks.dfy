/**
 * The hooks over the item store: the filtered-items and search effects, and
 * the management functions that turn the manager's results into
 * `{success, data, error}` responses.
 */
module ItemHooks {
  import opened Wrappers
  import opened Lists
  import opened Storage
  import JsText
  import opened ItemStore

  /** The filter signal; `None` is a field the filter leaves out. */
  datatype ItemFilter = ItemFilter(category: Option<string>, priority: Option<Priority>, completed: Option<bool>)

  /** What the filtered-items effect tests, field by field: an absent (or empty) category, or an absent field, constrains nothing. */
  function FilterMatches(f: ItemFilter): Item -> bool {
    (item: Item) =>
      (f.category.Some? && f.category.value != "" ==> item.category == f.category.value)
      && (f.priority.Some? ==> item.priority == f.priority.value)
      && (f.completed.Some? ==> item.completed == f.completed.value)
  }

  function CategoryTest(f: ItemFilter): Item -> bool {
    (item: Item) => f.category.Some? ==> item.category == f.category.value
  }

  function PriorityTest(f: ItemFilter): Item -> bool {
    (item: Item) => f.priority.Some? ==> item.priority == f.priority.value
  }

  function CompletedTest(f: ItemFilter): Item -> bool {
    (item: Item) => f.completed.Some? ==> item.completed == f.completed.value
  }

  function Guarded<T>(active: bool, p: T -> bool): T -> bool {
    (x: T) => active ==> p(x)
  }

  /** One stage of the effect: `if (active) items = items.filter(p)`. */
  function Stage<T(==)>(s: seq<T>, active: bool, p: T -> bool): (r: seq<T>)
    ensures r == Filter(s, Guarded(active, p))
  {
    if active then
      FilterExtensional(s, p, Guarded(active, p));
      Filter(s, p)
    else
      FilterAll(s, Guarded(active, p));
      s
  }

  /** The effect's three filter stages in turn, each applied only when its field is set. */
  function FilteredItems(items: seq<Item>, f: ItemFilter): (r: seq<Item>)
    ensures r == Filter(items, FilterMatches(f))
  {
    var g1 := Guarded(f.category.Some? && f.category.value != "", CategoryTest(f));
    var g2 := Guarded(f.priority.Some?, PriorityTest(f));
    var g3 := Guarded(f.completed.Some?, CompletedTest(f));
    var r := Stage(Stage(Stage(items, f.category.Some? && f.category.value != "", CategoryTest(f)),
                         f.priority.Some?, PriorityTest(f)),
                   f.completed.Some?, CompletedTest(f));
    FilterFilter(items, g1, g2);
    FilterFilter(items, Both(g1, g2), g3);
    StagesMatch(f);
    FilterExtensional(items, Both(Both(g1, g2), g3), FilterMatches(f));
    r
  }

  lemma StagesMatch(f: ItemFilter)
    ensures forall x :: Both(Both(Guarded(f.category.Some? && f.category.value != "", CategoryTest(f)),
                                  Guarded(f.priority.Some?, PriorityTest(f))),
                             Guarded(f.completed.Some?, CompletedTest(f)))(x) == FilterMatches(f)(x)
  {
  }

  /** The empty filter `{}` keeps every item, in order. */
  lemma EmptyFilterKeepsAll(items: seq<Item>)
    ensures FilteredItems(items, ItemFilter(None, None, None)) == items
  {
    FilterAll(items, FilterMatches(ItemFilter(None, None, None)));
  }

  /** The search effect: no results for an empty or whitespace-only query, else `searchItems(query)`. */
  function SearchResults(items: seq<Item>, query: string): (r: seq<Item>)
    ensures JsText.AllWhitespace(query) ==> r == []
    ensures !JsText.AllWhitespace(query) ==> r == Filter(items, MatchesQuery(JsText.ToLower(query)))
  {
    if JsText.Trim(query) != "" then Filter(items, MatchesQuery(JsText.ToLower(query))) else []
  }

  /** `{ success, data?, error? }`. */
  datatype Response<T> = Response(success: bool, data: Option<T>, error: Option<string>)

  function Succeeded<T>(data: Option<T>): Response<T> {
    Response(true, data, None)
  }

  function Failed<T>(error: string): Response<T> {
    Response(false, None, Some(error))
  }

  /** The `updateItem`/`updateCategory` wrappers: a `null` result is a not-found failure. */
  function FromUpdate<T>(updated: Option<T>, notFound: string): (r: Response<T>)
    ensures r.success <==> updated.Some?
    ensures r.success ==> r.data == updated && r.error == None
    ensures !r.success ==> r.error == Some(notFound) && r.data == None
  {
    if updated.Some? then Succeeded(updated) else Failed(notFound)
  }

  /** The `deleteItem`/`deleteCategory` wrappers: `false` is a not-found failure and a thrown error's message is returned. */
  function FromDelete(deleted: Result<bool, string>, notFound: string): (r: Response<()>)
    ensures r.success <==> deleted == Success(true)
    ensures r.data == None
    ensures deleted == Success(false) ==> r.error == Some(notFound)
    ensures deleted.Failure? ==> r.error == Some(deleted.error)
  {
    match deleted
    case Success(b) => if b then Succeeded(None) else Failed(notFound)
    case Failure(message) => Failed(message)
  }

  method CreateCategoryAction(m: LocalStorageManager, draft: CategoryDraft, newId: string) returns (r: Response<Category>)
    modifies m
    ensures r.success && r.data == Some(Category(newId, draft.name, draft.color, 0))
    ensures m.categoriesSlot == Stored(old(m.Categories()) + [r.data.value]) && m.itemsSlot == old(m.itemsSlot)
    ensures m.listeners == old(m.listeners) && m.notifications == old(m.notifications) + 1
  {
    var c := m.CreateCategory(draft, newId);
    r := Succeeded(Some(c));
  }

  method UpdateCategoryAction(m: LocalStorageManager, id: string, changes: CategoryChanges) returns (r: Response<Category>)
    modifies m
    ensures r.success <==> FindIndex(old(m.Categories()), CategoryIs(id)) >= 0
    ensures !r.success ==> r.error == Some("Category not found") && m.categoriesSlot == old(m.categoriesSlot)
    ensures r.success ==> (
      var k := FindIndex(old(m.Categories()), CategoryIs(id));
      r.data == Some(MergeCategory(old(m.Categories())[k], changes))
      && m.categoriesSlot == Stored(old(m.Categories())[k := r.data.value]))
    ensures m.itemsSlot == old(m.itemsSlot)
    ensures m.listeners == old(m.listeners) && m.notifications == old(m.notifications) + (if r.success then 1 else 0)
  {
    var updated := m.UpdateCategory(id, changes);
    r := FromUpdate(updated, "Category not found");
  }

  /** The "existing items" error becomes a failed response instead of propagating. */
  method DeleteCategoryAction(m: LocalStorageManager, id: string) returns (r: Response<()>)
    modifies m
    ensures var k := FindIndex(old(m.Categories()), CategoryIs(id));
      r.success <==> k >= 0 && forall j :: 0 <= j < |m.Items()| ==> m.Items()[j].category != id
    ensures FindIndex(old(m.Categories()), CategoryIs(id)) < 0 ==>
      r.error == Some("Category not found") && m.categoriesSlot == old(m.categoriesSlot)
    ensures r.success ==> m.categoriesSlot == Stored(RemoveAt(old(m.Categories()), FindIndex(old(m.Categories()), CategoryIs(id))))
    ensures FindIndex(old(m.Categories()), CategoryIs(id)) >= 0 && (exists j :: 0 <= j < |m.Items()| && m.Items()[j].category == id)
      ==> r.error == Some("Cannot delete category with existing items") && m.categoriesSlot == old(m.categoriesSlot)
    ensures m.itemsSlot == old(m.itemsSlot)
    ensures m.listeners == old(m.listeners) && m.notifications == old(m.notifications) + (if r.success then 1 else 0)
  {
    var deleted := m.DeleteCategory(id);
    r := FromDelete(deleted, "Category not found");
  }

  method CreateItemAction(m: LocalStorageManager, draft: ItemDraft, newId: string, now: string) returns (r: Response<Item>)
    modifies m
    ensures r.success && r.data == Some(NewItem(draft, newId, now))
    ensures m.itemsSlot == Stored(old(m.Items()) + [NewItem(draft, newId, now)])
    ensures m.categoriesSlot == BumpSlot(old(m.categoriesSlot), draft.category, 1)
    ensures m.listeners == old(m.listeners) && m.notifications == old(m.notifications) + 1
  {
    var item := m.CreateItem(draft, newId, now);
    r := Succeeded(Some(item));
  }

  method UpdateItemAction(m: LocalStorageManager, id: string, changes: ItemChanges, now: string) returns (r: Response<Item>)
    modifies m
    ensures r.success <==> FindIndex(old(m.Items()), ItemIs(id)) >= 0
    ensures !r.success ==> (r.error == Some("Item not found")
      && m.itemsSlot == old(m.itemsSlot) && m.categoriesSlot == old(m.categoriesSlot))
    ensures r.success ==> (
      var k := FindIndex(old(m.Items()), ItemIs(id));
      r.data == Some(MergeItem(old(m.Items())[k], changes, now))
      && m.itemsSlot == Stored(old(m.Items())[k := r.data.value])
      && m.categoriesSlot == MoveSlot(old(m.categoriesSlot), old(m.Items())[k].category, changes.category))
    ensures m.listeners == old(m.listeners) && m.notifications == old(m.notifications) + (if r.success then 1 else 0)
  {
    var updated := m.UpdateItem(id, changes, now);
    r := FromUpdate(updated, "Item not found");
  }

  method DeleteItemAction(m: LocalStorageManager, id: string) returns (r: Response<()>)
    modifies m
    ensures r.success <==> FindIndex(old(m.Items()), ItemIs(id)) >= 0
    ensures !r.success ==> (r.error == Some("Item not found")
      && m.itemsSlot == old(m.itemsSlot) && m.categoriesSlot == old(m.categoriesSlot))
    ensures r.success ==> (
      var k := FindIndex(old(m.Items()), ItemIs(id));
      m.itemsSlot == Stored(RemoveAt(old(m.Items()), k))
      && m.categoriesSlot == BumpSlot(old(m.categoriesSlot), old(m.Items())[k].category, -1))
    ensures m.listeners == old(m.listeners) && m.notifications == old(m.notifications) + (if r.success then 1 else 0)
  {
    var deleted := m.DeleteItem(id);
    r := FromDelete(if deleted then Success(true) else Success(false), "Item not found");
  }

  /** The change `toggleItemCompletion` asks for: only `completed`, flipped. */
  function FlipCompleted(item: Item): ItemChanges {
    ItemChanges(None, None, None, None, None, Some(!item.completed), None)
  }

  /** Merging the toggle's change flips `completed`, stamps `updatedAt` and keeps every other field. */
  lemma FlipCompletedOnly(item: Item, now: string)
    ensures MergeItem(item, FlipCompleted(item), now) == item.(completed := !item.completed, updatedAt := now)
  {
  }

  /** Flips only the completed flag of an existing item; an unknown id is a not-found failure with nothing changed. */
  method ToggleItemCompletion(m: LocalStorageManager, id: string, now: string) returns (r: Response<Item>)
    modifies m
    ensures r.success <==> FindIndex(old(m.Items()), ItemIs(id)) >= 0
    ensures !r.success ==> (r.error == Some("Item not found")
      && m.itemsSlot == old(m.itemsSlot) && m.categoriesSlot == old(m.categoriesSlot))
    ensures r.success ==> (
      var k := FindIndex(old(m.Items()), ItemIs(id));
      var flipped := old(m.Items())[k].(completed := !old(m.Items())[k].completed, updatedAt := now);
      r.data == Some(flipped) && m.itemsSlot == Stored(old(m.Items())[k := flipped])
      && m.categoriesSlot == old(m.categoriesSlot))
    ensures m.listeners == old(m.listeners) && m.notifications == old(m.notifications) + (if r.success then 1 else 0)
  {
    var item := m.GetItem(id);
    if item.None? {
      r := Failed("Item not found");
      return;
    }
    FlipCompletedOnly(item.value, now);
    r := UpdateItemAction(m, id, FlipCompleted(item.value), now);
  }
}
