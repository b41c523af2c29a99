# Dental clinic: verified model of the application core

This project is a Dafny model of the logic at the heart of a dental-clinic
management application. The application has a SolidJS/TypeScript frontend
over a PocketBase backend, whose schema is built by Go migrations. The model
covers the following parts.

- **Local data stores.** The local-storage item/category store with its
  per-category item counts. The localStorage stand-in for the PocketBase data
  layer, which sorts, paginates, merges, deletes and creates records. The
  query-key builders whose prefix drives cache invalidation.
- **Optimistic updates.** The queue of optimistic operations, with conflict
  checks, the pending list and age-based cleanup. The list-cache updaters the
  optimistic hooks apply, and their retry and backoff rules.
- **Authentication.** The e-mail and password rules and the order of the login
  and registration checks. The route guards. The local demo auth layer with
  its listeners.
- **Themes.** The theme registry: built-in themes, apply, dark-mode toggle,
  custom themes, import/export, subscription.
- **Logic inside UI components:**
  - the dental chart edits;
  - the calendar arithmetic (12-hour labels, hourly slots, the week, the
    42-cell month grid, navigation, card caps);
  - the patient directory's initials, age, search, filter, sort and counters;
  - both sidebars' grouping, active-entry rules, toggles and persisted
    collapse flag;
  - the appointments store and the appointments page, with their shared
    filter, sort and day-grouping pipeline, and the status and type colour
    maps;
  - the keyboard state machines of the searchable select and the two
    patient-search overlays;
  - the new-appointment form's validation and payload;
  - the UTC date-string helpers.
- **Backend migrations.** The nine collection migrations over an abstract
  catalog of existing collections. Each looks up its prerequisites in order
  and fails on the first missing one, then saves a collection whose field
  list is stated in full.

Code that changes state in place becomes a Dafny `class` whose methods are
specified by pure functions: the item store, the optimistic manager, the
theme manager, the auth layer and provider, and the component signal
holders. Lists and maps become `seq` and an insertion-ordered map of
entries. Browser storage is a `Slot` per key. The clock, random ids, date
parsing and formatting are parameters or oracle functions.

JavaScript's built-ins are written out in four helper modules:

- `JsText` models the string built-ins:
  - `trim`, `trimStart` and `trimEnd` over the `\s` class;
  - `toLowerCase` and `toUpperCase` (`LowerChar`, `UpperChar`, `ToLower`, `ToUpper`);
  - `includes` and `startsWith`;
  - `length` in UTF-16 code units (`Utf16Length`);
  - `String(n)` and `padStart(2, '0')`;
  - `parseInt(s)` with no radix, including the `0x`/`0X` prefix that selects base 16 (`ParseInt`).
- `Lists` models `Array.prototype.filter`, `findIndex`, `slice` and counting with `filter(...).length`.
- `Sorting` models `Array.prototype.sort` as a stable insertion sort with a comparator, and `<` on strings as UTF-16 code-unit order (`StringLe`).
- `OrderedMap` models a `Map` as an insertion-ordered list of entries. A plain object differs in two ways: `Object.keys` lists integer-like keys first, ascending by value, and a key inherited from `Object.prototype` reads as already set. `NavSections.GroupItemsAsObject` models both. The other plain objects are keyed by `yyyy-MM-dd` dates (`appointmentsByDate`), which contain `-` and so are never integer-like or inherited names; for them `OrderedMap`'s insertion order is the `Object.entries` order.

A string is a sequence of Unicode characters, so one astral character is one element where JavaScript sees two code units. Where the source measures a length, the model counts code units.

## Model

| member | source | states |
|---|---|---|
| ItemStore.NewItem | apps/frontend/src/lib/tanstack-db-localstorage.ts:106-112 | a new item takes the draft's fields, the fresh id, and the same timestamp for createdAt and updatedAt |
| ItemStore.BumpCount | apps/frontend/src/lib/tanstack-db-localstorage.ts:235-243 | only the first category with the id changes, to max(0, itemCount + delta); ids and every other category are kept, and a non-negative count stays non-negative |
| ItemStore.BumpSlot | apps/frontend/src/lib/tanstack-db-localstorage.ts:235-243 | an unknown category writes nothing; a known one writes the bumped list back |
| ItemStore.PriorityBuckets | apps/frontend/src/lib/tanstack-db-localstorage.ts:305-309 | the low, medium and high counts add up to the number of items |
| ItemStore.StatsOf | apps/frontend/src/lib/tanstack-db-localstorage.ts:296-316 | totalItems is the item count, completed + pending = total, the three priority buckets sum to total, and the breakdown lists each category's name, count and colour in order |
| ItemStore.Seed | apps/frontend/src/lib/tanstack-db-localstorage.ts:44-87 | demo data is written only into an empty key; a key with content is left as it is |
| ItemStore.SeedIdempotent | apps/frontend/src/lib/tanstack-db-localstorage.ts:43-89 | seeding twice equals seeding once |
| ItemStore.DemoCountsMatch | apps/frontend/src/lib/tanstack-db-localstorage.ts:45-86 | each seeded category's itemCount equals the number of seeded items in that category |
| ItemStore.BumpCountAt | apps/frontend/src/lib/tanstack-db-localstorage.ts:237-240 | with distinct category ids, the category with the id moves by delta (floored at 0) and every other one is unchanged |
| ItemStore.BumpKeepsDistinct | apps/frontend/src/lib/tanstack-db-localstorage.ts:235-243 | adjusting a count keeps the category ids distinct |
| ItemStore.CreateKeepsCounts | apps/frontend/src/lib/tanstack-db-localstorage.ts:106-122 | createItem keeps every category's itemCount equal to the number of items that reference it |
| ItemStore.DeleteKeepsCounts | apps/frontend/src/lib/tanstack-db-localstorage.ts:150-164 | deleteItem keeps the counts equal to the item references |
| ItemStore.MoveKeepsCounts | apps/frontend/src/lib/tanstack-db-localstorage.ts:141-144 | moving one item to another category, with old −1 and new +1, keeps the counts |
| ItemStore.UpdateKeepsCounts | apps/frontend/src/lib/tanstack-db-localstorage.ts:124-148 | updateItem keeps the counts for every change that does not set the category to '' |
| ItemStore.UpdateIntendedKeepsCounts | apps/frontend/src/lib/tanstack-db-localstorage.ts:139-144 | when counts move for every different category, '' included (the test `changes.category !== undefined`), every update keeps the counts |
| ItemStore.EmptyCategoryUpdateBreaksCounts | apps/frontend/src/lib/tanstack-db-localstorage.ts:141 | setting the category to '' is written but, being falsy, moves no count, so the old category keeps a count for an item it no longer has |
| ItemStore.DeleteCategoryKeepsCounts | apps/frontend/src/lib/tanstack-db-localstorage.ts:209-228 | removing a category keeps the counts of the others |
| ItemStore.LocalStorageManager.InitializeDemoData | apps/frontend/src/lib/tanstack-db-localstorage.ts:43-89 | each key is seeded only when empty, so a second call changes nothing |
| ItemStore.LocalStorageManager.GetItem | apps/frontend/src/lib/tanstack-db-localstorage.ts:101-104 | the first item with the id, or None iff no item has it |
| ItemStore.LocalStorageManager.CreateItem | apps/frontend/src/lib/tanstack-db-localstorage.ts:106-122 | appends exactly the new item at the end, bumps that category's count by 1 when it exists, notifies once |
| ItemStore.LocalStorageManager.UpdateItem | apps/frontend/src/lib/tanstack-db-localstorage.ts:124-148 | unknown id: None and nothing changes; otherwise the item at its index is merged with the changes plus updatedAt, and counts move only for a non-empty, different category |
| ItemStore.LocalStorageManager.DeleteItem | apps/frontend/src/lib/tanstack-db-localstorage.ts:150-164 | true iff the id exists; then only the first such item is removed and its category loses one; otherwise nothing changes |
| ItemStore.LocalStorageManager.CreateCategory | apps/frontend/src/lib/tanstack-db-localstorage.ts:176-189 | appends a category with the fresh id and itemCount 0 |
| ItemStore.LocalStorageManager.UpdateCategory | apps/frontend/src/lib/tanstack-db-localstorage.ts:191-207 | unknown id: None and nothing written; otherwise the category at its index is merged with the changes |
| ItemStore.LocalStorageManager.DeleteCategory | apps/frontend/src/lib/tanstack-db-localstorage.ts:209-228 | false for an unknown id; the 'existing items' error, with nothing written, while an item references it; otherwise only that category is removed |
| ItemStore.LocalStorageManager.UpdateCategoryCount | apps/frontend/src/lib/tanstack-db-localstorage.ts:235-243 | the category list becomes BumpSlot of the old one: no write for an unknown id, never a count below 0 |
| ItemStore.LocalStorageManager.Subscribe | apps/frontend/src/lib/tanstack-db-localstorage.ts:246-247 | adds the listener and nothing else |
| ItemStore.LocalStorageManager.Unsubscribe | apps/frontend/src/lib/tanstack-db-localstorage.ts:257-260 | removes only that listener |
| ItemStore.LocalStorageManager.SearchItems | apps/frontend/src/lib/tanstack-db-localstorage.ts:268-277 | the items, in order, whose name, description or category contains the query, both lower-cased with `toLowerCase` as JsText models it (see Left out) |
| ItemStore.LocalStorageManager.GetItemsByCategory | apps/frontend/src/lib/tanstack-db-localstorage.ts:279-281 | the items of that category, in order |
| ItemStore.LocalStorageManager.GetItemsByPriority | apps/frontend/src/lib/tanstack-db-localstorage.ts:283-285 | the items of that priority, in order, and only those |
| ItemStore.LocalStorageManager.GetCompletedItems | apps/frontend/src/lib/tanstack-db-localstorage.ts:287-289 | the completed items, in order |
| ItemStore.LocalStorageManager.GetPendingItems | apps/frontend/src/lib/tanstack-db-localstorage.ts:291-293 | the items not completed, in order |
| ItemStore.LocalStorageManager.GetStats | apps/frontend/src/lib/tanstack-db-localstorage.ts:296-316 | the statistics of the stored items and categories, with the sums StatsOf proves |
| ItemStore.EmptyQueryMatchesAll | apps/frontend/src/lib/tanstack-db-localstorage.ts:268-277 | an empty query matches every item |
| ItemStore.LocalStorageManager.constructor | apps/frontend/src/lib/tanstack-db-localstorage.ts:31-40 | the manager reads the two storage keys as given, with no listener and no notification yet |
| ItemHooks.Stage | apps/frontend/src/lib/useLocalStorageDB.ts:134-144 | one guarded stage filters by its test when the field is set and passes the list through otherwise |
| ItemHooks.FilteredItems | apps/frontend/src/lib/useLocalStorageDB.ts:130-147 | the three stages together keep exactly the items meeting the conjunction of the set filters, in order; an absent (or empty category) field constrains nothing |
| ItemHooks.StagesMatch | apps/frontend/src/lib/useLocalStorageDB.ts:134-144 | the conjunction of the three guarded tests is the combined filter test |
| ItemHooks.EmptyFilterKeepsAll | apps/frontend/src/lib/useLocalStorageDB.ts:126-147 | the initial empty filter keeps every item in order |
| ItemHooks.SearchResults | apps/frontend/src/lib/useLocalStorageDB.ts:104-111 | an empty or whitespace-only query gives no results; any other query gives searchItems(query) |
| ItemHooks.FromUpdate | apps/frontend/src/lib/useLocalStorageDB.ts:168-224 | success iff the manager returned a value, carrying it; otherwise failure with the not-found message |
| ItemHooks.FromDelete | apps/frontend/src/lib/useLocalStorageDB.ts:181-237 | success iff the manager returned true; false becomes the not-found message and a thrown error its own message |
| ItemHooks.CreateCategoryAction | apps/frontend/src/lib/useLocalStorageDB.ts:158-166 | always succeeds with the new category appended; the item list is unchanged, the listener set is unchanged and the listeners are notified once |
| ItemHooks.UpdateCategoryAction | apps/frontend/src/lib/useLocalStorageDB.ts:168-179 | success iff the category exists, carrying the category merged with the changes, which replaces it at its index; otherwise 'Category not found' and nothing written; the listener set is unchanged, and the listeners are notified once exactly on success |
| ItemHooks.DeleteCategoryAction | apps/frontend/src/lib/useLocalStorageDB.ts:181-192 | success iff the category exists and no item references it, and then exactly that category is removed; an unknown id is 'Category not found' and the existing-items error a failed response, both with nothing written; the listener set is unchanged, and the listeners are notified once exactly on success |
| ItemHooks.CreateItemAction | apps/frontend/src/lib/useLocalStorageDB.ts:203-211 | always succeeds with the new item appended, and its category's count (when the category exists) rises by one; the listener set is unchanged and the listeners are notified once |
| ItemHooks.UpdateItemAction | apps/frontend/src/lib/useLocalStorageDB.ts:213-224 | success iff the item exists, with the merged item in place; otherwise 'Item not found' and nothing written; the listener set is unchanged, and the listeners are notified once exactly on success |
| ItemHooks.DeleteItemAction | apps/frontend/src/lib/useLocalStorageDB.ts:226-237 | success iff the item exists: it is removed and its category's count falls by one, never below 0; otherwise 'Item not found' with items and categories unchanged; the listener set is unchanged, and the listeners are notified once exactly on success |
| ItemHooks.FlipCompletedOnly | apps/frontend/src/lib/useLocalStorageDB.ts:242 | the toggle's change flips completed, stamps updatedAt and keeps every other field |
| ItemHooks.ToggleItemCompletion | apps/frontend/src/lib/useLocalStorageDB.ts:239-245 | an existing item gets only its completed flag flipped (plus updatedAt), categories untouched; an unknown id is 'Item not found' with nothing changed; the listener set is unchanged, and the listeners are notified once exactly on success |
| MockData.ParseSort | apps/frontend/src/data/localStorage.ts:79-80 | descending iff the sort starts with '-'; one leading '-' or '+' is stripped from the field name, anything else is the field itself |
| MockData.Compare | apps/frontend/src/data/localStorage.ts:82-89 | the comparator only ever returns −1, 0 or 1 (string-valued fields only; see Left out) |
| MockData.SortRecords | apps/frontend/src/data/localStorage.ts:76-90 | the sorted list is a permutation of the stored one, and no (or an empty) sort leaves the order as it is |
| MockData.SortLeMeans | apps/frontend/src/data/localStorage.ts:86-88 | between records that have the field, the comparator orders by the field's string (UTF-16 code-unit) order, reversed for '-'; equal keys compare as 0; string-valued fields only (see Left out) |
| MockData.SortLePreorder | apps/frontend/src/data/localStorage.ts:82-89 | on records that have the sort field the comparator is a total preorder (string-valued fields only; see Left out) |
| MockData.SortRecordsOrdered | apps/frontend/src/data/localStorage.ts:76-90 | when every record has the field, the result is ascending by its string order, or descending for a leading '-' (string-valued fields only; see Left out) |
| MockData.CeilDiv | apps/frontend/src/data/localStorage.ts:102 | the page count is finite iff perPage is non-zero; dividing by 0 gives NaN for an empty list and Infinity otherwise |
| MockData.CeilDivBounds | apps/frontend/src/data/localStorage.ts:102 | for positive perPage, totalPages is the least number of pages that holds every record |
| MockData.FloorQuotientBounds | apps/frontend/src/data/localStorage.ts:102 | the rounding-down quotient used for a negative perPage lies within one divisor of n |
| MockData.Paginate | apps/frontend/src/data/localStorage.ts:93-105 | page defaults to 1 and perPage to 50; totalItems is the full length, totalPages = ceil(len/perPage), and items is the slice [(page−1)·perPage, page·perPage) |
| MockData.PageWindow | apps/frontend/src/data/localStorage.ts:95-97 | for page, perPage ≥ 1 a page never holds more than perPage records: the window from (page−1)·perPage, cut at the end, or empty past it |
| MockData.PageStart | apps/frontend/src/data/localStorage.ts:95 | a page of positive size starts at (page−1)·perPage, never before the first record |
| MockData.LastPageHoldsRecords | apps/frontend/src/data/localStorage.ts:97-102 | the page numbered totalPages of a non-empty list holds at least one record |
| MockData.PageAfterLastEmpty | apps/frontend/src/data/localStorage.ts:97-102 | the page after totalPages is empty |
| MockData.PageInside | apps/frontend/src/data/localStorage.ts:95-97 | a page starting inside the list is non-empty |
| MockData.PagePastEnd | apps/frontend/src/data/localStorage.ts:95-97 | a page starting at or past the end is empty |
| MockData.LastPageStarts | apps/frontend/src/data/localStorage.ts:95-102 | the last page starts before the end of the list and the following page at or past it |
| MockData.DefaultPageSize | apps/frontend/src/data/localStorage.ts:93-97 | with no page options the result is the first 50 records (or all of them when fewer) |
| MockData.ListQuery | apps/frontend/src/data/localStorage.ts:61-106 | totalItems is the stored length and the page draws its records from the stored list |
| MockData.PaginateWithin | apps/frontend/src/data/localStorage.ts:97 | a page is a sub-multiset of the list |
| MockData.DetailQuery | apps/frontend/src/data/localStorage.ts:123-130 | fails with 'Record not found: id' iff no record has the id; otherwise returns a stored record with that id |
| MockData.MockRecord | apps/frontend/src/data/localStorage.ts:29-48 | the new record's id is 'local_' + the fresh suffix, created = updated = now, collectionId 'local_' + collection, collectionName the collection, and its fields are the data |
| MockData.UpdateRecords | apps/frontend/src/data/localStorage.ts:175-179 | every record with the id gets the data merged in and `updated` set; all other records are unchanged, same length |
| MockData.UpdateMutation | apps/frontend/src/data/localStorage.ts:174-187 | fails with the not-found-for-update message iff no record has the id; otherwise the merged list and the first merged record |
| MockData.DeleteMutation | apps/frontend/src/data/localStorage.ts:210-217 | fails iff no record has the id; otherwise removes every record with the id and keeps the rest in order |
| MockData.FilterDropsMatch | apps/frontend/src/data/localStorage.ts:211-215 | the filtered length equals the original length iff no record has the id |
| MockData.MockStore.List | apps/frontend/src/data/localStorage.ts:62-106 | the imperative query body returns ListQuery of the stored records |
| MockData.MockStore.Detail | apps/frontend/src/data/localStorage.ts:119-131 | the detail query over the stored records |
| MockData.MockStore.Create | apps/frontend/src/data/localStorage.ts:146-151 | appends exactly the new mock record at the end of that collection and touches no other key |
| MockData.MockStore.Update | apps/frontend/src/data/localStorage.ts:174-187 | on a missing id returns the error and writes nothing; otherwise writes the merged list |
| MockData.MockStore.Delete | apps/frontend/src/data/localStorage.ts:209-220 | on nothing removed returns the error and writes nothing; otherwise writes the filtered list and returns the id |
| MockData.UnparsableReadsEmpty | apps/frontend/src/data/localStorage.ts:9-18 | stored text that fails to parse reads as the empty collection |
| QueryKeys.OrEmpty | apps/frontend/src/data/queryKeys.ts:24-26 | `value \|\| ''`: a given string is kept, a missing one becomes '' |
| QueryKeys.CollectionKey | apps/frontend/src/data/queryKeys.ts:14 | the collection key is the one-element array [collection] |
| QueryKeys.ListKey | apps/frontend/src/data/queryKeys.ts:17-28 | starts with the collection key, second element 'list', and carries page (default 1) and perPage (default 50) |
| QueryKeys.DetailKey | apps/frontend/src/data/queryKeys.ts:31-35 | [collection, 'detail', id], prefixed by the collection key |
| QueryKeys.ListAllKey | apps/frontend/src/data/queryKeys.ts:38 | [collection, 'list'], prefixed by the collection key |
| QueryKeys.ListByFilterKey | apps/frontend/src/data/queryKeys.ts:39-43 | extends the listAll key by one element |
| QueryKeys.SearchKey | apps/frontend/src/data/queryKeys.ts:46-51 | prefixed by the collection key and keeps the options as given |
| QueryKeys.CountKey | apps/frontend/src/data/queryKeys.ts:54-58 | prefixed by the collection key, ending in the filter or '' |
| QueryKeys.RelatedKey | apps/frontend/src/data/queryKeys.ts:61-72 | prefixed by the collection key |
| QueryKeys.StaffMemberByUserKey | apps/frontend/src/data/queryKeys.ts:75 | prefixed by the staff_members collection key |
| QueryKeys.CurrentUserStaffMemberKey | apps/frontend/src/data/queryKeys.ts:76 | prefixed by the staff_members collection key |
| QueryKeys.CollectionInvalidationPattern | apps/frontend/src/data/queryKeys.ts:83-86 | a non-exact pattern on the collection key |
| QueryKeys.InvalidationReachesCollection | apps/frontend/src/data/queryKeys.ts:14-86 | the non-exact collection pattern matches a key built by any builder iff the key belongs to that collection |
| QueryKeys.ListDefaults | apps/frontend/src/data/queryKeys.ts:17-28 | list(c, {}) equals list(c, {page: 1, perPage: 50}) and list with empty filter, sort and expand |
| QueryKeys.DetailInjective | apps/frontend/src/data/queryKeys.ts:31-35 | detail keys are equal iff collection and id are |
| QueryKeys.CountDefault | apps/frontend/src/data/queryKeys.ts:54-58 | count(c) equals count(c, '') |
| QueryKeys.ListIsNotDetail | apps/frontend/src/data/queryKeys.ts:17-35 | a list key never equals a detail key |
| QueryKeys.ListAllReachesLists | apps/frontend/src/data/queryKeys.ts:17-43 | a non-exact listAll pattern reaches every list and listByFilter key of the collection but no detail key |
| OptimisticQueue.OperationId | apps/frontend/src/optimistic/optimistic-manager.tsx:30-32 | every operation id starts with 'op_' |
| OptimisticQueue.OperationIdsDiffer | apps/frontend/src/optimistic/optimistic-manager.tsx:30-32 | ids drawn at the same instant differ when their random parts differ |
| OptimisticQueue.ConflictsMeans | apps/frontend/src/optimistic/optimistic-manager.tsx:61-72 | the per-operation branches collapse to: same collection, pending, non-empty recordId equal to the operation's, and not a create |
| OptimisticQueue.AnyConflict | apps/frontend/src/optimistic/optimistic-manager.tsx:58-73 | true iff some queued operation passes the per-operation test |
| OptimisticQueue.NoRecordNoConflict | apps/frontend/src/optimistic/optimistic-manager.tsx:66-69 | without a (non-empty) recordId nothing ever conflicts |
| OptimisticQueue.AnyConflictMeans | apps/frontend/src/optimistic/optimistic-manager.tsx:58-73 | with a recordId, a conflict is reported iff a pending non-create operation of the collection targets that record |
| OptimisticQueue.PendingOf | apps/frontend/src/optimistic/optimistic-manager.tsx:76-80 | exactly the pending operations of the collection (as a multiset), in ascending timestamp order |
| OptimisticQueue.FilterWellKeyed | apps/frontend/src/optimistic/optimistic-manager.tsx:102-110 | keeping some entries of a map keeps its keys distinct and tied to the operation ids |
| OptimisticQueue.WellKeyedTail | apps/frontend/src/optimistic/optimistic-manager.tsx:104 | the rest of a well-keyed map is well keyed |
| OptimisticQueue.WellKeyedCons | apps/frontend/src/optimistic/optimistic-manager.tsx:104-107 | an entry in front of well-keyed entries drawn from the rest stays well keyed |
| OptimisticQueue.CleanupKeepsYoung | apps/frontend/src/optimistic/optimistic-manager.tsx:98-111 | after cleanup(now) an id maps to its operation iff now − timestamp < 300000 ms |
| OptimisticQueue.NotYetKept | apps/frontend/src/optimistic/optimistic-manager.tsx:104-107 | the key the cleanup loop reaches is not in the copy built so far |
| OptimisticQueue.KeepStep | apps/frontend/src/optimistic/optimistic-manager.tsx:104-107 | each loop step's `set` on a fresh key extends the filtered prefix by the entry exactly when it is young |
| OptimisticQueue.KeepYoung | apps/frontend/src/optimistic/optimistic-manager.tsx:102-110 | the loop's new map holds exactly the young entries, in their original order |
| OptimisticQueue.OptimisticManager.constructor | apps/frontend/src/optimistic/optimistic-manager.tsx:13-27 | the queue starts empty, not processing, with a zero conflict count |
| OptimisticQueue.OptimisticManager.AddOperation | apps/frontend/src/optimistic/optimistic-manager.tsx:35-41 | inserts or replaces the entry for operation.id; every other id maps to what it did before |
| OptimisticQueue.OptimisticManager.RemoveOperation | apps/frontend/src/optimistic/optimistic-manager.tsx:44-50 | deletes only the given id; an absent id leaves the queue unchanged |
| OptimisticQueue.OptimisticManager.GetOperation | apps/frontend/src/optimistic/optimistic-manager.tsx:53-55 | the operation stored under the id, if any |
| OptimisticQueue.OptimisticManager.HasConflictingOperations | apps/frontend/src/optimistic/optimistic-manager.tsx:58-73 | the conflict check over the queue, as AnyConflictMeans characterises it |
| OptimisticQueue.OptimisticManager.GetPendingOperations | apps/frontend/src/optimistic/optimistic-manager.tsx:76-80 | the pending operations of the collection in timestamp order |
| OptimisticQueue.OptimisticManager.UpdateOperationStatus | apps/frontend/src/optimistic/optimistic-manager.tsx:83-95 | only the status of an existing operation changes; unknown ids leave the queue unchanged |
| OptimisticQueue.OptimisticManager.Cleanup | apps/frontend/src/optimistic/optimistic-manager.tsx:98-111 | the queue becomes exactly its operations younger than five minutes, in order |
| OptimisticQueue.OptimisticManager.GetState | apps/frontend/src/optimistic/optimistic-manager.tsx:114-119 | reports the queue and the conflict count as they are |
| OptimisticQueue.OptimisticManager.IncrementConflictCount | apps/frontend/src/optimistic/optimistic-manager.tsx:122-124 | raises the counter by exactly 1 and changes nothing else |
| OptimisticHooks.RealtimeDelete | apps/frontend/src/optimistic/optimistic-hooks.tsx:143-154 | an absent cache or a missing/empty event id leaves the cache untouched; otherwise the total drops by one (never below 0) and exactly the records with other ids are kept, in order |
| OptimisticHooks.RealtimeDeleteRemoves | apps/frontend/src/optimistic/optimistic-hooks.tsx:146-151 | after a realtime delete event no cached record carries the deleted id |
| OptimisticHooks.TempId | apps/frontend/src/optimistic/optimistic-hooks.tsx:224 | temporary ids always start with 'temp_' |
| OptimisticHooks.OptimisticRecord | apps/frontend/src/optimistic/optimistic-hooks.tsx:227-244 | the placeholder record takes the given temp id (or a fresh one), created = updated = now, the submitted fields, collectionId 'temp_' + collection and the collection's name |
| OptimisticHooks.OptimisticCreate | apps/frontend/src/optimistic/optimistic-hooks.tsx:293-314 | an uncached list stays uncached; if no cached record matches the temp id or the placeholder, the placeholder is appended and the total rises by one; if one matches, list and total are unchanged |
| OptimisticHooks.OptimisticCreateOnce | apps/frontend/src/optimistic/optimistic-hooks.tsx:300-308 | applying the optimistic create twice (a rapid double click) has the same effect as applying it once |
| OptimisticHooks.OptimisticDelete | apps/frontend/src/optimistic/optimistic-hooks.tsx:472-501 | the records with the deleted id are dropped, the others kept in order, and the total falls by one but never below zero |
| OptimisticHooks.OptimisticDeleteAbsent | apps/frontend/src/optimistic/optimistic-hooks.tsx:494-499 | deleting an id that is not cached still decrements the total, so the count can drift from the list |
| OptimisticHooks.OptimisticUpdate | apps/frontend/src/optimistic/optimistic-hooks.tsx:632-666 | the total and the list length are kept; each record with the target id gets the submitted fields merged over its own and the new updated time, every other record is unchanged |
| OptimisticHooks.OptimisticDetail | apps/frontend/src/optimistic/optimistic-hooks.tsx:669-684 | a cached detail gets the submitted fields merged over its own and the new updated time; an uncached one stays uncached |
| OptimisticHooks.ReplaceById | apps/frontend/src/optimistic/optimistic-hooks.tsx:386-391 | same length; exactly the records whose id matches are replaced by the server record |
| OptimisticHooks.SwapInServerRecord | apps/frontend/src/optimistic/optimistic-hooks.tsx:381-393 | on success the cached list keeps its total and has the matching records replaced by the server record; an uncached list stays uncached |
| OptimisticHooks.CreateThenSwap | apps/frontend/src/optimistic/optimistic-hooks.tsx:293-314 | an optimistic create followed by the success swap leaves the earlier records and a total one higher, with the server record in the placeholder's place at the end |
| OptimisticHooks.UpdateThenSwap | apps/frontend/src/optimistic/optimistic-hooks.tsx:740-745 | the success swap after an optimistic update equals swapping the server record into the list as it was before the update |
| OptimisticHooks.RetryDelay | apps/frontend/src/optimistic/optimistic-hooks.tsx:53 | a retry waits between 1 and 30 seconds |
| OptimisticHooks.RetryDelaySchedule | apps/frontend/src/optimistic/optimistic-hooks.tsx:53 | delays are 1000·2^n ms for attempts 0..4, doubling each step, and capped at 30000 ms from attempt 5 on |
| OptimisticHooks.DetailRetries | apps/frontend/src/optimistic/optimistic-hooks.tsx:78-82 | a 404 is never retried; any other failure is retried exactly when the list query would be (fewer than 3 failures) |
| OptimisticHooks.ReconnectDelay | apps/frontend/src/optimistic/optimistic-hooks.tsx:177-188 | a reconnect is scheduled iff fewer than 5 attempts were made, after the same capped exponential delay |
| OptimisticHooks.ReconnectBelowCap | apps/frontend/src/optimistic/optimistic-hooks.tsx:178-179 | every scheduled reconnect waits exactly 1000·2^n ms, at most 16 seconds, so the 30 s cap is never reached |
| OptimisticHooks.RetryCounter.OnError | apps/frontend/src/optimistic/optimistic-hooks.tsx:341-372 | with a context the counter rises by one; a refresh is forced and the counter reset exactly when it then exceeds 3 |
| OptimisticHooks.RetryCounter.OnSuccess | apps/frontend/src/optimistic/optimistic-hooks.tsx:408-409 | a success resets the counter to zero |
| OptimisticHooks.FourthFailureRefreshes | apps/frontend/src/optimistic/optimistic-hooks.tsx:357-371 | from a reset counter, only the fourth consecutive failure forces a refresh |
| OptimisticHooks.RegisterCreate | apps/frontend/src/optimistic/optimistic-hooks.tsx:257-278 | the pending create is queued under its id and the conflict counter is never raised, as the record-less check cannot fire |
| OptimisticHooks.RegisterChange | apps/frontend/src/optimistic/optimistic-hooks.tsx:591-610 | the pending update or delete is queued, the conflict check runs on the queue that already holds it, and the counter rises by one exactly when it reports a conflict |
| OptimisticHooks.SelfConflict | apps/frontend/src/optimistic/optimistic-hooks.tsx:605-608 | as written, an update or delete with a non-empty record id always reports a conflict with itself |
| OptimisticHooks.ConflictsWithOthers | apps/frontend/src/optimistic/optimistic-manager.tsx:58-73 | true iff some queued operation other than the new one conflicts on the same record |
| OptimisticHooks.NoOtherNoConflict | apps/frontend/src/optimistic/optimistic-hooks.tsx:605-608 | when no other queued operation touches the record, the corrected check reports no conflict |
| OptimisticHooks.RegisterChangeChecked | apps/frontend/src/optimistic/optimistic-hooks.tsx:591-610 | corrected registration: the operation is queued and the counter rises exactly when some other operation conflicts with it |
| OptimisticHooks.RetryCounter.constructor | apps/frontend/src/optimistic/optimistic-hooks.tsx:250 | the create mutation's retry counter starts at zero |
| ThemeSystem.BuiltInRegistry | apps/frontend/src/lib/theme-system.ts:409-416 | the constructor registers exactly Default Light, Dark and High Contrast, in that order, each under its own name, and no other name |
| ThemeSystem.CustomTheme | apps/frontend/src/lib/theme-system.ts:556-572 | missing or empty name, description, author and version fall back to their defaults; each section is the default theme's section with the given entries laid over it; dark only when isDark is true |
| ThemeSystem.EmptyCustomTheme | apps/frontend/src/lib/theme-system.ts:556-572 | with no data the custom theme is the default theme's styling under the name 'Custom Theme', the custom description and author 'User', and light |
| ThemeSystem.CustomColorsShallow | apps/frontend/src/lib/theme-system.ts:562 | the colour merge is shallow: a given colour group replaces the default group whole and the other groups stay as the default's |
| ThemeSystem.ToggleTarget | apps/frontend/src/lib/theme-system.ts:602-609 | a dark current theme toggles to Default Light and a light one to Dark |
| ThemeSystem.ToggleBuiltIns | apps/frontend/src/lib/theme-system.ts:602-609 | Default Light toggles to Dark, Dark to Default Light, and High Contrast, being dark, to Default Light rather than back to itself |
| ThemeSystem.HyphenateRemovesWhitespace | apps/frontend/src/lib/theme-system.ts:514 | replacing whitespace runs by '-' leaves no whitespace and never lengthens the text |
| ThemeSystem.HyphenateIdentity | apps/frontend/src/lib/theme-system.ts:514 | a name without whitespace passes through the replacement unchanged |
| ThemeSystem.DataTheme | apps/frontend/src/lib/theme-system.ts:514 | the data-theme attribute, the name lower-cased with `toLowerCase` as JsText models it (see Left out) with whitespace runs replaced by '-', contains no whitespace |
| ThemeSystem.DataThemeTwoWords | apps/frontend/src/lib/theme-system.ts:514 | a two-word name such as 'High Contrast' becomes its words, lower-cased with `toLowerCase` as JsText models it (see Left out), joined by a single hyphen |
| ThemeSystem.ThemeManager.constructor | apps/frontend/src/lib/theme-system.ts:409-420 | the built-ins are registered with no listeners; a saved preference naming a registered theme is applied (current theme, document attributes, saved value), otherwise Default Light stays current and the document untouched |
| ThemeSystem.ThemeManager.RegisterTheme | apps/frontend/src/lib/theme-system.ts:430-432 | the theme is stored under its name, replacing any theme of that name in place and leaving every other name and all other state as it was |
| ThemeSystem.ThemeManager.GetThemes | apps/frontend/src/lib/theme-system.ts:435-437 | the registered themes in registration order |
| ThemeSystem.ThemeManager.GetCurrentTheme | apps/frontend/src/lib/theme-system.ts:440-442 | the current theme |
| ThemeSystem.ThemeManager.ApplyTheme | apps/frontend/src/lib/theme-system.ts:445-455 | false and no change for an unregistered name; otherwise true, the theme becomes current, the dark class and data-theme attribute follow it, the name is saved and every listener is called with it in subscription order |
| ThemeSystem.ThemeManager.Subscribe | apps/frontend/src/lib/theme-system.ts:539-548 | the callback is added once and called immediately with the current theme; nothing else changes |
| ThemeSystem.ThemeManager.Unsubscribe | apps/frontend/src/lib/theme-system.ts:545-547 | removes exactly that callback and changes nothing else |
| ThemeSystem.ThemeManager.CreateCustomTheme | apps/frontend/src/lib/theme-system.ts:556-572 | the merged custom theme, registry untouched |
| ThemeSystem.ThemeManager.ExportTheme | apps/frontend/src/lib/theme-system.ts:575-580 | null exactly for an unregistered name, otherwise the registered theme |
| ThemeSystem.ThemeManager.ImportTheme | apps/frontend/src/lib/theme-system.ts:583-594 | unparsable text gives false and registers nothing; otherwise the custom theme built from it is registered under its name and true returned; either way the current theme, listeners, listener calls, saved preference, data-theme attribute and dark class are unchanged |
| ThemeSystem.ThemeManager.ResetToDefault | apps/frontend/src/lib/theme-system.ts:597-599 | when Default Light is registered, it becomes current, 'Default Light' is saved as the preference, the data-theme attribute and the dark class follow it, and every listener is called with it; otherwise nothing changes; themes and listeners are unchanged |
| ThemeSystem.ThemeManager.ToggleDarkMode | apps/frontend/src/lib/theme-system.ts:602-609 | when the toggle target of the current theme (Default Light from a dark theme, Dark from a light one) is registered, it becomes current, is saved as the preference, sets the data-theme attribute and the dark class, and every listener is called with it; otherwise nothing changes; themes and listeners are unchanged |
| ThemeSystem.ToggleTwice | apps/frontend/src/lib/theme-system.ts:602-609 | toggling twice from Default Light or from Dark comes back to the same theme |
| AuthTypes.FromSnapshot | apps/frontend/src/data/auth/local-auth.ts:53-55 | the store's state mirrors the layer's snapshot: same user and role, authenticated exactly when a user is present, not loading, no error |
| AuthTypes.SignedOutSnapshot | apps/frontend/src/data/auth/local-auth.ts:43-47 | the empty snapshot left by logout gives back the signed-out state |
| Auth.ValidateEmail | apps/frontend/src/auth/AuthContext.tsx:14-17 | true exactly for text of the form local@domain.tld: non-empty parts with no whitespace or second '@', and a dot inside the domain with text on both sides |
| Auth.WhitespaceRefused | apps/frontend/src/auth/AuthContext.tsx:15 | an address with whitespace anywhere, even at an end, is refused |
| Auth.NormalizedStillValid | apps/frontend/src/auth/AuthContext.tsx:49 | a valid address is unchanged by the trim after lower-casing (`toLowerCase` as JsText models it, see Left out), and its lower-cased form is valid too |
| Auth.ValidatePassword | apps/frontend/src/auth/AuthContext.tsx:19-34 | the messages of exactly the broken rules, in rule order (length, lower case, upper case, digit); empty iff the password is at least 8 UTF-16 code units long and holds a lower-case letter, an upper-case letter and a digit |
| Auth.FailingIsFiltered | apps/frontend/src/auth/AuthContext.tsx:20-33 | checking the rules one by one yields exactly the messages of the rules that are broken |
| Auth.StrongPasswordPasses | apps/frontend/src/auth/AuthContext.tsx:19-34 | a password of 8 or more UTF-16 code units holding a lower-case letter, an upper-case letter and a digit draws no message |
| Auth.AstralPasswordLongEnough | apps/frontend/src/auth/AuthContext.tsx:21 | the length rule counts UTF-16 code units: four characters outside the Basic Multilingual Plane meet it, four ASCII letters do not |
| Auth.CheckCredentials | apps/frontend/src/auth/AuthContext.tsx:41-49 | an invalid address fails with the e-mail message, an empty password then with 'Password is required'; otherwise success with the trimmed address, lower-cased with `toLowerCase` as JsText models it (see Left out) |
| Auth.CredentialsAddress | apps/frontend/src/auth/AuthContext.tsx:49 | the address a successful login hands to the layer is the input lower-cased with `toLowerCase` as JsText models it (see Left out), and is itself valid |
| Auth.CheckRegistration | apps/frontend/src/auth/AuthContext.tsx:103-127 | the e-mail, password rules (messages joined by '. '), confirmation and given-name-length (UTF-16 code units of the trimmed name) checks fail in that order with their messages; success exactly when all pass, carrying the trimmed address lower-cased with `toLowerCase` as JsText models it (see Left out) and the trimmed name or '' |
| Auth.RegistrationAddress | apps/frontend/src/auth/AuthContext.tsx:123 | the address a successful registration hands on is the input lower-cased with `toLowerCase` as JsText models it (see Left out), and is itself valid |
| Auth.RegistrationPassword | apps/frontend/src/auth/AuthContext.tsx:108-115 | a successful registration's password is at least 8 UTF-16 code units long, meets the other three rules and equals its confirmation |
| Auth.RegistrationName | apps/frontend/src/auth/AuthContext.tsx:117-126 | the name handed on is empty or at least two UTF-16 code units long, with nothing left to trim |
| Auth.WeakPasswordFirst | apps/frontend/src/auth/AuthContext.tsx:108-111 | a valid address with a weak password is refused with exactly that password's messages, before the confirmation is compared |
| Auth.AuthProvider.ClearError | apps/frontend/src/auth/AuthContext.tsx:11 | clears the error and nothing else |
| Auth.AuthProvider.Login | apps/frontend/src/auth/AuthContext.tsx:36-66 | a failed check leaves the layer untouched and records its message as the error; otherwise the demo user is signed in with role user, every listener is notified and the store mirrors the new snapshot; never left loading |
| Auth.AuthProvider.LoginAsAdmin | apps/frontend/src/auth/AuthContext.tsx:68-96 | as Login, but the demo admin is signed in with role admin |
| Auth.AuthProvider.Register | apps/frontend/src/auth/AuthContext.tsx:98-144 | a failed check records its message and leaves the layer; otherwise the layer signs the user in and the store holds the snapshot the listeners were notified with |
| Auth.AuthProvider.Logout | apps/frontend/src/auth/AuthContext.tsx:146-162 | always completes: nobody is signed in, the listeners are told of the empty snapshot, and the store is signed out and not loading |
| LocalAuth.DemoUser | apps/frontend/src/data/auth/local-auth.ts:13-20 | the demo user has id local_user, the given e-mail, name 'Demo User', is verified and created = updated = now |
| LocalAuth.DemoAdmin | apps/frontend/src/data/auth/local-auth.ts:26-33 | the demo admin has id local_admin, the given e-mail, name 'Demo Admin', is verified and created = updated = now |
| LocalAuth.RegisterAsWritten | apps/frontend/src/data/auth/local-auth.ts:38-41 | the listeners see the demo user signed in with role user; afterwards the layer holds that user renamed to the given name when it is truthy |
| LocalAuth.RegisterNotifiesStaleName | apps/frontend/src/data/auth/local-auth.ts:38-41 | with a non-demo name, what the listeners are told differs from what the layer ends up holding: they still see 'Demo User' |
| LocalAuth.Registered | apps/frontend/src/data/auth/local-auth.ts:38-41 | the registration as intended: the demo user carrying the given truthy name (or the demo name), role user |
| LocalAuth.RegisteredMatchesFinalState | apps/frontend/src/data/auth/local-auth.ts:38-41 | the intended registration ends in the same state as the written one; without a name both also notify the same snapshot |
| LocalAuth.LocalAuthLayer.constructor | apps/frontend/src/data/auth/local-auth.ts:3-5 | nobody is signed in and there are no listeners |
| LocalAuth.LocalAuthLayer.GetSnapshot | apps/frontend/src/data/auth/local-auth.ts:53-55 | the snapshot is the current user and role |
| LocalAuth.LocalAuthLayer.Login | apps/frontend/src/data/auth/local-auth.ts:12-23 | the demo user with the given e-mail becomes current with role user and every listener is called once, in subscription order |
| LocalAuth.LocalAuthLayer.LoginAsAdmin | apps/frontend/src/data/auth/local-auth.ts:25-36 | the demo admin becomes current with role admin and every listener is called once |
| LocalAuth.LocalAuthLayer.RegisterThenNotify | apps/frontend/src/data/auth/local-auth.ts:38-41 | the name is set before the listeners are notified: the layer holds the intended registration and every listener is told exactly that snapshot |
| LocalAuth.LocalAuthLayer.Register | apps/frontend/src/data/auth/local-auth.ts:38-41 | listeners are notified of the plain demo user; the layer then holds the user with the given name |
| LocalAuth.LocalAuthLayer.Logout | apps/frontend/src/data/auth/local-auth.ts:43-47 | user and role are cleared and every listener is called with the empty snapshot |
| LocalAuth.LocalAuthLayer.Subscribe | apps/frontend/src/data/auth/local-auth.ts:57-58 | adds the callback once; the user, role and past calls are unchanged |
| LocalAuth.LocalAuthLayer.Unsubscribe | apps/frontend/src/data/auth/local-auth.ts:59 | removes exactly that callback |
| ListenerSet.Add | apps/frontend/src/data/auth/local-auth.ts:58 | a Set add: the listener is present afterwards, nothing else is added, an existing one leaves the set as it was, and distinctness is kept |
| ListenerSet.Remove | apps/frontend/src/data/auth/local-auth.ts:59 | a Set delete: the listener is gone, every other listener stays, and removing an absent one changes nothing |
| ListenerSet.RemoveDistinct | apps/frontend/src/data/auth/local-auth.ts:59 | removing a listener keeps the set free of duplicates |
| ListenerSet.RemoveAfterAdd | apps/frontend/src/data/auth/local-auth.ts:58-59 | unsubscribing a callback that was newly subscribed restores the set as it was |
| ListenerSet.Notify | apps/frontend/src/data/auth/local-auth.ts:22 | one call per listener, in subscription order, each with the same value |
| Auth.AuthProvider.constructor | apps/frontend/src/auth/AuthContext.tsx:11 | the provider's state starts as the layer's current snapshot |
| Access.RouteAllows | apps/frontend/src/components/ProtectedRoute.tsx:14-29 | never while loading or signed out; with no required role any signed-in user passes; 'admin' admits exactly admins; 'user' admits exactly users and admins |
| Access.Guard | apps/frontend/src/components/ProtectedRoute.tsx:12-34 | the children are shown iff the route allows; otherwise the given fallback, or the 'Access denied' element when none or an empty one is given |
| Access.HasRequiredRole | apps/frontend/src/auth/useRequireRule.ts:7-17 | false without an authenticated user; 'admin' needs role admin, 'user' accepts user or admin |
| Access.CanAccess | apps/frontend/src/auth/useRequireRule.ts:19-22 | access implies not loading, authenticated and a user present |
| Access.AdminImpliesUser | apps/frontend/src/auth/useRequireRule.ts:11-16 | in both guards admin access implies user access, which implies plain signed-in access |
| Access.CanAccessIsRoute | apps/frontend/src/auth/useRequireRule.ts:19-22 | canAccess is the route's condition plus a present user; when the authenticated flag and the user agree they coincide |
| Access.GuardsAgreeOnSnapshots | apps/frontend/src/auth/useRequireRule.ts:19-22 | on every state derived from the layer's snapshot, the hook and the route guard give the same answer |
| Access.StaffRolesNeedNoRole | apps/frontend/src/components/ProtectedRoute.tsx:20-26 | receptionists, dentists and managers fail every role requirement in both guards |
| DentalChart.PermanentNumbers | apps/frontend/src/components/dental/DentalChart.tsx:33-35 | the permanent dentition is the 32 teeth numbered '1' to '32' in order |
| DentalChart.PermanentNumbersDistinct | apps/frontend/src/components/dental/DentalChart.tsx:33-35 | no permanent tooth number occurs twice |
| DentalChart.PrimaryLettersSpelled | apps/frontend/src/components/dental/DentalChart.tsx:37-40 | the primary dentition is the 20 letters 'A' to 'T' in order, all distinct |
| DentalChart.TeethList | apps/frontend/src/components/dental/DentalChart.tsx:54-57 | 'primary' lists the letters, any other or missing dentition the 32 numbers; either way no id repeats |
| DentalChart.TogglePresence | apps/frontend/src/components/dental/DentalChart.tsx:70-76 | the tooth's shown presence flips (a tooth without an entry is created and marked missing); every other tooth is unchanged |
| DentalChart.ToggleTwice | apps/frontend/src/components/dental/DentalChart.tsx:70-76 | toggling twice restores what is shown, and the chart itself when the tooth had an entry |
| DentalChart.EnsureTooth | apps/frontend/src/components/dental/DentalChart.tsx:62-68 | emits a copy only when the tooth has no entry, and that copy adds it present with no conditions |
| DentalChart.SetCondition | apps/frontend/src/components/dental/DentalChart.tsx:84 | the selected surface of a listed tooth gets the selected condition; its presence, notes, other surfaces and every other tooth are unchanged |
| DentalChart.ToggleClick | apps/frontend/src/components/dental/DentalChart.tsx:70-76 | never throws; emits nothing when read-only or without onChange, otherwise exactly the toggled chart |
| DentalChart.ApplyClickAsWritten | apps/frontend/src/components/dental/DentalChart.tsx:78-86 | read-only does nothing; a listed tooth gets the condition; an unlisted tooth throws unless onChange exists and the parent has written the first copy back |
| DentalChart.ApplyToUnlistedToothThrows | apps/frontend/src/components/dental/DentalChart.tsx:80-84 | Apply on a tooth without an entry throws when the parent has not written the ensured copy back |
| DentalChart.ApplyCondition | apps/frontend/src/components/dental/DentalChart.tsx:78-86 | intended Apply: the surface carries the condition, an unlisted tooth is created present with only that condition, and other teeth are unchanged |
| DentalChart.ApplyClick | apps/frontend/src/components/dental/DentalChart.tsx:78-86 | the corrected handler never throws and emits exactly the ApplyCondition chart unless read-only or without onChange |
| DentalChart.AsWrittenAgreesWhenItWorks | apps/frontend/src/components/dental/DentalChart.tsx:78-86 | whenever the written handler does not throw, the last chart it emits is the intended one |
| AppointmentCalendar.JsRem | apps/frontend/src/components/AppointmentCalendar.tsx:170 | JavaScript's remainder: the Euclidean one for non-negative operands, otherwise between -b and 0 |
| AppointmentCalendar.DisplayHour | apps/frontend/src/components/AppointmentCalendar.tsx:170 | an unparsable hour shows as 12; a non-negative hour shows as hour mod 12, with 0 shown as 12 |
| AppointmentCalendar.FormatTime | apps/frontend/src/components/AppointmentCalendar.tsx:166-172 | the display hour, a colon, the text between the first and the second colon (all of the rest when there is no second colon; 'undefined' when there is no colon), then PM exactly when the parsed hour is at least 12, else AM |
| JsText.ParseInt | apps/frontend/src/components/AppointmentCalendar.tsx:168 | `parseInt(hours)` is NaN exactly when no digit of the selected base follows the whitespace and sign; otherwise it is the digits' value, negated after a minus |
| JsText.UnsignedPart | apps/frontend/src/components/AppointmentCalendar.tsx:168 | after `0x` or `0X` the hexadecimal digits are read, otherwise the decimal ones; NaN exactly when none follow |
| JsText.ParseHex | apps/frontend/src/components/AppointmentCalendar.tsx:168 | "0x1f" parses as 31 |
| JsText.ParseNegativeHex | apps/frontend/src/components/AppointmentCalendar.tsx:168 | "-0X10" parses as -16: the sign comes before the prefix |
| JsText.ParseBarePrefix | apps/frontend/src/components/AppointmentCalendar.tsx:168 | "0x" with no digit after it is NaN, not 0 |
| AppointmentCalendar.TwelveHour | apps/frontend/src/components/AppointmentCalendar.tsx:170 | the 12-hour value lies in 1..12, agrees with the hour mod 12, and is 12 exactly at midnight and noon |
| AppointmentCalendar.FormatWellFormedTime | apps/frontend/src/components/AppointmentCalendar.tsx:166-172 | a zero-padded 'HH:MM' time formats as its 12-hour value, the minutes unchanged, and PM exactly from noon on |
| AppointmentCalendar.Midnight | apps/frontend/src/components/AppointmentCalendar.tsx:169-170 | 00:MM shows as 12:MM AM |
| AppointmentCalendar.Noon | apps/frontend/src/components/AppointmentCalendar.tsx:169-170 | 12:MM shows as 12:MM PM |
| AppointmentCalendar.SlotLabel | apps/frontend/src/components/AppointmentCalendar.tsx:185 | every slot label is two digits followed by ':00' |
| AppointmentCalendar.GetTimeSlots | apps/frontend/src/components/AppointmentCalendar.tsx:182-188 | eleven slots, one per hour from 8 to 18, in order |
| AppointmentCalendar.SlotLabelsAscend | apps/frontend/src/components/AppointmentCalendar.tsx:182-188 | a later hour's label sorts strictly after an earlier one's, so the slots ascend in string order |
| AppointmentCalendar.SlotEnds | apps/frontend/src/components/AppointmentCalendar.tsx:184-185 | the first slot is 08:00 and the last 18:00 |
| AppointmentCalendar.GetWeekDays | apps/frontend/src/components/AppointmentCalendar.tsx:190-198 | seven valid dates, consecutive from the start date |
| AppointmentCalendar.WeekStart | apps/frontend/src/components/AppointmentCalendar.tsx:571-572 | the weekly view starts on the Sunday on or before the current date |
| AppointmentCalendar.GridStartsOnSunday | apps/frontend/src/components/AppointmentCalendar.tsx:206-210 | the month grid's first cell is a Sunday |
| AppointmentCalendar.LeadingCell | apps/frontend/src/components/AppointmentCalendar.tsx:207-208 | the day built with day -i is i+1 days before the first of the month |
| AppointmentCalendar.CurrentCell | apps/frontend/src/components/AppointmentCalendar.tsx:213-214 | the day built with day d of the month is that date, d-1 days after the first |
| AppointmentCalendar.TrailingCell | apps/frontend/src/components/AppointmentCalendar.tsx:220-221 | the day built in the following month with day d lies d-1 days after the month's last day + 1 |
| AppointmentCalendar.LastDayOfMonth | apps/frontend/src/components/AppointmentCalendar.tsx:202 | day 0 of the next month is the last day of this month |
| AppointmentCalendar.GetMonthDays | apps/frontend/src/components/AppointmentCalendar.tsx:200-226 | 42 consecutive valid dates from the Sunday on or before the first; exactly the cells of the month itself are marked current, and they are its days 1 to the last, in order |
| AppointmentCalendar.LeadingDays | apps/frontend/src/components/AppointmentCalendar.tsx:205-210 | the previous month's days before the first, oldest first, none marked current |
| AppointmentCalendar.CurrentDays | apps/frontend/src/components/AppointmentCalendar.tsx:212-216 | every day of the month in order, each marked current |
| AppointmentCalendar.TrailingDays | apps/frontend/src/components/AppointmentCalendar.tsx:218-223 | the next month's days from its first, none marked current |
| AppointmentCalendar.SplitGrid | apps/frontend/src/components/AppointmentCalendar.tsx:200-226 | the three runs joined form the 42-day grid GetMonthDays promises |
| AppointmentCalendar.NavigateDate | apps/frontend/src/components/AppointmentCalendar.tsx:534-550 | a valid date one day, seven days or one calendar month (JavaScript month arithmetic) back or forth, by view |
| AppointmentCalendar.NavigateRoundTrip | apps/frontend/src/components/AppointmentCalendar.tsx:534-550 | in the daily and weekly views, next then previous (or previous then next) returns the same date |
| AppointmentCalendar.WeeklyStepKeepsSunday | apps/frontend/src/components/AppointmentCalendar.tsx:542-572 | a weekly step moves the week's Sunday by exactly seven days |
| AppointmentCalendar.Cards | apps/frontend/src/components/AppointmentCalendar.tsx:415-429 | the shown cards are a prefix of at most cap appointments; shown plus hidden equals all; something is hidden iff there are more than cap |
| AppointmentCalendar.WeeklyCell | apps/frontend/src/components/AppointmentCalendar.tsx:415-429 | at most three cards, and a '+n more' note exactly when more than three appointments fall on the day, n being the rest |
| AppointmentCalendar.MonthlyCell | apps/frontend/src/components/AppointmentCalendar.tsx:486-500 | at most two entries, and a '+n' note exactly when more than two appointments fall on the day |
| PatientsPage.FirstLetter | apps/frontend/src/routes/patients/index.tsx:41-42 | at most one character: empty exactly for a blank name, otherwise the first non-whitespace character (a whole character, not a UTF-16 code unit; see Left out) |
| PatientsPage.Initials | apps/frontend/src/routes/patients/index.tsx:40-44 | at most two characters, empty exactly when both names are blank; the first letter of each non-blank name upper-cased with `toUpperCase` as JsText models it, first name first (the bound of two relies on that mapping; see Left out) |
| PatientsPage.Age | apps/frontend/src/routes/patients/index.tsx:50-52 | the largest number of years whose birthday has been reached by today |
| PatientsPage.AgeUnique | apps/frontend/src/routes/patients/index.tsx:50-52 | exactly one count of years has its birthday reached with the next one not yet reached, so the age is determined |
| PatientsPage.AgeOnBirthday | apps/frontend/src/routes/patients/index.tsx:50-52 | on the birthday itself the age is the difference of the years |
| PatientsPage.AgeText | apps/frontend/src/routes/patients/index.tsx:46-54 | '-' exactly for a missing or unparsable date of birth, otherwise the age in decimal |
| PatientsPage.SearchStage | apps/frontend/src/routes/patients/index.tsx:59-70 | an empty trimmed term keeps everyone; otherwise exactly the patients whose 'first last', e-mail or phone contains the term, both lower-cased with `toLowerCase` as JsText models it (see Left out) |
| PatientsPage.BlankSearchKeepsAll | apps/frontend/src/routes/patients/index.tsx:60-61 | a search of whitespace only filters nothing out |
| PatientsPage.SexStage | apps/frontend/src/routes/patients/index.tsx:72-74 | 'all' keeps everyone; otherwise exactly the patients of that sex, in order |
| PatientsPage.FilteredPatients | apps/frontend/src/routes/patients/index.tsx:56-94 | a permutation of the patients that pass the search (with its case mapping, see Left out) and the sex filter; a patient appears iff it passes both |
| PatientsPage.SortLePreorderDated | apps/frontend/src/routes/patients/index.tsx:78-91 | every sort order is total and transitive on patients with a parsable date of birth |
| PatientsPage.SortLePreorderNames | apps/frontend/src/routes/patients/index.tsx:79-85 | the name orders are total and transitive on all patients |
| PatientsPage.FilteredPatientsSorted | apps/frontend/src/routes/patients/index.tsx:76-93 | the list comes out sorted by the chosen order (for the date orders, when every date of birth parses) |
| PatientsPage.FilteredPatientsLength | apps/frontend/src/routes/patients/index.tsx:56-94 | with no search nothing beyond the sex filter is dropped, and with 'all' the list is a permutation of the loaded one |
| PatientsPage.CountsCoverItems | apps/frontend/src/routes/patients/index.tsx:96-97 | every loaded patient is counted by exactly one of the male and female counters |
| Sidebar.ActiveNavItemMeans | apps/frontend/src/components/Sidebar.tsx:414-418 | as written, '/' is active only on '/', and any other entry is active on every path that merely starts with its text |
| Sidebar.PrefixWithoutSeparatorIsActive | apps/frontend/src/components/Sidebar.tsx:416-417 | as written, '/patientsX' highlights the '/patients' entry |
| Sidebar.ActiveSegmentMeans | apps/frontend/src/components/Sidebar.tsx:414-418 | the corrected rule is active on the entry's own path or a path below it after a '/', implies the written rule, and does not highlight '/patients' on '/patientsX' |
| Sidebar.InitialUi | apps/frontend/src/components/Sidebar.tsx:395-397 | search and mobile menu closed, collapsed as the defaultCollapsed prop says (false when absent) |
| Sidebar.KeyDown | apps/frontend/src/components/Sidebar.tsx:434-447 | '/' outside a form field opens a closed search; otherwise Escape closes an open mobile menu; the default is prevented exactly when one of these happens, and the collapsed flag never changes |
| Sidebar.KeyDownIgnored | apps/frontend/src/components/Sidebar.tsx:434-447 | any key other than '/' and Escape changes nothing and is not prevented |
| Sidebar.KeyDownMonotone | apps/frontend/src/components/Sidebar.tsx:434-447 | a key press never closes the search and never opens the mobile menu |
| Sidebar.ToggleCollapsed | apps/frontend/src/components/Sidebar.tsx:459-463 | flips the collapsed flag and reports the new value to onCollapse, leaving the search and menu alone |
| Sidebar.CloseMobileMenu | apps/frontend/src/components/Sidebar.tsx:465-469 | the mobile menu ends closed and nothing else changes |
| Sidebar.TogglesLaws | apps/frontend/src/components/Sidebar.tsx:449-469 | closing the menu is idempotent and each toggle undone by a second toggle |
| Sidebar.ToggleSearch | apps/frontend/src/components/Sidebar.tsx:449 | flips the search and nothing else |
| Sidebar.ToggleMobileMenu | apps/frontend/src/components/Sidebar.tsx:451-457 | flips the mobile menu and nothing else |
| Sidebar.ToggleExpanded | apps/frontend/src/components/Sidebar.tsx:321-326 | an entry with sub-items flips its expansion and prevents the default; one without keeps it and lets the click through |
| Sidebar.SidebarComponent.HandleKeyDown | apps/frontend/src/components/Sidebar.tsx:434-447 | the component's state and the prevented flag are those KeyDown gives |
| Sidebar.SidebarComponent.OnToggleSearch | apps/frontend/src/components/Sidebar.tsx:449 | the state becomes ToggleSearch of the old one |
| Sidebar.SidebarComponent.OnToggleMobileMenu | apps/frontend/src/components/Sidebar.tsx:451-457 | the state becomes ToggleMobileMenu of the old one |
| Sidebar.SidebarComponent.OnToggleCollapsed | apps/frontend/src/components/Sidebar.tsx:459-463 | the state and reported value are ToggleCollapsed of the old state |
| Sidebar.SidebarComponent.OnCloseMobileMenu | apps/frontend/src/components/Sidebar.tsx:465-469 | the state becomes CloseMobileMenu of the old one |
| NavSections.SectionKey | apps/frontend/src/components/Sidebar.tsx:405 | an item's section, or 'main' when it has none; never empty |
| NavSections.GroupItems | apps/frontend/src/components/layout/Sidebar1.tsx:70-79 | the `Map` variant: one group per section with a visible item, in order of first appearance, each holding exactly that section's visible items in input order |
| NavSections.GroupItemsAsObject | apps/frontend/src/components/Sidebar.tsx:400-411 | the plain-object variant: a TypeError exactly when a visible item's section is a name inherited from `Object.prototype`; otherwise every group holds exactly its section's visible items in input order, and the sections come in `Object.keys` order of first appearance |
| NavSections.ObjectEntries | apps/frontend/src/components/Sidebar.tsx:572 | `Object.entries`: the keys in `Object.keys` order, each with the object's own value for it |
| NavSections.ObjectKeyOrderSpec | apps/frontend/src/components/Sidebar.tsx:572 | `Object.keys` order: the integer-like keys come first, ascending by value, and the other keys follow in creation order |
| NavSections.PlainKeysKeepOrder | apps/frontend/src/components/Sidebar.tsx:572 | with no integer-like key, `Object.keys` order is creation order, as for a `Map` |
| NavSections.NumericSectionFirst | apps/frontend/src/components/Sidebar.tsx:572 | a section "2" created after "main" is listed before it |
| Grouping.GroupBy | apps/frontend/src/components/layout/Sidebar1.tsx:70-79 | the loop builds the groups of the specification: distinct keys, each key's list the kept items under it in order, absent when there are none |
| Grouping.GroupedSpec | apps/frontend/src/components/layout/Sidebar1.tsx:70-79 | the grouped map has distinct keys and maps each key to exactly the kept items with that key, in input order |
| Grouping.KeysInFirstAppearanceOrder | apps/frontend/src/components/layout/Sidebar1.tsx:75 | the groups come out in the order their keys first appear among the kept items |
| Grouping.FirstOccurrencesMembers | apps/frontend/src/components/layout/Sidebar1.tsx:75 | the first occurrences hold every key once and no other |
| Grouping.GroupsKeepOrder | apps/frontend/src/components/layout/Sidebar1.tsx:72-77 | grouping a sorted list leaves every group sorted |
| SidebarLayout.ActiveMeans | apps/frontend/src/components/layout/Sidebar1.tsx:68 | an entry is highlighted exactly on its own path and on paths below it after a '/' |
| SidebarLayout.LayoutSidebar.IsCollapsed | apps/frontend/src/components/layout/Sidebar1.tsx:60 | never collapsed while expansion is forced, otherwise the collapsed signal |
| SidebarLayout.LayoutSidebar.Mount | apps/frontend/src/components/layout/Sidebar1.tsx:55-58 | a stored value wins on mount (collapsed exactly when it is '1'); with nothing stored the default stays |
| SidebarLayout.LayoutSidebar.Toggle | apps/frontend/src/components/layout/Sidebar1.tsx:62-66 | flips the collapsed signal and stores '1' or '0' for the new value |
| SidebarLayout.Persisted | apps/frontend/src/components/layout/Sidebar1.tsx:65 | the stored text is '1' exactly when collapsed and '0' otherwise |
| SidebarLayout.Restored | apps/frontend/src/components/layout/Sidebar1.tsx:56-57 | nothing stored keeps the current value; otherwise collapsed exactly when the text is '1' |
| SidebarLayout.PersistRoundTrip | apps/frontend/src/components/layout/Sidebar1.tsx:55-66 | what Toggle stores is restored on the next mount |
| SidebarLayout.OtherStoredTextExpands | apps/frontend/src/components/layout/Sidebar1.tsx:57 | any stored text other than '1' restores the sidebar expanded |
| Sidebar.SidebarComponent.constructor | apps/frontend/src/components/Sidebar.tsx:395-397 | the component starts in InitialUi for its defaultCollapsed prop |
| SidebarLayout.LayoutSidebar.constructor | apps/frontend/src/components/layout/Sidebar1.tsx:53 | collapsed starts as the defaultCollapsed prop; the forced-expanded prop and the stored text are kept as given |
| AppointmentStore.PatientName | src/pages/appointments/appointmentStore.ts:171-177 | "first last" of the expanded patient when it is loaded, the loading placeholder otherwise |
| AppointmentStore.ResetFilters | src/pages/appointments/appointmentStore.ts:78-83 | the four filter fields return to their initial values, so the criteria equal the initial state's; view, selection, modal, data and error fields are unchanged |
| AppointmentStore.SelectAppointment | src/pages/appointments/appointmentStore.ts:71-74 | the appointment becomes the selection and the details modal is shown; nothing else changes |
| AppointmentStore.CloseModal | src/pages/appointments/appointmentStore.ts:75 | the modal is hidden and the selection is kept |
| AppointmentStore.SetError | src/pages/appointments/appointmentStore.ts:65-68 | the error flag is set exactly when an error is given, and the error is stored |
| AppointmentStore.UpdateStatus | src/pages/appointments/appointmentStore.ts:86-92 | same length; each appointment with the id gets the new status, every other one is unchanged |
| AppointmentStore.UpdateStatusIdempotent | src/pages/appointments/appointmentStore.ts:86-92 | applying the same status update twice equals applying it once |
| AppointmentStore.UpdateStatusAbsent | src/pages/appointments/appointmentStore.ts:86-92 | an id absent from the list leaves the list unchanged |
| AppointmentStore.UpdateStatusKeepsIds | src/pages/appointments/appointmentStore.ts:86-92 | ids and their order are kept, and every matching appointment then carries the new status |
| AppointmentStore.AppointmentsStore.constructor | src/pages/appointments/appointmentStore.ts:26-46 | the store starts in the initial state: empty query, all dates, all statuses, empty range, list view, no selection, loading, no error |
| AppointmentStore.AppointmentsStore.SetSearchQuery | src/pages/appointments/appointmentStore.ts:53 | only the search query changes |
| AppointmentStore.AppointmentsStore.SetDateFilter | src/pages/appointments/appointmentStore.ts:54 | only the date filter changes |
| AppointmentStore.AppointmentsStore.SetStatusFilter | src/pages/appointments/appointmentStore.ts:55 | only the status filter changes |
| AppointmentStore.AppointmentsStore.SetCustomDateRange | src/pages/appointments/appointmentStore.ts:56 | only the custom range changes |
| AppointmentStore.AppointmentsStore.SetViewMode | src/pages/appointments/appointmentStore.ts:59 | only the view mode changes |
| AppointmentStore.AppointmentsStore.SetShowDetailsModal | src/pages/appointments/appointmentStore.ts:60 | only the modal flag changes |
| AppointmentStore.AppointmentsStore.SetAppointments | src/pages/appointments/appointmentStore.ts:63 | only the appointment list changes |
| AppointmentStore.AppointmentsStore.SetLoading | src/pages/appointments/appointmentStore.ts:64 | only the loading flag changes |
| AppointmentStore.AppointmentsStore.SetErrorAction | src/pages/appointments/appointmentStore.ts:65-68 | the new state is SetError of the old one |
| AppointmentStore.AppointmentsStore.SelectAppointmentAction | src/pages/appointments/appointmentStore.ts:71-74 | the new state is SelectAppointment of the old one |
| AppointmentStore.AppointmentsStore.CloseModalAction | src/pages/appointments/appointmentStore.ts:75 | the new state is CloseModal of the old one |
| AppointmentStore.AppointmentsStore.ResetFiltersAction | src/pages/appointments/appointmentStore.ts:78-83 | the new state is ResetFilters of the old one |
| AppointmentStore.AppointmentsStore.UpdateAppointmentStatus | src/pages/appointments/appointmentStore.ts:86-92 | only the list changes, to UpdateStatus of the old list |
| AppointmentStore.FilteredAppointments | src/pages/appointments/appointmentStore.ts:98-143 | empty for an empty store; otherwise the stored appointments that pass search, date and status filters, each as often as it is stored (the same multiset as filtering by the combined test) |
| AppointmentStore.ResetListsAll | src/pages/appointments/appointmentStore.ts:78-143 | after resetting the filters every stored appointment is listed, each as often as it is stored |
| AppointmentStore.StatusFilterExact | src/pages/appointments/appointmentStore.ts:134-137 | under a status filter every listed appointment has that status |
| AppointmentStore.FilteredAppointmentsSorted | src/pages/appointments/appointmentStore.ts:139-142 | when every stored date parses, the list is in ascending date order |
| AppointmentStore.AppointmentsByDate | src/pages/appointments/appointmentStore.ts:146-154 | None exactly when formatting some filtered date throws; otherwise distinct day keys in order of first appearance in the filtered list, each group holding that day's filtered appointments in list order, and each group date-sorted when all dates parse |
| AppointmentStore.AppointmentsForDay | src/pages/appointments/appointmentStore.ts:157-167 | exactly the stored appointments whose formatted day is the given one; a date that fails to format is skipped |
| AppointmentFilters.SearchStage | src/pages/appointments/appointmentStore.ts:103-112 | a blank query keeps the list as is; otherwise exactly the appointments whose name, type or notes contain the query, both lower-cased with `toLowerCase` as JsText models it (see Left out) |
| AppointmentFilters.DateStage | src/pages/appointments/appointmentStore.ts:114-132 | the 'all' filter keeps the list; otherwise exactly the appointments whose date passes today / this week / this month / the custom range |
| AppointmentFilters.StatusStage | src/pages/appointments/appointmentStore.ts:134-137 | 'all' keeps the list; otherwise exactly the appointments whose stored status equals the chosen one |
| AppointmentFilters.OpenRangeKeepsAll | src/pages/appointments/appointmentStore.ts:122-128 | a custom range missing its start or its end keeps every appointment, in order |
| AppointmentFilters.ByDatePreorder | src/pages/appointments/appointmentStore.ts:140-142 | the date-difference comparator is a total preorder on appointments whose date is valid, so the stable sort orders them |
| AppointmentFilters.Filtered | src/pages/appointments/appointmentStore.ts:98-143 | the same multiset as filtering the input by the combined search, date and status test: every passing appointment kept as often as it occurs, no other |
| AppointmentFilters.KeptIsSubmultiset | src/pages/appointments/appointmentStore.ts:101-137 | the three filter stages only drop appointments, never add or duplicate one |
| AppointmentFilters.StagesAreFilter | src/pages/appointments/appointmentStore.ts:101-137 | the search, date and status stages in a row filter the list by the conjunction of their tests |
| AppointmentFilters.NoFilterKeepsAll | src/pages/appointments/appointmentStore.ts:98-143 | with an empty query and both filters at 'all' the result is a reordering of all appointments |
| AppointmentFilters.FilteredNewestFirst | src/routes/appointments.tsx:105-109 | the filtered list sorted most recent first, as the comment above the sort says: the same appointments, each as often, as the filtered list |
| AppointmentFilters.FilteredNewestFirstSorted | src/routes/appointments.tsx:105-109 | when every date parses, that list is in descending date order |
| AppointmentFilters.FilteredSorted | src/pages/appointments/appointmentStore.ts:139-142 | when every date parses, the result is in ascending date order |
| AppointmentFilters.GroupByDay | src/pages/appointments/appointmentStore.ts:146-154 | None exactly when some date fails to format; otherwise distinct day keys in order of first appearance, each mapped to that day's appointments in list order, so a sorted list gives sorted groups |
| AppointmentTypes.ParseStatus | src/types/appointments.ts:5-14 | a string that parses denotes a status whose stored value is that string |
| AppointmentTypes.StatusValueRoundTrip | src/types/appointments.ts:5-14 | every status's stored value parses back to that status, so no two statuses share a value |
| AppointmentTypes.AllStatusesComplete | src/types/appointments.ts:5-14 | the status list holds every status and has eight entries |
| AppointmentTypes.ParseType | src/types/appointments.ts:16-46 | a string that parses denotes a type whose stored value is that string; a string that does not parse is no type's value |
| AppointmentTypes.TypeValueRoundTrip | src/types/appointments.ts:16-46 | every type's stored value parses back to that type |
| AppointmentTypes.ValuesDistinct | src/types/appointments.ts:16-46 | two types with the same stored value are the same type |
| AppointmentTypes.AllTypesComplete | src/types/appointments.ts:16-46 | the type list holds every type and has 29 entries |
| AppointmentTypes.Palette | src/types/appointments.ts:105-113 | a badge is the 100-shade background, 800-shade text and 500-shade dot of one hue |
| AppointmentTypes.PaletteInjective | src/types/appointments.ts:105-113 | distinct hues give distinct badges |
| AppointmentTypes.StatusColorHue | src/types/appointments.ts:105-115 | a string that is no status gets gray; a status gets its own case's hue |
| AppointmentTypes.StatusColor | src/types/appointments.ts:105-115 | the badge of a status string is the palette of its hue |
| AppointmentTypes.StatusColors | src/types/appointments.ts:106-112 | pending blue, completed green, cancelled red, no-show yellow, in progress purple; confirmed, rescheduled and waiting gray |
| AppointmentTypes.StatusGrayExactly | src/types/appointments.ts:105-115 | a status shows gray exactly when it is confirmed, rescheduled or waiting |
| AppointmentTypes.TypeColorHue | src/types/appointments.ts:64-102 | a string that is no type gets gray; a type gets its own case's hue |
| AppointmentTypes.TypeColor | src/types/appointments.ts:64-102 | the badge of a type string is the palette of its hue |
| AppointmentTypes.TypeGrayExactly | src/types/appointments.ts:64-102 | a type string shows gray exactly when it is Other or no type at all |
| AppointmentTypes.TypeHueGray | src/types/appointments.ts:64-102 | among the types only Other has the gray hue |
| AppointmentTypes.TypeColorOfType | src/types/appointments.ts:64-102 | a type's stored value is coloured by that type's case |
| AppointmentTypes.PinkTypes | src/types/appointments.ts:72-94 | exactly Sealants, Veneers and Oral Surgery Consultation show pink |
| AppointmentsPage.PatientName | src/routes/appointments.tsx:124-133 | the first present, non-empty name among patient.name, expand.patient.name and patientName, else "Unknown Patient" |
| AppointmentsPage.PatientNameNonEmpty | src/routes/appointments.tsx:124-133 | the name shown is never empty |
| AppointmentsPage.Heads | src/routes/appointments.tsx:673-678 | at most one character per part; with no empty part, exactly the first character of each part in order (a whole character, not a UTF-16 code unit; see Left out) |
| AppointmentsPage.HeadsSkipEmpty | src/routes/appointments.tsx:673-678 | an empty part (from doubled spaces) contributes nothing |
| AppointmentsPage.Initials | src/routes/appointments.tsx:673-682 | at most two characters: the first characters of the first parts of the space-split name, upper-cased with `toUpperCase` as JsText models it (see Left out) |
| AppointmentsPage.InitialsOfWords | src/routes/appointments.tsx:673-682 | for words joined by single spaces: the first letter of the first word and, when there is one, of the second, upper-cased with `toUpperCase` as JsText models it |
| AppointmentsPage.FilteredAppointments | src/routes/appointments.tsx:67-110 | the same multiset as filtering the loaded items by the combined search, date and status test: every passing appointment kept as often as it occurs |
| AppointmentsPage.FilteredAscending | src/routes/appointments.tsx:106-109 | when every date-time parses, earlier positions have earlier or equal times: ascending, not most recent first |
| AppointmentsPage.FilteredDescending | src/routes/appointments.tsx:105-109 | with the sort the comment announces, when every date-time parses, earlier positions have later or equal times: most recent first |
| AppointmentsPage.AppointmentsByDate | src/routes/appointments.tsx:113-121 | None exactly when some filtered date fails to format; otherwise one group per day, in order of first appearance in the filtered list, with that day's filtered appointments in order, each date-sorted when all dates parse |
| AppointmentsPage.HandleStatusUpdate | src/routes/appointments.tsx:142-146 | no mutation exactly for 'all'; otherwise a mutation of that appointment to the chosen status |
| AppointmentsPage.DisplayDuration | src/routes/appointments.tsx:336 | a missing, NaN or zero duration shows as 30 minutes; any other duration as itself |
| AppointmentsPage.EndTimeMs | src/routes/appointments.tsx:663-666 | the end lies the displayed duration in minutes after the start |
| AppointmentsPage.TypeLabel | src/routes/appointments.tsx:327 | the type, or "General" when it is empty |
| AppointmentsPage.PageStatusHue | src/routes/appointments.tsx:12-18 | a status string has an entry exactly when it is one of the page's five statuses |
| AppointmentsPage.StatusBadge | src/routes/appointments.tsx:331-372 | the entry's palette, or gray 100 / gray 800 with a gray 300 dot for a string without an entry |
| AppointmentsPage.PageStatusesHaveBadges | src/routes/appointments.tsx:12-18 | every status the page offers has an entry, and the stored 'pending' has none |
| AppointmentsPage.PageUi.constructor | src/routes/appointments.tsx:45-46 | nothing is selected and the modal is hidden |
| AppointmentsPage.PageUi.HandleViewDetails | src/routes/appointments.tsx:136-139 | the appointment is selected and the modal shown |
| AppointmentsPage.PageUi.OnStatusUpdated | src/routes/appointments.tsx:60-63 | the modal is hidden and the selection kept |
| SearchableSelect.SelectedLabel | src/pages/appointments/SearchableSelect.tsx:28-31 | the label of the first option whose value is the selected value, or "" when no option carries it |
| SearchableSelect.FilteredOptions | src/pages/appointments/SearchableSelect.tsx:33-41 | every option while the term is empty or equals the selected label; otherwise exactly the options whose label contains the term, both lower-cased with `toLowerCase` as JsText models it (see Left out), in order |
| SearchableSelect.ArrowsStayInRange | src/pages/appointments/SearchableSelect.tsx:92-108 | with options present both arrows keep the highlight on an option; from none, ArrowDown goes to the first and ArrowUp to the last |
| SearchableSelect.ArrowsInverse | src/pages/appointments/SearchableSelect.tsx:92-108 | ArrowUp undoes ArrowDown and ArrowDown undoes ArrowUp on a highlighted option |
| SearchableSelect.ArrowDownOnEmpty | src/pages/appointments/SearchableSelect.tsx:92-96 | with no options ArrowDown still highlights index 0, which is no option |
| SearchableSelect.Closed | src/pages/appointments/SearchableSelect.tsx:123-137 | closed, nothing highlighted, the term reset to the selected label |
| SearchableSelect.ClosedShowsSelection | src/pages/appointments/SearchableSelect.tsx:35-178 | after closing the box shows the selected label and the full option list |
| SearchableSelect.Select | src/pages/appointments/SearchableSelect.tsx:58-64 | disabled: nothing changes or is emitted; otherwise the option's value is emitted, the term cleared, the list closed and nothing highlighted |
| SearchableSelect.Input | src/pages/appointments/SearchableSelect.tsx:66-71 | disabled: nothing changes; otherwise the typed text is the term, the highlight reset and the list open |
| SearchableSelect.Focus | src/pages/appointments/SearchableSelect.tsx:73-79 | opens the list unless disabled |
| SearchableSelect.KeyDown | src/pages/appointments/SearchableSelect.tsx:81-140 | disabled ignores every key; the arrows open and move the highlight cyclically; Enter selects the highlighted option when open and on one; Escape, and Tab while open, close; other keys change nothing |
| SearchableSelect.EnterEmitsListedValue | src/pages/appointments/SearchableSelect.tsx:111-114 | a value emitted by Enter is the value of one of the options |
| SearchableSelect.ClickOutside | src/pages/appointments/SearchableSelect.tsx:143-150 | a click outside an open select closes it; otherwise nothing changes |
| SearchableSelect.FilterChanged | src/pages/appointments/SearchableSelect.tsx:44-46 | a change of the filtered list clears the highlight and nothing else |
| SearchableSelect.TermChangesClearHighlight | src/pages/appointments/SearchableSelect.tsx:58-150 | every handler that changes the term leaves nothing highlighted |
| SearchableSelect.SelectComponent.constructor | src/pages/appointments/SearchableSelect.tsx:22-24 | closed, empty term, nothing highlighted, under the given props |
| SearchableSelect.SelectComponent.HandleSelect | src/pages/appointments/SearchableSelect.tsx:58-64 | new state and emitted value are those of Select |
| SearchableSelect.SelectComponent.HandleInput | src/pages/appointments/SearchableSelect.tsx:66-71 | new state is that of Input |
| SearchableSelect.SelectComponent.HandleFocus | src/pages/appointments/SearchableSelect.tsx:73-79 | new state is that of Focus |
| SearchableSelect.SelectComponent.HandleKeyDown | src/pages/appointments/SearchableSelect.tsx:81-140 | new state, emitted value and prevented flag are those of KeyDown |
| SearchableSelect.SelectComponent.HandleClickOutside | src/pages/appointments/SearchableSelect.tsx:143-150 | new state is that of ClickOutside |
| PatientSearch.JsRem | src/pages/PatientsList/usePatientSearch.tsx:40 | JavaScript's remainder: Euclidean on non-negative dividends and always strictly inside (-n, n) |
| PatientSearch.JsRemUpToDivisor | src/pages/PatientsList/usePatientSearch.tsx:40 | stepping one past the last index wraps to 0; smaller steps stay where they are |
| PatientSearch.Input | src/pages/PatientsList/usePatientSearch.tsx:14-27 | the term follows the input and the highlight resets; a blank input clears the debounced term and any timer, any other schedules the value |
| PatientSearch.Fire | src/pages/PatientsList/usePatientSearch.tsx:23-26 | with no timer nothing changes; otherwise the scheduled value becomes the debounced term, the highlight resets and the timer is gone |
| PatientSearch.InputThenFire | src/pages/PatientsList/usePatientSearch.tsx:14-27 | typing a non-blank value and waiting publishes exactly that value; a blank one has nothing left to publish |
| PatientSearch.LastInputWins | src/pages/PatientsList/usePatientSearch.tsx:17-26 | of two inputs only the second is published: typing again cancels the earlier timer |
| PatientSearch.Close | src/pages/PatientsList/usePatientSearch.tsx:70-80 | nothing happens when already closed; otherwise everything returns to the initial state |
| PatientSearch.KeyDown | src/pages/PatientsList/usePatientSearch.tsx:30-68 | nothing while closed; arrows cycle over the results when there are any; Enter navigates only to the id of the highlighted result, and closes the overlay doing so |
| PatientSearch.ArrowDownCycles | src/pages/PatientsList/usePatientSearch.tsx:37-42 | the highlight stays on a result: from none ArrowDown lands on the first, from the last it wraps to the first |
| PatientSearch.ArrowsInverse | src/pages/PatientsList/usePatientSearch.tsx:37-50 | ArrowUp undoes ArrowDown on a highlighted result |
| PatientSearch.GlobalKeyDown | src/pages/PatientsList/usePatientSearch.tsx:85-101 | Ctrl/Cmd+K opens and prevents the default; Escape closes an open search and prevents the default only then; other keys change nothing |
| PatientSearch.CloseWhenClosedKeepsTimer | src/pages/PatientsList/usePatientSearch.tsx:70-80 | closing an already closed overlay keeps a scheduled timer, which then still publishes its term |
| PatientSearch.DebouncedChangeResetsIndex | src/pages/PatientsList/usePatientSearch.tsx:119-122 | every handler that changes the debounced term leaves nothing highlighted, as the effect on it requires |
| PatientSearch.SearchHook.constructor | src/pages/PatientsList/usePatientSearch.tsx:6-12 | closed, empty terms, nothing highlighted, no timer |
| PatientSearch.SearchHook.HandleSearchInput | src/pages/PatientsList/usePatientSearch.tsx:14-27 | new state is that of Input |
| PatientSearch.SearchHook.TimerFires | src/pages/PatientsList/usePatientSearch.tsx:23-26 | new state is that of Fire |
| PatientSearch.SearchHook.CloseSearch | src/pages/PatientsList/usePatientSearch.tsx:70-80 | new state is that of Close |
| PatientSearch.SearchHook.HandleKeyDown | src/pages/PatientsList/usePatientSearch.tsx:30-68 | new state, navigation and prevented flag are those of KeyDown |
| PatientSearch.SearchHook.HandleGlobalKeyDown | src/pages/PatientsList/usePatientSearch.tsx:85-101 | new state and prevented flag are those of GlobalKeyDown |
| DateUtils.FormatForPB | src/utils/dateUtils.ts:5-13 | the rendering is the year's digits plus 15 characters: the 1-based month and every other field padded to two digits |
| DateUtils.FormatReadsBack | src/utils/dateUtils.ts:5-13 | for a four-digit year the rendering has 19 characters, its separators in fixed places, and every field reads back from its slot |
| DateUtils.Pad2Order | src/utils/dateUtils.ts:7-11 | zero-padding to two digits keeps numeric order as string order for values below 100 |
| DateUtils.TimePartOrder | src/utils/dateUtils.ts:9-12 | an earlier time of day renders to a time part that sorts no later |
| DateUtils.SameDayOrder | src/utils/dateUtils.ts:5-13 | on the same day, an earlier time renders to a string that sorts no later, so the filter strings compare as the times do |
| DateUtils.UtcDate.SetUTCHours | src/utils/dateUtils.ts:17 | sets exactly the four time fields, keeping the date |
| DateUtils.UtcDate.SetUTCDate | src/utils/dateUtils.ts:31 | moves to the given day of the current month, overflowing into neighbouring months, and keeps the time |
| DateUtils.StartOfDay | src/utils/dateUtils.ts:15-19 | the same UTC date at 00:00:00.000 |
| DateUtils.EndOfDay | src/utils/dateUtils.ts:21-25 | the same UTC date at 23:59:59.999 |
| DateUtils.WithinDay | src/utils/dateUtils.ts:15-25 | every time on that date lies between the start and the end of the day |
| DateUtils.StartStringBeforeEndString | src/utils/dateUtils.ts:36-42 | the start-of-day filter string sorts no later than the end-of-day string |
| DateUtils.MondayOffset | src/utils/dateUtils.ts:30 | the day offset back to Monday lies in -6..0 and lands on a Monday (Sunday goes back six days) |
| DateUtils.StartOfWeek | src/utils/dateUtils.ts:27-34 | midnight of a Monday at most six days before today's date |
| DateUtils.StartOfWeekUnique | src/utils/dateUtils.ts:27-34 | that Monday is the only Monday in the six days up to today |
| DateUtils.GetStartOfDayUTC | src/utils/dateUtils.ts:15-19 | returns StartOfDay of now |
| DateUtils.GetEndOfDayUTC | src/utils/dateUtils.ts:21-25 | returns EndOfDay of now |
| DateUtils.GetStartOfWeekUTC | src/utils/dateUtils.ts:27-34 | returns StartOfWeek of now |
| DateUtils.GetStartOfDayString | src/utils/dateUtils.ts:36-38 | the rendering of the start of the day |
| DateUtils.GetEndOfDayString | src/utils/dateUtils.ts:40-42 | the rendering of the end of the day |
| DateUtils.GetStartOfWeekString | src/utils/dateUtils.ts:44-46 | the rendering of the start of the week |
| DateUtils.UtcDate.constructor | src/utils/dateUtils.ts:16 | a date holding the given instant, the clock reading passed in |
| PatientsList.Input | src/pages/PatientsList.tsx:41-57 | the term follows the input and the highlight resets; a blank input clears the debounced term, cancels the timer and disables the search; any other schedules the value |
| PatientsList.Fire | src/pages/PatientsList.tsx:53-56 | with no timer nothing changes; otherwise only the debounced term takes the scheduled value, which enables the search when it is not blank |
| PatientsList.InputThenFireEnables | src/pages/PatientsList.tsx:27-57 | a non-blank input, once its timer fires, enables the search query with exactly that term |
| PatientsList.InputAgreesWithHook | src/pages/PatientsList.tsx:41-57 | the page's input handler reaches the same state as the search hook's |
| PatientsList.Close | src/pages/PatientsList.tsx:134-140 | back to the initial state, open or not, with the search disabled |
| PatientsList.CloseIdempotent | src/pages/PatientsList.tsx:134-140 | closing twice is closing once, and no timer survives a close |
| PatientsList.KeyDown | src/pages/PatientsList.tsx:62-90 | nothing without results or while closed; arrows cycle over the results; Enter navigates exactly when the highlight is on a result, closing the overlay; Escape closes; other keys change nothing |
| PatientsList.ArrowDownStep | src/pages/PatientsList.tsx:69-72 | on a highlighted result ArrowDown moves to the next, and from the last back to the first |
| PatientsList.Presses | src/pages/PatientsList.tsx:69-76 | repeated arrow presses never open or close the overlay |
| PatientsList.ArrowDownPresses | src/pages/PatientsList.tsx:69-72 | up to a full round, k presses of ArrowDown move the highlight k results on, wrapping once |
| PatientsList.ArrowDownFullCircle | src/pages/PatientsList.tsx:69-72 | as many ArrowDown presses as there are results return to the same result |
| PatientsList.GlobalKeyDown | src/pages/PatientsList.tsx:96-107 | Ctrl/Cmd+K always opens; Escape closes an open overlay only when the input lacks focus; otherwise nothing changes |
| PatientsList.EscapeAlwaysCloses | src/pages/PatientsList.tsx:85-107 | Escape on an open overlay closes it whether the input has the focus or not |
| PatientsList.SearchOverlay.constructor | src/pages/PatientsList.tsx:8-16 | closed, empty terms, nothing highlighted, no timer |
| PatientsList.SearchOverlay.HandleSearchInput | src/pages/PatientsList.tsx:41-57 | new state is that of Input |
| PatientsList.SearchOverlay.TimerFires | src/pages/PatientsList.tsx:53-56 | new state is that of Fire |
| PatientsList.SearchOverlay.CloseSearch | src/pages/PatientsList.tsx:134-140 | new state is that of Close |
| PatientsList.SearchOverlay.HandleKeyDown | src/pages/PatientsList.tsx:62-90 | new state, navigation and prevented flag are those of KeyDown |
| PatientsList.SearchOverlay.HandleGlobalKeyDown | src/pages/PatientsList.tsx:96-107 | new state and prevented flag are those of GlobalKeyDown |
| AppointmentForm.InitialForm | src/pages/Patients/NewAppointment.tsx:439-449 | every text field empty except the pending status and a 30-minute duration; the patient is the given one |
| AppointmentForm.SetText | src/pages/Patients/NewAppointment.tsx:570-575 | the named input takes the value and every other field is kept |
| AppointmentForm.SetTextTwice | src/pages/Patients/NewAppointment.tsx:570-575 | the last write to a field wins |
| AppointmentForm.Submit | src/pages/Patients/NewAppointment.tsx:511-558 | rejected with the required-fields message exactly when a required field is empty; with the invalid-date message exactly when the fields are present but the date or time is malformed or gives no valid date; otherwise the payload carries the form's fields, its ids and the ISO date |
| AppointmentForm.InitialFormRejected | src/pages/Patients/NewAppointment.tsx:439-522 | the untouched form is rejected for missing fields |
| AppointmentForm.NotesDoNotSatisfyRequired | src/pages/Patients/NewAppointment.tsx:519-522 | editing notes or duration cannot lift a rejection for missing fields |
| AppointmentForm.StatusOptions | src/pages/Patients/NewAppointment.tsx:478-484 | one option per status |
| AppointmentForm.StatusOptionsExact | src/pages/Patients/NewAppointment.tsx:478-484 | every status is offered with its member name as label, and every offered value parses to a status whose member name is the label |
| AppointmentForm.TypeOptions | src/pages/Patients/NewAppointment.tsx:456-466 | one option per type, its value also its label |
| AppointmentForm.TypeOptionsExact | src/pages/Patients/NewAppointment.tsx:456-466 | every type is offered, and each offered value parses to the type at that position |
| AppointmentForm.DentistOptions | src/pages/Patients/NewAppointment.tsx:469-475 | one option per dentist, in order, with the id as value and the name as label |
| AppointmentForm.FormUi.constructor | src/pages/Patients/NewAppointment.tsx:451-452 | the initial form for the patient and no error |
| AppointmentForm.FormUi.ClearError | src/pages/Patients/NewAppointment.tsx:513 | the form is kept and the error cleared |
| AppointmentForm.FormUi.HandleChange | src/pages/Patients/NewAppointment.tsx:570-580 | the form becomes SetText of the old one and the error is cleared |
| AppointmentForm.FormUi.HandleTypeSelect | src/pages/Patients/NewAppointment.tsx:487-496 | only the type changes, and the error is cleared |
| AppointmentForm.FormUi.HandleDentistSelect | src/pages/Patients/NewAppointment.tsx:499-502 | only the dentist changes, and the error is cleared |
| AppointmentForm.FormUi.HandleStatusSelect | src/pages/Patients/NewAppointment.tsx:505-508 | only the status changes, and the error is cleared |
| AppointmentForm.FormUi.HandleSubmit | src/pages/Patients/NewAppointment.tsx:511-567 | a rejection shows Submit's message and keeps the form; an accepted form hands over Submit's payload, is reset to the initial form and shows no error |
| Migrations.Lookup | apps/backend/migrations/1752829474_organizations.go:12-15 | a lookup succeeds exactly when the name is in the catalog, giving its id; otherwise it fails with NotFound(name) |
| Migrations.LookupAll | apps/backend/migrations/1752943983_staff_members.go:12-23 | sequential lookups succeed iff every name exists, giving their ids in order; otherwise the error names the first missing one |
| Migrations.LookupAllError | apps/backend/migrations/1752952837_appointments.go:12-23 | for two to four names the reported error is the first missing name in lookup order, and success means all exist |
| Migrations.OrganizationsUp | apps/backend/migrations/1752829474_organizations.go:11-35 | fails with NotFound("users") iff users is missing; otherwise saves organizations with exactly organization_name, address, owners in that order: the two texts required with Max 100, owners a required relation to users with MaxSelect 20 |
| Migrations.ClinicsUp | apps/backend/migrations/1752942562_clinics.go:11-47 | fails iff organizations is missing; otherwise clinic_name, address and phone are required texts with Max 100, organization a required relation to organizations, is_active a required bool, geo_address an optional geo point |
| Migrations.StaffMembersUp | apps/backend/migrations/1752943983_staff_members.go:10-56 | fails iff one of users, organizations, clinics is missing, naming the first in that order; the three relations are required, role is a required select over exactly the four roles, is_active a required bool |
| Migrations.PatientsUp | apps/backend/migrations/1752946253_patients.go:11-57 | fails iff clinics is missing; otherwise the nine fields in order, with first/last name required texts Max 100, sex a required select {male, female}, primary_clinic a required relation, dob and phone required, email, address, medical_history optional |
| Migrations.PatientsShape | apps/backend/migrations/1752946253_patients.go:17-55 | the patients field list has the names, kinds and required flags listed for PatientsUp, for any clinics id |
| Migrations.PatientTransfersUp | apps/backend/migrations/1752946700_patient_transfers.go:11-48 | fails on a missing patients, then on a missing clinics; from_clinic and to_clinic both relate to clinics (nothing makes them differ); transfer_date required, reason optional |
| Migrations.AppointmentsUp | apps/backend/migrations/1752952837_appointments.go:11-63 | fails on the first missing of patients, staff_members, clinics; start_time required and end_time optional, status a required select over the five values, reason Max 300, notes Max 1000 |
| Migrations.AppointmentsShape | apps/backend/migrations/1752952837_appointments.go:25-61 | the appointments field list has the names, kinds and required flags listed for AppointmentsUp |
| Migrations.TreatmentsCatalogUp | apps/backend/migrations/1752953160_treatments_catalog.go:11-30 | never fails (no lookups); name required Max 100, description optional Max 300, default_price a required number |
| Migrations.TreatmentRecordsUpAsWritten | apps/backend/migrations/1752953379_treatment_records.go:12-60 | as written: fails iff one of the four collections is missing, and when only appointments is missing the failure is a nil dereference, not a returned error |
| Migrations.TreatmentRecordsUp | apps/backend/migrations/1752953379_treatment_records.go:12-60 | corrected: fails with NotFound naming the first missing of patients, staff_members, clinics, appointments; the appointment relation is required; price_charged a required number, tooth_numbers (JSON) and clinical_notes optional; agrees with the as-written version whenever it succeeds |
| Migrations.TreatmentRecordsMissingAppointmentsPanics | apps/backend/migrations/1752953379_treatment_records.go:25-45 | with patients, staff_members and clinics present but no appointments, the as-written migration panics where the corrected one returns NotFound("appointments") |
| Migrations.DentalChartsRelations | apps/backend/migrations/1752955000_dental_charts.go:25-57 | the appointment field is present iff an appointments id was found, and is then an optional relation to it; patient and clinic are required, doctor optional |
| Migrations.DentalChartsContent | apps/backend/migrations/1752955000_dental_charts.go:59-94 | chart_type (5 values), notation_system (universal, fdi, palmer) and dentition (3 values) are required selects; chart_state required; notes Max 2000; images optional, up to 10 files of 10·1024·1024 bytes, png/jpeg/webp |
| Migrations.DentalChartsUp | apps/backend/migrations/1752955000_dental_charts.go:11-96 | fails only on the first missing of patients, staff_members, clinics; a missing appointments collection is tolerated and the appointment field exists iff that collection does |
| Migrations.App.FindCollectionByNameOrId | apps/backend/migrations/1752829474_organizations.go:12 | the catalog lookup, as Lookup states it |
| Migrations.App.Save | apps/backend/migrations/1752829474_organizations.go:35 | saving adds the collection under its new id and appends it to the saved list |
| Migrations.NewBaseCollection | apps/backend/migrations/1752829474_organizations.go:11 | a new collection has the given name and no fields |
| Migrations.AddFields | apps/backend/migrations/1752829474_organizations.go:17-34 | Fields.Add appends the fields in order and keeps the name |
| Migrations.RunOrganizationsUp | apps/backend/migrations/1752829474_organizations.go:9-35 | on error nothing is saved and the catalog is unchanged; on success exactly the OrganizationsUp collection is saved |
| Migrations.RunClinicsUp | apps/backend/migrations/1752942562_clinics.go:9-47 | the imperative up matches ClinicsUp: error leaves the app unchanged, success saves that collection |
| Migrations.RunStaffMembersUp | apps/backend/migrations/1752943983_staff_members.go:9-56 | the imperative up matches StaffMembersUp, with three early returns |
| Migrations.RunPatientsUp | apps/backend/migrations/1752946253_patients.go:9-57 | the imperative up matches PatientsUp |
| Migrations.RunPatientTransfersUp | apps/backend/migrations/1752946700_patient_transfers.go:9-48 | the imperative up matches PatientTransfersUp |
| Migrations.RunAppointmentsUp | apps/backend/migrations/1752952837_appointments.go:9-63 | the imperative up matches AppointmentsUp |
| Migrations.RunTreatmentsCatalogUp | apps/backend/migrations/1752953160_treatments_catalog.go:9-30 | the imperative up always saves the treatments_catalog collection |
| Migrations.RunTreatmentRecordsUp | apps/backend/migrations/1752953379_treatment_records.go:9-60 | the imperative up matches the as-written function, including the unchecked appointments lookup |
| Migrations.RunDentalChartsUp | apps/backend/migrations/1752955000_dental_charts.go:9-96 | the imperative up matches DentalChartsUp, adding the appointment field only when the lookup found it |
| Migrations.Down | apps/backend/migrations/1752955000_dental_charts.go:97-101 | every down returns nil and changes nothing |
| Migrations.PlanSucceeds | apps/backend/migrations/1752942562_clinics.go:12-15 | with users present, migration k in timestamp order succeeds once the collections of the earlier migrations exist, and creates its own collection |
| Migrations.TimelineSucceeds | apps/backend/migrations/1752955000_dental_charts.go:13-29 | running all nine migrations in timestamp order succeeds iff users exists (else fails with NotFound("users")) and then creates every collection |
| Migrations.TreatmentRecordsSafeInOrder | apps/backend/migrations/1752953379_treatment_records.go:25-45 | in timestamp order the unchecked appointments lookup always succeeds, so the as-written and corrected migrations agree |

## Left out

- Rendering, styling and routing. JSX output, CSS classes other than the badge colour tables, scrolling, focus management, body scroll locking, and the `Access denied` fallback element are presentation only.
- Network and library wrappers. PocketBase calls, TanStack Query/DB caches (`cancelQueries`, `invalidateQueries`, `setQueriesData` bookkeeping), subscriptions and `navigate` live in those libraries. The model keeps the pure list transforms and returns navigation as the target path.
- Timers and concurrency:
  - the 300 ms debounce timer is a `pending` value that `Fire` publishes;
  - the delayed operation removal and invalidation in the optimistic hooks, the periodic cleanup interval, the random 5-second notifications of the item store and the 24-hour auth refresh are not modelled;
  - races between optimistic updates and refetches are out of scope.
- The clock, locale and date-fns. "Now", `parseISO`, `new Date(text).getTime()`, `isToday`/`isThisWeek`/`isThisMonth`, `format(..., 'yyyy-MM-dd')` and `toISOString` are parameters or oracle functions. The locale display strings (`toLocaleDateString`, `toLocaleTimeString`, `format(..., 'h:mm a')`) are not modelled.
- Random and time-based ids. These come from a fresh-id parameter; only their prefixes (`local_`, `temp_`, `local_admin`) are kept.
- Floating point and money. Prices, revenue figures and `toFixed` are out of scope.
- Storage failures. `localStorage.setItem` quota errors are not modelled: every write succeeds. A stored empty string reads as an absent key, because the source tests it for truthiness.
- Record system fields. The PocketBase system fields of a mock record are kept beside its data map.
- Listener effects. A notified callback is recorded as a token in a call log or a counter; what the callback itself does is not modelled.
- Rollback closures. The hooks' `rollbackFunctions` arrays and their replay on error are not modelled.
- `refreshAuth`. On the local layer this is a no-op. `apps/frontend/src/auth/auth-store.ts` is not part of this model; the store's state is the one `AuthTypes.FromSnapshot` derives from the layer's snapshot.
- AppointmentCalendar: the per-day and per-slot appointment filters, the statistics counters and the date headings are not modelled. They go through `parseISO`, `format` and the locale.
- PatientsPage.SortLePreorderNames: `localeCompare` is modelled as code-unit order of the lower-cased keys. The locale collation order is not modelled.
- Migrations.App.Save: saving always succeeds. PocketBase's own validation of the saved collection, the migration runner (registration, applied-state bookkeeping) and the enforcement of field constraints happen inside PocketBase.
- Case mapping. `toLowerCase` and `toUpperCase` are modelled on a subset of Unicode: ASCII, Latin-1, `ÿ`/`Ÿ`, `µ` and basic Cyrillic (`JsText.LowerChar`, `JsText.UpperChar`). Within that subset each letter maps to one character, as in JavaScript. Every other character is left unchanged, including Greek, other scripts and `ß` (whose upper case is the two characters `SS`). The members below inherit this.
- ItemStore.LocalStorageManager.SearchItems: a query or item text with letters outside the modelled subset can match differently from JavaScript.
- ThemeSystem.DataTheme: a theme name with letters outside the modelled subset gets a different `data-theme` value than JavaScript gives.
- ThemeSystem.DataThemeTwoWords: the words are lower-cased by the modelled subset only.
- Auth.NormalizedStillValid: the normalised address is lower-cased by the modelled subset only.
- Auth.CheckCredentials: the address handed on is lower-cased by the modelled subset only.
- Auth.CredentialsAddress: the address handed on is lower-cased by the modelled subset only.
- Auth.CheckRegistration: the address handed on is lower-cased by the modelled subset only.
- Auth.RegistrationAddress: the address handed on is lower-cased by the modelled subset only.
- PatientsPage.Initials: the bound of two characters holds only because `ß` is left unchanged. In JavaScript, `getInitials("ßa", "ßb")` is `SSSS`.
- PatientsPage.SearchStage: the search matches case-insensitively only for letters in the modelled subset.
- PatientsPage.FilteredPatients: it uses that search stage.
- AppointmentFilters.SearchStage: the search matches case-insensitively only for letters in the modelled subset.
- AppointmentFilters.Filtered: it uses that search stage.
- AppointmentStore.FilteredAppointments: it uses that search stage.
- AppointmentsPage.FilteredAppointments: it uses that search stage.
- AppointmentsPage.FilteredAppointments: the model returns a sorted copy and leaves `items` unchanged. In the source, when no search, date or status filter is active, `appointments` is still the query cache's own `items` array (`src/routes/appointments.tsx:68`), and `sort` at line 107 reorders that array in place, so other readers of the cached list see it sorted too. This aliasing is not modelled. The list returned is the same.
- AppointmentsPage.Initials: a first letter outside the modelled subset is not upper-cased. `ß` stays `ß`, where JavaScript gives `SS`.
- AppointmentsPage.InitialsOfWords: the same upper-casing as Initials.
- SearchableSelect.FilteredOptions: labels match case-insensitively only for letters in the modelled subset.
- UTF-16 indexing. Lengths are counted in UTF-16 code units (`JsText.Utf16Length`), and string order compares code units (`Sorting.StringLe`). Indexing one code unit is not modelled, because a lone surrogate is not a Dafny `char`. The members below return the whole first character.
- PatientsPage.FirstLetter: for a name starting with a character outside the Basic Multilingual Plane, `trim()[0]` is half a surrogate pair. The model returns the whole character.
- AppointmentsPage.Heads: `part[0]` on such a part is likewise half a surrogate pair. The model returns the whole character.
- MockData.Compare: only string-valued fields are modelled, because record data is a map of strings. JavaScript `<` orders numbers numerically, so a numeric sort field such as 9 against 10 sorts differently. Booleans and `null` are not modelled either. The sorts the collections in `apps/frontend/src/lib/tanstack-db.ts` ask for are on date and name fields, which are stored as strings.
- MockData.SortLeMeans: it is stated for string-valued fields only, as for Compare.
- MockData.SortLePreorder: it is proved for string-valued fields only, as for Compare.
- MockData.SortRecordsOrdered: it is stated for string-valued fields only, as for Compare.
- JsText.ParseInt: the value is an exact integer. JavaScript's `parseInt` returns a double, which loses precision above 2^53 and becomes `Infinity` for a few hundred digits; the model keeps every digit.
- Logging. The `console.log` in `getAppointmentTypeColor` (`src/types/appointments.ts:65`) and the `console.log`, `console.warn` and `console.error` calls of the localStorage data layer have no effect on state and are not modelled.
- Dead and broken code. Commented-out code is not modelled: the old `AppointmentForm` at the top of `src/pages/Patients/NewAppointment.tsx` and the disabled parts of `apps/frontend/src/App.tsx` and `src/index.tsx`. Two functions of `src/routes/appointments.tsx` read state outside their scope and are not modelled either: the module-level `getAppointmentsForDay` and `EmptyState`.
- Declarative and generated files. Generated type files and the older declarative `dental_charts` schema hold no logic.

## Findings

| source | as written | input that shows it | evidently intended | confidence | as-written member | corrected member |
|---|---|---|---|---|---|---|
| apps/backend/migrations/1752953379_treatment_records.go:25-45 | the error of the `appointments` lookup is discarded, and `appointmentsCollection.Id` is read regardless | a catalog holding `patients`, `staff_members` and `clinics` but no `appointments`: the migration dereferences a nil collection and panics | return the lookup error like the three lookups before it | not executed; high | Migrations.TreatmentRecordsMissingAppointmentsPanics | Migrations.TreatmentRecordsUp |
| apps/frontend/src/components/Sidebar.tsx:414-418 | an entry is active when the path starts with its path text, with no separator check | path `/patientsX` highlights the `/patients` entry | active on the entry's own path or a path below it after `/`, as the layout sidebar's rule is | not executed; high | Sidebar.PrefixWithoutSeparatorIsActive | Sidebar.ActiveSegmentMeans |
| apps/frontend/src/optimistic/optimistic-hooks.tsx:605-608 | the update (and delete) `onMutate` adds its own pending operation to the queue before asking whether the record has conflicting operations | any update of a record with no other pending operation: the check finds the update itself, and the conflict counter rises | count a conflict only when another pending operation targets the record | not executed; high | OptimisticHooks.SelfConflict | OptimisticHooks.RegisterChangeChecked |
| apps/frontend/src/components/dental/DentalChart.tsx:78-86 | `applyCondition` emits a chart with the new tooth through `ensureTooth`, then writes into `clone(chart()).teeth[id]`, which exists only if the parent has already written the first chart back | applying a condition to a tooth with no entry, under a parent that does not write `onChange` results back synchronously: `next.teeth[id]` is undefined and the handler throws; the new-chart form at apps/frontend/src/routes/patients/$patientId.tsx:194 is such a parent (empty `teeth`, `onChange` ignored), so the first condition applied there throws | create the tooth in the same copy that receives the condition | not executed; high | DentalChart.ApplyToUnlistedToothThrows | DentalChart.ApplyClick |
| apps/frontend/src/data/auth/local-auth.ts:38-41 | `register` awaits `login`, which notifies the listeners, and only then replaces the name, without notifying again | `register(email, pw, 'Ann')`: the listeners read a user named 'Demo User', while the layer then holds 'Ann' | set the name before notifying, so the listeners see the registered user | not executed; medium | LocalAuth.RegisterNotifiesStaleName | LocalAuth.LocalAuthLayer.RegisterThenNotify |
| apps/frontend/src/lib/tanstack-db-localstorage.ts:139-144 | the counts move only when `changes.category` is truthy, yet the change is written whatever it is | updating the only item of category `work` to category '': the item leaves `work`, whose count stays 1 | move the counts for every defined, different category | not executed; medium | ItemStore.EmptyCategoryUpdateBreaksCounts | ItemStore.UpdateIntendedKeepsCounts |
| src/routes/appointments.tsx:105-109 | the comment says 'most recent first', but the comparator `a - b` sorts ascending | two appointments on 1 and 2 March: the list shows 1 March first | `b - a`, the latest date-time first | not executed; medium | AppointmentsPage.FilteredAscending | AppointmentsPage.FilteredDescending |
