/**
 * The optimistic hooks: the updaters they apply to every cached list of a
 * collection (realtime delete, optimistic create/update/delete, the
 * server-record swaps on success), how each mutation registers its operation
 * and checks for conflicts, and the retry and backoff rules.  The query
 * cache itself, timers and the network are not modelled; a cached list is
 * an `Option<ListResult>` (`None` for no data yet).
 */
module OptimisticHooks {
  import opened Wrappers
  import opened Lists
  import JsText
  import opened MockData
  import opened OrderedMap
  import opened OptimisticQueue

  function Pred(n: nat): nat {
    if n == 0 then 0 else n - 1
  }

  /**
   * The realtime `delete` event: every item with the event's record id goes
   * and the total drops by one, floored at 0.  No data, or an event without
   * a record id, leaves the cache as it is.
   */
  function RealtimeDelete(cached: Option<ListResult>, eventId: Option<string>): (r: Option<ListResult>)
    ensures cached.None? || eventId.None? || eventId == Some("") ==> r == cached
    ensures cached.Some? && eventId.Some? && eventId.value != "" ==> (r.Some?
      && r.value == cached.value.(totalItems := Pred(cached.value.totalItems), items := Filter(cached.value.items, NotRecord(eventId.value))))
  {
    if cached.None? || eventId.None? || eventId.value == "" then cached
    else Some(cached.value.(totalItems := Pred(cached.value.totalItems), items := Filter(cached.value.items, NotRecord(eventId.value))))
  }

  /** After a realtime delete no cached item carries the id, every other item is still there, and the total is one less (but not below 0). */
  lemma RealtimeDeleteRemoves(cached: ListResult, id: string)
    requires id != ""
    ensures var r := RealtimeDelete(Some(cached), Some(id)).value;
      (forall k :: 0 <= k < |r.items| ==> r.items[k].id != id)
      && (forall k :: 0 <= k < |cached.items| && cached.items[k].id != id ==> cached.items[k] in r.items)
      && r.totalItems == (if cached.totalItems == 0 then 0 else cached.totalItems - 1)
      && r.page == cached.page && r.perPage == cached.perPage && r.totalPages == cached.totalPages
  {
  }

  /** `temp_<now>_<random>`. */
  function TempId(now: nat, random: string): (r: string)
    ensures JsText.StartsWith(r, "temp_")
  {
    "temp_" + JsText.NatToString(now) + "_" + random
  }

  /** `createOptimisticRecord`: the given temporary id (or a fresh one when it is empty), stamped now. */
  function OptimisticRecord(collection: string, data: map<string, string>, tempId: string, freshId: string, now: string): (r: Record)
    ensures r.id == (if tempId != "" then tempId else freshId)
    ensures r.created == now && r.updated == now && r.fields == data
    ensures r.collectionId == "temp_" + collection && r.collectionName == collection
  {
    Record(if tempId != "" then tempId else freshId, now, now, "temp_" + collection, collection, data)
  }

  /** An item the optimistic create counts as already there: the same id, or an identical temporary record. */
  function AlreadyThere(tempId: string, optimistic: Record): Record -> bool {
    (item: Record) => item.id == tempId || (JsText.StartsWith(item.id, "temp_") && item == optimistic)
  }

  /** The optimistic create: append the temporary record and count it, unless (after a rapid second click) it is already there. */
  function OptimisticCreate(cached: Option<ListResult>, tempId: string, optimistic: Record): (r: Option<ListResult>)
    ensures r.None? <==> cached.None?
    ensures cached.Some? && (forall k :: 0 <= k < |cached.value.items| ==> !AlreadyThere(tempId, optimistic)(cached.value.items[k])) ==>
      r == Some(cached.value.(totalItems := cached.value.totalItems + 1, items := cached.value.items + [optimistic]))
    ensures cached.Some? && (exists k :: 0 <= k < |cached.value.items| && AlreadyThere(tempId, optimistic)(cached.value.items[k])) ==>
      r == cached
  {
    if cached.None? then cached
    else
      var k := FindIndex(cached.value.items, AlreadyThere(tempId, optimistic));
      if k == -1 then Some(cached.value.(totalItems := cached.value.totalItems + 1, items := cached.value.items + [optimistic]))
      else cached
  }

  /** Applying the optimistic create twice with the same temporary record adds it once. */
  lemma OptimisticCreateOnce(cached: ListResult, tempId: string, optimistic: Record)
    requires optimistic.id == tempId
    ensures var once := OptimisticCreate(Some(cached), tempId, optimistic);
      OptimisticCreate(once, tempId, optimistic) == once
  {
    var once := OptimisticCreate(Some(cached), tempId, optimistic);
    var items := once.value.items;
    var k :| 0 <= k < |items| && items[k].id == tempId;
    assert AlreadyThere(tempId, optimistic)(items[k]);
  }

  /** The optimistic delete: the id's items go and the total drops by one (floored at 0), present or not. */
  function OptimisticDelete(cached: Option<ListResult>, id: string): (r: Option<ListResult>)
    ensures r.None? <==> cached.None?
    ensures cached.Some? ==> (r.value.totalItems == Pred(cached.value.totalItems)
      && r.value.items == Filter(cached.value.items, NotRecord(id))
      && r.value.page == cached.value.page && r.value.perPage == cached.value.perPage)
  {
    if cached.None? then cached
    else Some(cached.value.(totalItems := Pred(cached.value.totalItems), items := Filter(cached.value.items, NotRecord(id))))
  }

  /** Deleting an id no cached item has still lowers the total. */
  lemma OptimisticDeleteAbsent(cached: ListResult, id: string)
    requires cached.totalItems > 0
    requires forall k :: 0 <= k < |cached.items| ==> cached.items[k].id != id
    ensures OptimisticDelete(Some(cached), id) == Some(cached.(totalItems := cached.totalItems - 1))
  {
    FilterAll(cached.items, NotRecord(id));
  }

  /** The optimistic update: the data merged into the items with the id, stamped now; the total is kept. */
  function OptimisticUpdate(cached: Option<ListResult>, id: string, data: map<string, string>, now: string): (r: Option<ListResult>)
    ensures r.None? <==> cached.None?
    ensures cached.Some? ==> r.value.totalItems == cached.value.totalItems && |r.value.items| == |cached.value.items|
    ensures cached.Some? ==> forall k :: 0 <= k < |cached.value.items| ==>
      r.value.items[k] == if cached.value.items[k].id == id
        then cached.value.items[k].(fields := cached.value.items[k].fields + data, updated := now)
        else cached.value.items[k]
  {
    if cached.None? then cached
    else Some(cached.value.(items := UpdateRecords(cached.value.items, id, data, now)))
  }

  /** The cached detail record, if any, gets the same merge. */
  function OptimisticDetail(previous: Option<Record>, data: map<string, string>, now: string): (r: Option<Record>)
    ensures r.None? <==> previous.None?
    ensures previous.Some? ==> r.value == previous.value.(fields := previous.value.fields + data, updated := now)
  {
    if previous.None? then None else Some(previous.value.(fields := previous.value.fields + data, updated := now))
  }

  /** `items.map(item => item.id === id ? server : item)`. */
  function ReplaceById(items: seq<Record>, id: Option<string>, server: Record): (r: seq<Record>)
    ensures |r| == |items|
    ensures forall k :: 0 <= k < |items| ==> r[k] == if id == Some(items[k].id) then server else items[k]
  {
    seq(|items|, k requires 0 <= k < |items| => if id == Some(items[k].id) then server else items[k])
  }

  /** The success handlers: the server record takes the place of the item with the id, positions and total kept. */
  function SwapInServerRecord(cached: Option<ListResult>, id: Option<string>, server: Record): (r: Option<ListResult>)
    ensures r.None? <==> cached.None?
    ensures cached.Some? ==> r.value == cached.value.(items := ReplaceById(cached.value.items, id, server))
  {
    if cached.None? then cached else Some(cached.value.(items := ReplaceById(cached.value.items, id, server)))
  }

  /** A create followed by its success handler leaves the server record where the temporary one was appended. */
  lemma CreateThenSwap(cached: ListResult, tempId: string, optimistic: Record, server: Record)
    requires optimistic.id == tempId
    requires forall k :: 0 <= k < |cached.items| ==> !AlreadyThere(tempId, optimistic)(cached.items[k])
    ensures SwapInServerRecord(OptimisticCreate(Some(cached), tempId, optimistic), Some(tempId), server)
      == Some(cached.(totalItems := cached.totalItems + 1, items := cached.items + [server]))
  {
    var created := OptimisticCreate(Some(cached), tempId, optimistic).value;
    var swapped := ReplaceById(created.items, Some(tempId), server);
    forall k | 0 <= k < |cached.items| ensures swapped[k] == cached.items[k] {
      assert !AlreadyThere(tempId, optimistic)(cached.items[k]);
    }
    assert swapped == cached.items + [server];
  }

  /** An update followed by its success handler leaves the list as the server record alone would. */
  lemma UpdateThenSwap(cached: ListResult, id: string, data: map<string, string>, now: string, server: Record)
    ensures SwapInServerRecord(OptimisticUpdate(Some(cached), id, data, now), Some(id), server)
      == SwapInServerRecord(Some(cached), Some(id), server)
  {
    var a := ReplaceById(OptimisticUpdate(Some(cached), id, data, now).value.items, Some(id), server);
    var b := ReplaceById(cached.items, Some(id), server);
    assert a == b;
  }

  /** `2 ** n`. */
  function Pow2(n: nat): (r: nat)
    ensures r >= 1
  {
    if n == 0 then 1 else 2 * Pow2(n - 1)
  }

  lemma {:induction false} Pow2AtLeast32(n: nat)
    requires n >= 5
    ensures Pow2(n) >= 32
  {
    if n > 5 { Pow2AtLeast32(n - 1); }
  }

  /** The delay before retry `attempt`: `min(1000 * 2 ** attempt, 30000)`. */
  function RetryDelay(attempt: nat): (r: nat)
    ensures 1000 <= r <= 30000
  {
    if 1000 * Pow2(attempt) < 30000 then 1000 * Pow2(attempt) else 30000
  }

  /** The delay doubles from one second until it reaches the 30-second cap, from the sixth attempt on. */
  lemma RetryDelaySchedule(attempt: nat)
    ensures attempt <= 4 ==> RetryDelay(attempt) == 1000 * Pow2(attempt)
    ensures attempt <= 3 ==> RetryDelay(attempt + 1) == 2 * RetryDelay(attempt)
    ensures attempt >= 5 ==> RetryDelay(attempt) == 30000
  {
    if attempt >= 5 {
      Pow2AtLeast32(attempt);
    } else {
      assert Pow2(attempt) <= 16 by {
        assert Pow2(0) == 1 && Pow2(1) == 2 && Pow2(2) == 4 && Pow2(3) == 8 && Pow2(4) == 16;
      }
      assert Pow2(attempt + 1) == 2 * Pow2(attempt);
    }
  }

  /** The list query retries while fewer than three attempts have failed. */
  predicate ListRetries(failureCount: nat) {
    failureCount < 3
  }

  /** The detail query never retries a 404, and otherwise retries like the list query. */
  function DetailRetries(failureCount: nat, status: Option<int>): (r: bool)
    ensures status == Some(404) ==> !r
    ensures status != Some(404) ==> (r <==> ListRetries(failureCount))
  {
    if status == Some(404) then false else failureCount < 3
  }

  /** The realtime reconnect: scheduled after `min(1000 * 2 ** retryCount, 30000)` ms while fewer than five retries were made. */
  function ReconnectDelay(retryCount: nat): (r: Option<nat>)
    ensures r.Some? <==> retryCount < 5
    ensures r.Some? ==> r.value == RetryDelay(retryCount)
  {
    if retryCount < 5 then Some(RetryDelay(retryCount)) else None
  }

  /** The five reconnect delays are 1, 2, 4, 8 and 16 seconds: the cap is never reached. */
  lemma ReconnectBelowCap(retryCount: nat)
    requires retryCount < 5
    ensures ReconnectDelay(retryCount) == Some(1000 * Pow2(retryCount))
    ensures ReconnectDelay(retryCount).value <= 16000
  {
    RetryDelaySchedule(retryCount);
    assert Pow2(0) == 1 && Pow2(1) == 2 && Pow2(2) == 4 && Pow2(3) == 8 && Pow2(4) == 16;
  }

  /** A mutation's error counter: each failure with a context counts; a count above 3 forces a refresh and resets it. */
  class RetryCounter {
    var retryCount: nat

    constructor ()
      ensures retryCount == 0
    {
      retryCount := 0;
    }

    method OnError(hasContext: bool) returns (refresh: bool)
      modifies this
      ensures var c := if hasContext then old(retryCount) + 1 else old(retryCount);
        refresh == (c > 3) && retryCount == if c > 3 then 0 else c
    {
      if hasContext {
        retryCount := retryCount + 1;
      }
      refresh := retryCount > 3;
      if refresh {
        retryCount := 0;
      }
    }

    method OnSuccess()
      modifies this
      ensures retryCount == 0
    {
      retryCount := 0;
    }
  }

  /** From a reset counter, the fourth failure in a row forces the refresh, and the counter never exceeds 3 between calls. */
  method FourthFailureRefreshes() returns (refreshes: seq<bool>)
    ensures refreshes == [false, false, false, true]
  {
    var counter := new RetryCounter();
    var r1 := counter.OnError(true);
    var r2 := counter.OnError(true);
    var r3 := counter.OnError(true);
    var r4 := counter.OnError(true);
    refreshes := [r1, r2, r3, r4];
  }

  /**
   * The create mutation's `onMutate` registration: add the pending create,
   * then check for conflicts without a record id, a check that never fires,
   * so the conflict counter is never raised here.
   */
  method RegisterCreate(m: OptimisticManager, opId: string, collection: string, tempId: string,
                        now: int, data: map<string, string>)
    requires m.Valid()
    modifies m
    ensures m.Valid()
    ensures m.operations == Set(old(m.operations), opId, Operation(opId, CreateOp, collection, Some(tempId), now, Some(data), Pending))
    ensures m.conflictCount == old(m.conflictCount)
  {
    m.AddOperation(Operation(opId, CreateOp, collection, Some(tempId), now, Some(data), Pending));
    var conflict := m.HasConflictingOperations(collection, None);
    NoRecordNoConflict(m.operations, collection, None);
    assert !conflict;
  }

  /**
   * The update and delete mutations' `onMutate` registration as written:
   * the conflict check runs after the new operation is queued, so it sees
   * that operation, which always counts as a conflict with itself.
   */
  method RegisterChange(m: OptimisticManager, opId: string, kind: OpType, collection: string, id: string,
                        now: int, data: Option<map<string, string>>) returns (conflict: bool)
    requires m.Valid() && kind != CreateOp
    modifies m
    ensures m.Valid()
    ensures m.operations == Set(old(m.operations), opId, Operation(opId, kind, collection, Some(id), now, data, Pending))
    ensures conflict == AnyConflict(m.operations, collection, Some(id))
    ensures m.conflictCount == old(m.conflictCount) + (if conflict then 1 else 0)
  {
    m.AddOperation(Operation(opId, kind, collection, Some(id), now, data, Pending));
    conflict := m.HasConflictingOperations(collection, Some(id));
    if conflict {
      m.IncrementConflictCount();
    }
  }

  /** The operation queued as written is its own conflict: with any non-empty record id the check reports one. */
  lemma SelfConflict(t: Queue, op: Operation)
    requires WellKeyed(t)
    requires op.kind != CreateOp && op.status == Pending && op.recordId.Some? && op.recordId.value != ""
    ensures AnyConflict(Set(t, op.id, op), op.collection, op.recordId)
  {
    var r := Set(t, op.id, op);
    GetSet(t, op.id, op, op.id);
    var i :| 0 <= i < |r| && r[i] == Entry(op.id, op);
    assert Conflicts(r[i].value, op.collection, op.recordId);
  }

  /** The check the comment above it describes: conflicts with operations other than the one being queued. */
  function ConflictsWithOthers(t: Queue, op: Operation): (r: bool)
    ensures r <==> exists i :: 0 <= i < |t| && t[i].key != op.id && Conflicts(t[i].value, op.collection, op.recordId)
  {
    var others := OrderedMap.Delete(t, op.id);
    OthersConflict(t, op, others);
    AnyConflict(others, op.collection, op.recordId)
  }

  lemma OthersConflict(t: Queue, op: Operation, others: Queue)
    requires others == OrderedMap.Delete(t, op.id)
    ensures (exists j :: 0 <= j < |others| && Conflicts(others[j].value, op.collection, op.recordId))
      <==> exists i :: 0 <= i < |t| && t[i].key != op.id && Conflicts(t[i].value, op.collection, op.recordId)
  {
    if exists j :: 0 <= j < |others| && Conflicts(others[j].value, op.collection, op.recordId) {
      var j :| 0 <= j < |others| && Conflicts(others[j].value, op.collection, op.recordId);
      RemainingConflictIsOther(t, op, others, j);
    }
    if exists i :: 0 <= i < |t| && t[i].key != op.id && Conflicts(t[i].value, op.collection, op.recordId) {
      var i :| 0 <= i < |t| && t[i].key != op.id && Conflicts(t[i].value, op.collection, op.recordId);
      OtherConflictRemains(t, op, others, i);
    }
  }

  lemma RemainingConflictIsOther(t: Queue, op: Operation, others: Queue, j: int)
    requires others == OrderedMap.Delete(t, op.id)
    requires 0 <= j < |others| && Conflicts(others[j].value, op.collection, op.recordId)
    ensures exists i :: 0 <= i < |t| && t[i].key != op.id && Conflicts(t[i].value, op.collection, op.recordId)
  {
    assert others[j] in t;
    var i :| 0 <= i < |t| && t[i] == others[j];
    assert t[i].key != op.id;
  }

  lemma OtherConflictRemains(t: Queue, op: Operation, others: Queue, i: int)
    requires others == OrderedMap.Delete(t, op.id)
    requires 0 <= i < |t| && t[i].key != op.id && Conflicts(t[i].value, op.collection, op.recordId)
    ensures exists j :: 0 <= j < |others| && Conflicts(others[j].value, op.collection, op.recordId)
  {
    assert t[i] in others;
    var j :| 0 <= j < |others| && others[j] == t[i];
    assert Conflicts(others[j].value, op.collection, op.recordId);
  }

  /** With the own operation set aside, queuing a change on a record nobody else touches reports no conflict. */
  lemma NoOtherNoConflict(t: Queue, op: Operation)
    requires WellKeyed(t)
    requires forall i :: 0 <= i < |t| ==> t[i].value.recordId != op.recordId
    ensures !ConflictsWithOthers(Set(t, op.id, op), op)
  {
    var r := Set(t, op.id, op);
    forall i | 0 <= i < |r| && r[i].key != op.id ensures !Conflicts(r[i].value, op.collection, op.recordId) {
      if i < |t| {
        assert r[i] == t[i];
      }
    }
  }

  /** The registration with the check evidently meant: only other operations count as conflicts. */
  method RegisterChangeChecked(m: OptimisticManager, opId: string, kind: OpType, collection: string, id: string,
                               now: int, data: Option<map<string, string>>) returns (conflict: bool)
    requires m.Valid() && kind != CreateOp
    modifies m
    ensures m.Valid()
    ensures m.operations == Set(old(m.operations), opId, Operation(opId, kind, collection, Some(id), now, data, Pending))
    ensures conflict == ConflictsWithOthers(m.operations, Operation(opId, kind, collection, Some(id), now, data, Pending))
    ensures m.conflictCount == old(m.conflictCount) + (if conflict then 1 else 0)
  {
    var op := Operation(opId, kind, collection, Some(id), now, data, Pending);
    m.AddOperation(op);
    conflict := ConflictsWithOthers(m.operations, op);
    if conflict {
      m.IncrementConflictCount();
    }
  }
}
