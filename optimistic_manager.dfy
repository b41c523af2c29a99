/**
 * The queue of optimistic operations: a `Map` from operation id to
 * operation, a conflict check over the pending operations, the pending list
 * of a collection in timestamp order, age-based cleanup and a conflict
 * counter.  The clock and the random part of an operation id are parameters.
 */
module OptimisticQueue {
  import opened Wrappers
  import opened OrderedMap
  import opened Lists
  import opened Sorting
  import JsText

  datatype OpType = CreateOp | UpdateOp | DeleteOp
  datatype OpStatus = Pending | Done | Errored

  /** An operation; `data` is the payload it carries, as field/value pairs. */
  datatype Operation = Operation(id: string, kind: OpType, collection: string, recordId: Option<string>,
                                 timestamp: int, data: Option<map<string, string>>, status: OpStatus)

  type Queue = seq<Entry<string, Operation>>

  /** Every entry is keyed by its operation's id, once. */
  predicate WellKeyed(t: Queue) {
    DistinctKeys(t) && forall i :: 0 <= i < |t| ==> t[i].key == t[i].value.id
  }

  /** Five minutes, in milliseconds. */
  const MaxAge := 5 * 60 * 1000

  /** `op_<now>_<random>`. */
  function OperationId(now: nat, random: string): (r: string)
    ensures JsText.StartsWith(r, "op_")
  {
    "op_" + JsText.NatToString(now) + "_" + random
  }

  /** Ids drawn at the same instant differ when their random parts differ. */
  lemma OperationIdsDiffer(now: nat, random1: string, random2: string)
    requires random1 != random2
    ensures OperationId(now, random1) != OperationId(now, random2)
  {
    var p := "op_" + JsText.NatToString(now) + "_";
    assert OperationId(now, random1) == p + random1 && OperationId(now, random2) == p + random2;
    assert (p + random1)[|p|..] == random1 && (p + random2)[|p|..] == random2;
  }

  /** The test applied to one operation, branch by branch. */
  predicate Conflicts(op: Operation, collection: string, recordId: Option<string>) {
    if op.collection != collection then false
    else if op.status != Pending then false
    else if op.kind == DeleteOp && recordId.Some? && recordId.value != "" && op.recordId == recordId then true
    else if recordId.Some? && recordId.value != "" && op.recordId == recordId && op.kind != CreateOp then true
    else false
  }

  function ConflictsWith(collection: string, recordId: Option<string>): Operation -> bool {
    (op: Operation) => Conflicts(op, collection, recordId)
  }

  /** The branches collapse to one condition: a pending operation of the collection, on the record, that is not a create. */
  lemma ConflictsMeans(op: Operation, collection: string, recordId: Option<string>)
    ensures Conflicts(op, collection, recordId) <==>
      recordId.Some? && recordId.value != "" && op.collection == collection && op.status == Pending
      && op.recordId == recordId && op.kind != CreateOp
  {
  }

  /** `operations.some(...)` over the queue's values. */
  function AnyConflict(t: Queue, collection: string, recordId: Option<string>): (r: bool)
    ensures r <==> exists i :: 0 <= i < |t| && Conflicts(t[i].value, collection, recordId)
  {
    var k := FindIndex(Values(t), ConflictsWith(collection, recordId));
    assert k >= 0 ==> Conflicts(t[k].value, collection, recordId);
    assert k < 0 ==> forall i :: 0 <= i < |t| ==> !ConflictsWith(collection, recordId)(Values(t)[i]);
    k >= 0
  }

  /** Without a record id (or with an empty one) nothing conflicts; a create call never passes one. */
  lemma NoRecordNoConflict(t: Queue, collection: string, recordId: Option<string>)
    requires recordId.None? || recordId == Some("")
    ensures !AnyConflict(t, collection, recordId)
  {
  }

  /** A conflict is reported exactly when a pending non-create operation of the collection targets the record. */
  lemma AnyConflictMeans(t: Queue, collection: string, recordId: string)
    requires recordId != ""
    ensures AnyConflict(t, collection, Some(recordId)) <==>
      exists i :: 0 <= i < |t| && t[i].value.collection == collection && t[i].value.status == Pending
        && t[i].value.recordId == Some(recordId) && t[i].value.kind != CreateOp
  {
  }

  function PendingIn(collection: string): Operation -> bool {
    (op: Operation) => op.collection == collection && op.status == Pending
  }

  function ByTimestamp(): (Operation, Operation) -> bool {
    (a: Operation, b: Operation) => a.timestamp <= b.timestamp
  }

  /** The pending operations of a collection, by ascending timestamp (stable among equal timestamps). */
  function PendingOf(t: Queue, collection: string): (r: seq<Operation>)
    ensures multiset(r) == multiset(Filter(Values(t), PendingIn(collection)))
    ensures forall i :: 0 <= i < |r| ==> r[i].collection == collection && r[i].status == Pending
    ensures forall i :: 0 <= i < |t| && t[i].value.collection == collection && t[i].value.status == Pending ==> t[i].value in r
    ensures forall i, j :: 0 <= i < j < |r| ==> r[i].timestamp <= r[j].timestamp
  {
    var pending := Filter(Values(t), PendingIn(collection));
    var r := SortBy(pending, ByTimestamp());
    SortByTotalSorted(pending, ByTimestamp());
    forall i | 0 <= i < |r| ensures r[i].collection == collection && r[i].status == Pending {
      assert r[i] in multiset(pending);
      var j :| 0 <= j < |pending| && pending[j] == r[i];
      assert PendingIn(collection)(pending[j]);
    }
    forall i | 0 <= i < |t| && t[i].value.collection == collection && t[i].value.status == Pending
      ensures t[i].value in r
    {
      assert Values(t)[i] == t[i].value;
      assert t[i].value in multiset(pending);
    }
    r
  }

  function FreshAt(now: int): Entry<string, Operation> -> bool {
    (e: Entry<string, Operation>) => now - e.value.timestamp < MaxAge
  }

  lemma {:induction false} FilterWellKeyed(t: Queue, p: Entry<string, Operation> -> bool)
    requires WellKeyed(t)
    ensures WellKeyed(Filter(t, p))
  {
    if t != [] {
      WellKeyedTail(t);
      FilterWellKeyed(t[1..], p);
      if p(t[0]) {
        WellKeyedCons(t, Filter(t[1..], p));
      }
    }
  }

  lemma WellKeyedTail(t: Queue)
    requires t != [] && WellKeyed(t)
    ensures WellKeyed(t[1..])
  {
    forall i, j | 0 <= i < j < |t[1..]| ensures t[1..][i].key != t[1..][j].key {
      assert t[1..][i] == t[i + 1] && t[1..][j] == t[j + 1];
    }
  }

  /** Keeping the head in front of well-keyed entries drawn from the tail stays well keyed. */
  lemma WellKeyedCons(t: Queue, rest: Queue)
    requires t != [] && WellKeyed(t) && WellKeyed(rest) && multiset(rest) <= multiset(t[1..])
    ensures WellKeyed([t[0]] + rest)
  {
    var r := [t[0]] + rest;
    forall j | 1 <= j < |r| ensures r[0].key != r[j].key {
      assert r[j] == rest[j - 1];
      assert rest[j - 1] in multiset(t[1..]);
      var m :| 0 <= m < |t[1..]| && t[1..][m] == rest[j - 1];
      assert t[m + 1] == r[j];
    }
    forall i, j | 0 <= i < j < |r| ensures r[i].key != r[j].key {
      if i > 0 {
        assert r[i] == rest[i - 1] && r[j] == rest[j - 1];
      }
    }
    forall i | 0 <= i < |r| ensures r[i].key == r[i].value.id {
      if i > 0 {
        assert r[i] == rest[i - 1];
      }
    }
  }

  /** After cleanup a key maps to its operation exactly when that operation is younger than five minutes. */
  lemma CleanupKeepsYoung(t: Queue, now: int, id: string)
    requires WellKeyed(t)
    ensures var g := Get(t, id);
      Get(Filter(t, FreshAt(now)), id) == if g.Some? && now - g.value.timestamp < MaxAge then g else None
  {
    var r := Filter(t, FreshAt(now));
    FilterWellKeyed(t, FreshAt(now));
    var g := Get(t, id);
    if g.Some? {
      var i :| 0 <= i < |t| && t[i] == Entry(id, g.value);
      if now - g.value.timestamp < MaxAge {
        assert FreshAt(now)(t[i]);
        assert t[i] in r;
        var j :| 0 <= j < |r| && r[j] == t[i];
      } else {
        forall j | 0 <= j < |r| ensures r[j].key != id {
          assert r[j] in multiset(t);
          var m :| 0 <= m < |t| && t[m] == r[j];
          assert FreshAt(now)(r[j]);
        }
      }
    } else {
      forall j | 0 <= j < |r| ensures r[j].key != id {
        assert r[j] in multiset(t);
        var m :| 0 <= m < |t| && t[m] == r[j];
      }
    }
  }

  /** While cleanup walks the queue, the key it reaches has not been kept yet. */
  lemma NotYetKept(t: Queue, i: int, now: int)
    requires WellKeyed(t) && 0 <= i < |t|
    ensures !HasKey(Filter(t[..i], FreshAt(now)), t[i].key)
  {
    var kept := Filter(t[..i], FreshAt(now));
    forall j | 0 <= j < |kept| ensures kept[j].key != t[i].key {
      assert kept[j] in multiset(t[..i]);
      var m :| 0 <= m < i && t[..i][m] == kept[j];
      assert t[m] == kept[j];
    }
  }

  /** One step of the copy: `set` on a fresh key appends, so the copy so far stays the filtered prefix. */
  lemma KeepStep(t: Queue, i: int, now: int)
    requires WellKeyed(t) && 0 <= i < |t|
    ensures var kept, e := Filter(t[..i], FreshAt(now)), t[i];
      Filter(t[..i + 1], FreshAt(now)) == if now - e.value.timestamp < MaxAge then Set(kept, e.key, e.value) else kept
  {
    var e := t[i];
    FilterAppend(t[..i], [e], FreshAt(now));
    assert t[..i + 1] == t[..i] + [e];
    assert [e][1..] == [];
    NotYetKept(t, i, now);
  }

  /** The updater `cleanup` passes to the store: copy the young entries into a fresh map, one `set` each. */
  method KeepYoung(prev: Queue, now: int) returns (kept: Queue)
    requires WellKeyed(prev)
    ensures kept == Filter(prev, FreshAt(now))
  {
    kept := [];
    var i := 0;
    while i < |prev|
      invariant 0 <= i <= |prev|
      invariant kept == Filter(prev[..i], FreshAt(now))
    {
      var e := prev[i];
      KeepStep(prev, i, now);
      if now - e.value.timestamp < MaxAge {
        kept := Set(kept, e.key, e.value);
      }
      i := i + 1;
    }
    assert prev[..|prev|] == prev;
  }

  class OptimisticManager {
    var operations: Queue
    var isProcessing: bool
    var conflictCount: nat

    predicate Valid()
      reads this
    {
      WellKeyed(operations)
    }

    constructor ()
      ensures Valid() && operations == [] && !isProcessing && conflictCount == 0
    {
      operations := [];
      isProcessing := false;
      conflictCount := 0;
    }

    /** Inserts or replaces the entry for the operation's id. */
    method AddOperation(op: Operation)
      requires Valid()
      modifies this
      ensures Valid()
      ensures operations == Set(old(operations), op.id, op)
      ensures forall k :: Get(operations, k) == if k == op.id then Some(op) else Get(old(operations), k)
      ensures conflictCount == old(conflictCount) && isProcessing == old(isProcessing)
    {
      var prev := operations;
      forall k ensures Get(Set(prev, op.id, op), k) == if k == op.id then Some(op) else Get(prev, k) {
        GetSet(prev, op.id, op, k);
      }
      operations := Set(prev, op.id, op);
      GetSet(prev, op.id, op, op.id);
      forall i | 0 <= i < |operations| ensures operations[i].key == operations[i].value.id {
        if i >= |prev| {
          assert operations[i] == Entry(op.id, op);
        }
      }
    }

    /** Deletes the entry for the id; an unknown id changes nothing. */
    method RemoveOperation(id: string)
      requires Valid()
      modifies this
      ensures Valid()
      ensures operations == Delete(old(operations), id)
      ensures forall k :: Get(operations, k) == if k == id then None else Get(old(operations), k)
      ensures !HasKey(old(operations), id) ==> operations == old(operations)
      ensures conflictCount == old(conflictCount) && isProcessing == old(isProcessing)
    {
      var prev := operations;
      forall k ensures Get(Delete(prev, id), k) == if k == id then None else Get(prev, k) {
        GetDelete(prev, id, k);
      }
      GetDelete(prev, id, id);
      operations := Delete(prev, id);
      forall i | 0 <= i < |operations| ensures operations[i].key == operations[i].value.id {
        var m :| 0 <= m < |prev| && prev[m] == operations[i];
      }
    }

    method GetOperation(id: string) returns (r: Option<Operation>)
      ensures r == Get(operations, id)
    {
      r := Get(operations, id);
    }

    method HasConflictingOperations(collection: string, recordId: Option<string>) returns (r: bool)
      ensures r == AnyConflict(operations, collection, recordId)
    {
      r := AnyConflict(operations, collection, recordId);
    }

    method GetPendingOperations(collection: string) returns (r: seq<Operation>)
      ensures r == PendingOf(operations, collection)
    {
      r := PendingOf(operations, collection);
    }

    /** Sets the status of a known operation; an unknown id changes nothing. */
    method UpdateOperationStatus(id: string, status: OpStatus)
      requires Valid()
      modifies this
      ensures Valid()
      ensures var g := Get(old(operations), id);
        operations == if g.Some? then Set(old(operations), id, g.value.(status := status)) else old(operations)
      ensures var g := Get(old(operations), id);
        forall k :: Get(operations, k) == if k == id && g.Some? then Some(g.value.(status := status)) else Get(old(operations), k)
      ensures conflictCount == old(conflictCount) && isProcessing == old(isProcessing)
    {
      var existing := Get(operations, id);
      if existing.Some? {
        var prev := operations;
        var updated := existing.value.(status := status);
        forall k ensures Get(Set(prev, id, updated), k) == if k == id then Some(updated) else Get(prev, k) {
          GetSet(prev, id, updated, k);
        }
        GetSet(prev, id, updated, id);
        var i :| 0 <= i < |prev| && prev[i] == Entry(id, existing.value);
        operations := Set(prev, id, updated);
      }
    }

    /** Rebuilds the queue from the operations younger than five minutes, in their order. */
    method Cleanup(now: int)
      requires Valid()
      modifies this
      ensures Valid()
      ensures operations == Filter(old(operations), FreshAt(now))
      ensures conflictCount == old(conflictCount) && isProcessing == old(isProcessing)
    {
      FilterWellKeyed(operations, FreshAt(now));
      operations := KeepYoung(operations, now);
    }

    method GetState() returns (queue: Queue, processing: bool, conflicts: nat)
      ensures queue == operations && processing == isProcessing && conflicts == conflictCount
    {
      queue, processing, conflicts := operations, isProcessing, conflictCount;
    }

    method IncrementConflictCount()
      modifies this
      ensures conflictCount == old(conflictCount) + 1
      ensures operations == old(operations) && isProcessing == old(isProcessing)
    {
      conflictCount := conflictCount + 1;
    }
  }
}
