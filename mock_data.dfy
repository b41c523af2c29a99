/**
 * The localStorage stand-in for the PocketBase data layer: each collection
 * is a JSON list of records under its own key.  The list query sorts by one
 * field and paginates; update merges into the matching records; delete
 * removes every record with the id; create appends.  Fresh ids and the
 * clock are parameters.
 */
module MockData {
  import opened Wrappers
  import opened Lists
  import opened Sorting
  import opened Storage
  import opened QueryKeys

  /** A record: the system fields and the collection's own fields as strings. */
  datatype Record = Record(id: string, created: string, updated: string, collectionId: string,
                           collectionName: string, fields: map<string, string>)

  /** `record[name]`: `None` is `undefined`. */
  function FieldValue(r: Record, name: string): Option<string> {
    if name == "id" then Some(r.id)
    else if name == "created" then Some(r.created)
    else if name == "updated" then Some(r.updated)
    else if name == "collectionId" then Some(r.collectionId)
    else if name == "collectionName" then Some(r.collectionName)
    else if name in r.fields then Some(r.fields[name])
    else None
  }

  predicate StringLt(a: string, b: string) {
    StringLe(a, b) && a != b
  }

  datatype SortSpec = SortSpec(field: string, descending: bool)

  /** One leading '-' (descending) or '+' (ascending) is stripped from the field name. */
  function ParseSort(sort: string): (r: SortSpec)
    ensures r.descending <==> |sort| > 0 && sort[0] == '-'
    ensures |sort| > 0 && (sort[0] == '-' || sort[0] == '+') ==> r.field == sort[1..]
    ensures !(|sort| > 0 && (sort[0] == '-' || sort[0] == '+')) ==> r.field == sort
  {
    if |sort| > 0 && (sort[0] == '-' || sort[0] == '+') then SortSpec(sort[1..], sort[0] == '-')
    else SortSpec(sort, false)
  }

  /** The comparator: values compare with `<` and `>`; `undefined` against anything compares as 0. */
  function Compare(a: Record, b: Record, spec: SortSpec): (r: int)
    ensures r in {-1, 0, 1}
  {
    var av, bv := FieldValue(a, spec.field), FieldValue(b, spec.field);
    if av.Some? && bv.Some? && StringLt(av.value, bv.value) then (if spec.descending then 1 else -1)
    else if av.Some? && bv.Some? && StringLt(bv.value, av.value) then (if spec.descending then -1 else 1)
    else 0
  }

  function SortLe(spec: SortSpec): (Record, Record) -> bool {
    (a: Record, b: Record) => Compare(a, b, spec) <= 0
  }

  /** The sort stage: a stable sort by the comparator when a sort is given. */
  function SortRecords(items: seq<Record>, sort: Option<string>): (r: seq<Record>)
    ensures multiset(r) == multiset(items)
    ensures sort.None? || sort == Some("") ==> r == items
  {
    if sort.Some? && sort.value != "" then SortBy(items, SortLe(ParseSort(sort.value))) else items
  }

  function HasField(field: string): Record -> bool {
    (r: Record) => FieldValue(r, field).Some?
  }

  /** Between records that have the field, the comparator orders by the field's string order. */
  lemma SortLeMeans(spec: SortSpec, a: Record, b: Record)
    requires FieldValue(a, spec.field).Some? && FieldValue(b, spec.field).Some?
    ensures var av, bv := FieldValue(a, spec.field).value, FieldValue(b, spec.field).value;
      SortLe(spec)(a, b) <==> if spec.descending then StringLe(bv, av) else StringLe(av, bv)
  {
    var av, bv := FieldValue(a, spec.field).value, FieldValue(b, spec.field).value;
    StringLeTotal(av, bv);
    if StringLe(av, bv) && StringLe(bv, av) {
      StringLeAntisymmetric(av, bv);
    }
  }

  /** On records that all have the sort field, the comparator is a total preorder. */
  lemma SortLePreorder(spec: SortSpec)
    ensures PreorderOn(SortLe(spec), HasField(spec.field))
  {
    var le := SortLe(spec);
    var dom := HasField(spec.field);
    forall a, b | dom(a) && dom(b) ensures le(a, b) || le(b, a) {
      SortLeMeans(spec, a, b);
      SortLeMeans(spec, b, a);
      StringLeTotal(FieldValue(a, spec.field).value, FieldValue(b, spec.field).value);
    }
    forall a, b, c | dom(a) && dom(b) && dom(c) && le(a, b) && le(b, c) ensures le(a, c) {
      var av, bv, cv := FieldValue(a, spec.field).value, FieldValue(b, spec.field).value, FieldValue(c, spec.field).value;
      SortLeMeans(spec, a, b);
      SortLeMeans(spec, b, c);
      SortLeMeans(spec, a, c);
      if spec.descending {
        StringLeTransitive(cv, bv, av);
      } else {
        StringLeTransitive(av, bv, cv);
      }
    }
  }

  /**
   * When every record has the sort field, the result is ordered by it:
   * ascending, or descending for a leading '-'.
   */
  lemma SortRecordsOrdered(items: seq<Record>, sort: string)
    requires sort != ""
    requires forall k :: 0 <= k < |items| ==> FieldValue(items[k], ParseSort(sort).field).Some?
    ensures var spec, r := ParseSort(sort), SortRecords(items, Some(sort));
      forall i, j :: 0 <= i < j < |r| ==>
        FieldValue(r[i], spec.field).Some? && FieldValue(r[j], spec.field).Some? &&
        if spec.descending then StringLe(FieldValue(r[j], spec.field).value, FieldValue(r[i], spec.field).value)
        else StringLe(FieldValue(r[i], spec.field).value, FieldValue(r[j], spec.field).value)
  {
    var spec := ParseSort(sort);
    var r := SortRecords(items, Some(sort));
    SortLePreorder(spec);
    SortBySorted(items, SortLe(spec), HasField(spec.field));
    forall k | 0 <= k < |r| ensures FieldValue(r[k], spec.field).Some? {
      assert r[k] in multiset(r);
      assert r[k] in items;
    }
    forall i, j | 0 <= i < j < |r|
      ensures if spec.descending then StringLe(FieldValue(r[j], spec.field).value, FieldValue(r[i], spec.field).value)
              else StringLe(FieldValue(r[i], spec.field).value, FieldValue(r[j], spec.field).value)
    {
      assert SortLe(spec)(r[i], r[j]);
      SortLeMeans(spec, r[i], r[j]);
    }
  }

  /** `Math.ceil(n / perPage)` on whole numbers: a division by 0 gives Infinity, or NaN for 0 / 0. */
  datatype JsNumber = Finite(n: int) | Infinity | NaN

  function CeilDiv(n: nat, d: int): (r: JsNumber)
    ensures d != 0 <==> r.Finite?
    ensures d == 0 ==> r == if n == 0 then NaN else Infinity
  {
    if d == 0 then (if n == 0 then NaN else Infinity)
    else if d > 0 then Finite(CeilQuotient(n, d))
    else Finite(-(FloorQuotient(n, -d) as int))
  }

  /** `n / d` rounded up, for a positive `d`, by repeated subtraction. */
  function CeilQuotient(n: nat, d: int): (q: nat)
    requires d > 0
    decreases n
  {
    if n == 0 then 0 else if n <= d then 1 else 1 + CeilQuotient(n - d, d)
  }

  /** `n / d` rounded down, for a positive `d`, by repeated subtraction. */
  function FloorQuotient(n: nat, d: int): (q: nat)
    requires d > 0
    decreases n
  {
    if n < d then 0 else 1 + FloorQuotient(n - d, d)
  }

  /** For a positive divisor the page count is the least number of pages that holds all `n` records. */
  lemma {:induction false} CeilDivBounds(n: nat, d: int)
    requires d > 0
    ensures CeilDiv(n, d).n * d >= n && (CeilDiv(n, d).n - 1) * d < n
    decreases n
  {
    if n > d {
      CeilDivBounds(n - d, d);
      var q := CeilQuotient(n - d, d);
      assert (q + 1) * d == q * d + d;
    }
  }

  /** Rounding down: `q * d <= n < (q + 1) * d`. */
  lemma {:induction false} FloorQuotientBounds(n: nat, d: int)
    requires d > 0
    ensures FloorQuotient(n, d) * d <= n < (FloorQuotient(n, d) + 1) * d
    decreases n
  {
    if n >= d {
      FloorQuotientBounds(n - d, d);
      var q := FloorQuotient(n - d, d);
      assert (q + 1) * d == q * d + d;
      assert (q + 2) * d == q * d + d + d;
    }
  }

  datatype ListResult = ListResult(page: int, perPage: int, totalPages: JsNumber, totalItems: nat, items: seq<Record>)

  /** The pagination stage, with page 1 and perPage 50 when left out. */
  function Paginate(items: seq<Record>, page: Option<int>, perPage: Option<int>): (r: ListResult)
    ensures r.page == OrDefault(page, 1) && r.perPage == OrDefault(perPage, 50)
    ensures r.totalItems == |items| && r.totalPages == CeilDiv(|items|, r.perPage)
    ensures r.items == Slice(items, (r.page - 1) * r.perPage, (r.page - 1) * r.perPage + r.perPage)
  {
    var p := OrDefault(page, 1);
    var pp := OrDefault(perPage, 50);
    var start := (p - 1) * pp;
    ListResult(p, pp, CeilDiv(|items|, pp), |items|, Slice(items, start, start + pp))
  }

  /** For page >= 1 and perPage >= 1 the page is the window of perPage records from `(page-1)*perPage`, cut at the end. */
  lemma PageWindow(items: seq<Record>, page: int, perPage: int)
    requires page >= 1 && perPage >= 1
    ensures var r, start := Paginate(items, Some(page), Some(perPage)), PageStart(page, perPage);
      |r.items| <= perPage
      && (start < |items| ==> r.items == items[start..if start + perPage < |items| then start + perPage else |items|])
      && (start >= |items| ==> r.items == [])
  {
  }

  /** Where a page of `perPage` records starts: never before the first record. */
  function PageStart(page: int, perPage: int): (start: int)
    requires page >= 1 && perPage >= 1
    ensures start >= 0 && start == (page - 1) * perPage
  {
    MulNonNegative(page - 1, perPage);
    (page - 1) * perPage
  }

  lemma MulNonNegative(a: nat, b: nat)
    ensures a * b >= 0
  {
  }

  /** The last page of a non-empty list holds something. */
  lemma LastPageHoldsRecords(items: seq<Record>, perPage: int)
    requires perPage >= 1 && |items| > 0
    ensures var last := CeilDiv(|items|, perPage).n;
      last >= 1 && Paginate(items, Some(last), Some(perPage)).items != []
  {
    LastPageStarts(|items|, perPage);
    PageInside(items, CeilDiv(|items|, perPage).n, perPage);
  }

  /** The page after the last one is empty. */
  lemma PageAfterLastEmpty(items: seq<Record>, perPage: int)
    requires perPage >= 1 && |items| > 0
    ensures Paginate(items, Some(CeilDiv(|items|, perPage).n + 1), Some(perPage)).items == []
  {
    LastPageStarts(|items|, perPage);
    PagePastEnd(items, CeilDiv(|items|, perPage).n + 1, perPage);
  }

  /** A page starting inside the list holds something. */
  lemma PageInside(items: seq<Record>, page: int, perPage: int)
    requires page >= 1 && perPage >= 1 && PageStart(page, perPage) < |items|
    ensures Paginate(items, Some(page), Some(perPage)).items != []
  {
    PageWindow(items, page, perPage);
  }

  /** A page starting at or past the end of the list holds nothing. */
  lemma PagePastEnd(items: seq<Record>, page: int, perPage: int)
    requires page >= 1 && perPage >= 1 && PageStart(page, perPage) >= |items|
    ensures Paginate(items, Some(page), Some(perPage)).items == []
  {
    PageWindow(items, page, perPage);
  }

  /** The last page starts before the end of the list and the one after it at or past the end. */
  lemma LastPageStarts(n: nat, perPage: int)
    requires perPage >= 1 && n > 0
    ensures var last := CeilDiv(n, perPage).n;
      last >= 1 && PageStart(last, perPage) < n && PageStart(last + 1, perPage) >= n
  {
    var last := CeilDiv(n, perPage).n;
    CeilDivBounds(n, perPage);
    assert (last - 1) * perPage < n <= last * perPage;
    assert last >= 1 by { PositiveFactor(last, perPage, n); }
    assert PageStart(last + 1, perPage) == last * perPage;
  }

  lemma PositiveFactor(a: int, b: int, n: int)
    requires b >= 1 && n > 0 && a * b >= n
    ensures a >= 1
  {
    if a <= 0 {
      MulNonNegative(-a, b);
      assert false;
    }
  }

  /** The default perPage of 50 caps a page at 50 records. */
  lemma DefaultPageSize(items: seq<Record>)
    ensures |Paginate(items, None, None).items| <= 50
    ensures Paginate(items, None, None).items == items[..if |items| < 50 then |items| else 50]
  {
    assert Paginate(items, None, None) == Paginate(items, Some(1), Some(50));
    PageWindow(items, 1, 50);
  }

  /** The body of the list query: sort (the filter is not applied), then paginate. */
  function ListQuery(items: seq<Record>, options: QueryOptions): (r: ListResult)
    ensures r.totalItems == |items|
    ensures multiset(r.items) <= multiset(items)
  {
    var sorted := SortRecords(items, options.sort);
    PaginateWithin(sorted, options.page, options.perPage);
    Paginate(sorted, options.page, options.perPage)
  }

  /** A page draws its records from the list. */
  lemma PaginateWithin(items: seq<Record>, page: Option<int>, perPage: Option<int>)
    ensures multiset(Paginate(items, page, perPage).items) <= multiset(items)
  {
    var p, pp := OrDefault(page, 1), OrDefault(perPage, 50);
    var start := (p - 1) * pp;
    SliceSub(items, start, start + pp);
  }

  lemma SliceSub(s: seq<Record>, start: int, end: int)
    ensures multiset(Slice(s, start, end)) <= multiset(s)
  {
    var a, b := SliceIndex(start, |s|), SliceIndex(end, |s|);
    if a < b {
      assert s == s[..a] + s[a..b] + s[b..];
    }
  }

  function RecordIs(id: string): Record -> bool {
    (r: Record) => r.id == id
  }

  function NotRecord(id: string): Record -> bool {
    (r: Record) => r.id != id
  }

  /** The detail query: the first record with the id, or the not-found error. */
  function DetailQuery(items: seq<Record>, id: string): (r: Result<Record, string>)
    ensures r.Failure? <==> forall k :: 0 <= k < |items| ==> items[k].id != id
    ensures r.Failure? ==> r.error == "[DEMO] Record not found: " + id
    ensures r.Success? ==> r.value.id == id && r.value in items
  {
    var k := FindIndex(items, RecordIs(id));
    if k < 0 then Failure("[DEMO] Record not found: " + id) else Success(items[k])
  }

  /** The detail query runs only for a non-empty id. */
  predicate DetailEnabled(id: string) {
    id != ""
  }

  /** `createMockRecord`: the id is 'local_' followed by the fresh suffix. */
  function MockRecord(collection: string, data: map<string, string>, idSuffix: string, now: string): (r: Record)
    ensures r.id == "local_" + idSuffix && r.created == now && r.updated == now
    ensures r.collectionId == "local_" + collection && r.collectionName == collection && r.fields == data
  {
    Record("local_" + idSuffix, now, now, "local_" + collection, collection, data)
  }

  /** `{...item, ...data, updated: now}` for a record with the id; other records pass through. */
  function UpdateRecords(items: seq<Record>, id: string, data: map<string, string>, now: string): (r: seq<Record>)
    ensures |r| == |items|
    ensures forall k :: 0 <= k < |items| && items[k].id != id ==> r[k] == items[k]
    ensures forall k :: 0 <= k < |items| && items[k].id == id ==>
      r[k] == items[k].(fields := items[k].fields + data, updated := now)
  {
    seq(|items|, k requires 0 <= k < |items| =>
      if items[k].id == id then items[k].(fields := items[k].fields + data, updated := now) else items[k])
  }

  /**
   * The update mutation on a list: every record with the id is merged; the
   * first one is returned.  With no record of that id it fails.
   */
  function UpdateMutation(items: seq<Record>, id: string, data: map<string, string>, now: string): (r: Result<(seq<Record>, Record), string>)
    ensures r.Failure? <==> forall k :: 0 <= k < |items| ==> items[k].id != id
    ensures r.Failure? ==> r.error == "[DEMO] Record not found for update: " + id
    ensures r.Success? ==> (
      var k := FindIndex(items, RecordIs(id));
      r.value.0 == UpdateRecords(items, id, data, now)
      && r.value.1 == items[k].(fields := items[k].fields + data, updated := now))
  {
    var updated := UpdateRecords(items, id, data, now);
    var k := FindIndex(updated, RecordIs(id));
    if k < 0 then
      assert forall j :: 0 <= j < |items| ==> items[j].id != id by {
        forall j | 0 <= j < |items| ensures items[j].id != id {
          assert !RecordIs(id)(updated[j]);
        }
      }
      Failure("[DEMO] Record not found for update: " + id)
    else
      Success((updated, updated[k]))
  }

  /** The delete mutation on a list: every record with the id goes; nothing removed is an error. */
  function DeleteMutation(items: seq<Record>, id: string): (r: Result<seq<Record>, string>)
    ensures r.Failure? <==> forall k :: 0 <= k < |items| ==> items[k].id != id
    ensures r.Failure? ==> r.error == "[DEMO] Record not found for deletion: " + id
    ensures r.Success? ==> |r.value| < |items| && forall k :: 0 <= k < |r.value| ==> r.value[k].id != id
    ensures r.Success? ==> r.value == Filter(items, NotRecord(id))
  {
    var kept := Filter(items, NotRecord(id));
    FilterDropsMatch(items, id);
    if |kept| == |items| then Failure("[DEMO] Record not found for deletion: " + id) else Success(kept)
  }

  lemma {:induction false} FilterDropsMatch(items: seq<Record>, id: string)
    ensures |Filter(items, NotRecord(id))| == |items| <==> forall k :: 0 <= k < |items| ==> items[k].id != id
  {
    if items != [] {
      FilterDropsMatch(items[1..], id);
      assert forall k :: 1 <= k < |items| ==> items[k] == items[1..][k - 1];
      assert |Filter(items[1..], NotRecord(id))| <= |items[1..]|;
    }
  }

  /** The records of every collection, one storage key `pb_mock_<collection>` each. */
  class MockStore {
    var slots: map<string, Slot<seq<Record>>>

    constructor (slots: map<string, Slot<seq<Record>>>)
      ensures this.slots == slots
    {
      this.slots := slots;
    }

    /** `getCollectionFromStorage`: [] when the key is missing or does not parse. */
    function Records(collection: string): seq<Record>
      reads this
    {
      if collection in slots then Read(slots[collection]) else []
    }

    method List(collection: string, options: QueryOptions) returns (r: ListResult)
      ensures r == ListQuery(Records(collection), options)
    {
      var items := Records(collection);
      if options.sort.Some? && options.sort.value != "" {
        items := SortBy(items, SortLe(ParseSort(options.sort.value)));
      }
      var page := OrDefault(options.page, 1);
      var perPage := OrDefault(options.perPage, 50);
      var startIdx := (page - 1) * perPage;
      var endIdx := startIdx + perPage;
      r := ListResult(page, perPage, CeilDiv(|items|, perPage), |items|, Slice(items, startIdx, endIdx));
    }

    method Detail(collection: string, id: string) returns (r: Result<Record, string>)
      ensures r == DetailQuery(Records(collection), id)
    {
      r := DetailQuery(Records(collection), id);
    }

    /** Appends exactly one record, at the end. */
    method Create(collection: string, data: map<string, string>, idSuffix: string, now: string) returns (r: Record)
      modifies this
      ensures r == MockRecord(collection, data, idSuffix, now)
      ensures slots == old(slots)[collection := Stored(old(Records(collection)) + [r])]
    {
      var items := Records(collection);
      r := MockRecord(collection, data, idSuffix, now);
      slots := slots[collection := Stored(items + [r])];
    }

    /** Writes nothing when no record has the id. */
    method Update(collection: string, id: string, data: map<string, string>, now: string) returns (r: Result<Record, string>)
      modifies this
      ensures var m := UpdateMutation(old(Records(collection)), id, data, now);
        (m.Failure? ==> (r == Failure(m.error) && slots == old(slots)))
        && (m.Success? ==> (r == Success(m.value.1) && slots == old(slots)[collection := Stored(m.value.0)]))
    {
      var m := UpdateMutation(Records(collection), id, data, now);
      if m.Failure? {
        return Failure(m.error);
      }
      slots := slots[collection := Stored(m.value.0)];
      r := Success(m.value.1);
    }

    /** Writes nothing when nothing was removed. */
    method Delete(collection: string, id: string) returns (r: Result<string, string>)
      modifies this
      ensures var m := DeleteMutation(old(Records(collection)), id);
        (m.Failure? ==> (r == Failure(m.error) && slots == old(slots)))
        && (m.Success? ==> (r == Success(id) && slots == old(slots)[collection := Stored(m.value)]))
    {
      var m := DeleteMutation(Records(collection), id);
      if m.Failure? {
        return Failure(m.error);
      }
      slots := slots[collection := Stored(m.value)];
      r := Success(id);
    }
  }

  /** A key holding text that does not parse reads as the empty collection. */
  lemma UnparsableReadsEmpty(store: MockStore, collection: string)
    requires collection in store.slots && store.slots[collection] == Unparsable
    ensures store.Records(collection) == []
  {
  }
}
