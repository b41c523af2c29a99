/**
 * The appointment list pipeline shared by the appointments store and the
 * appointments page: a case-insensitive search over patient name, type and
 * notes, a date filter, a status filter, a sort by date, and the grouping
 * by calendar day for the agenda view.  The two places differ in their
 * record types, which they present here as a `Listing`.
 *
 * Date parsing, "today / this week / this month" and `yyyy-MM-dd`
 * formatting come from date-fns and the clock; they are the `Calendar`
 * oracles.
 */
module AppointmentFilters {
  import opened Wrappers
  import opened JsText
  import opened OrderedMap
  import Lists
  import Sorting
  import Grouping

  datatype DateFilter = AllDates | Today | ThisWeek | ThisMonth | Custom

  datatype DateRange = DateRange(start: string, end: string)

  const EmptyRange := DateRange("", "")

  /** 'all', or one stored status value. */
  datatype StatusFilter = AnyStatus | OnlyStatus(value: string)

  datatype Criteria = Criteria(searchQuery: string, dateFilter: DateFilter, statusFilter: StatusFilter, range: DateRange)

  /**
   * What the pipeline reads of a date text: `parseISO(text).getTime()` and
   * `new Date(text).getTime()` (`None` for an invalid date, whose
   * comparisons are all false), the three clock-relative tests applied to
   * `parseISO(text)`, and `format(parseISO(text), 'yyyy-MM-dd')` (`None`
   * where `format` throws on an invalid date).
   */
  datatype Calendar = Calendar(
    parseIso: string -> Option<int>,
    newDate: string -> Option<int>,
    isToday: string -> bool,
    isThisWeek: string -> bool,
    isThisMonth: string -> bool,
    dayKey: string -> Option<string>)

  /** What the filters see of one appointment; a missing type or note is "". */
  datatype Listing = Listing(patientName: string, kind: string, notes: string, date: string, status: Option<string>)

  // -------------------------------------------------------------- stages

  /** The lower-cased query occurs in the lower-cased name, type or notes. */
  predicate MatchesQuery(l: Listing, query: string) {
    var q := ToLower(query);
    Includes(ToLower(l.patientName), q) || Includes(ToLower(l.kind), q) || Includes(ToLower(l.notes), q)
  }

  /** `aptDate >= start && aptDate <= end` on dates: false as soon as one of them is invalid. */
  predicate InRange(cal: Calendar, date: string, range: DateRange) {
    var a, s, e := cal.parseIso(date), cal.parseIso(range.start), cal.parseIso(range.end);
    a.Some? && s.Some? && e.Some? && s.value <= a.value <= e.value
  }

  /** The date filter's test; a custom range missing either bound lets everything through. */
  predicate PassesDate(cal: Calendar, f: DateFilter, range: DateRange, date: string) {
    match f
    case AllDates => true
    case Today => cal.isToday(date)
    case ThisWeek => cal.isThisWeek(date)
    case ThisMonth => cal.isThisMonth(date)
    case Custom => if range.start != "" && range.end != "" then InRange(cal, date, range) else true
  }

  predicate PassesStatus(f: StatusFilter, status: Option<string>) {
    f.AnyStatus? || status == Some(f.value)
  }

  /** An appointment is listed when it passes all three filters (an empty query filters nothing). */
  predicate Passes(l: Listing, c: Criteria, cal: Calendar) {
    (c.searchQuery == "" || MatchesQuery(l, c.searchQuery))
    && PassesDate(cal, c.dateFilter, c.range, l.date)
    && PassesStatus(c.statusFilter, l.status)
  }

  function SearchStage<T(==,!new)>(items: seq<T>, view: T -> Listing, query: string): (r: seq<T>)
    ensures query == "" ==> r == items
    ensures forall x :: x in r <==> x in items && (query == "" || MatchesQuery(view(x), query))
  {
    Lists.FilterMembers(items, (x: T) => MatchesQuery(view(x), query));
    if query == "" then items else Lists.Filter(items, (x: T) => MatchesQuery(view(x), query))
  }

  function DateStage<T(==,!new)>(items: seq<T>, view: T -> Listing, cal: Calendar, f: DateFilter, range: DateRange): (r: seq<T>)
    ensures f.AllDates? ==> r == items
    ensures forall x :: x in r <==> x in items && PassesDate(cal, f, range, view(x).date)
  {
    Lists.FilterMembers(items, (x: T) => PassesDate(cal, f, range, view(x).date));
    if f.AllDates? then items else Lists.Filter(items, (x: T) => PassesDate(cal, f, range, view(x).date))
  }

  function StatusStage<T(==,!new)>(items: seq<T>, view: T -> Listing, f: StatusFilter): (r: seq<T>)
    ensures f.AnyStatus? ==> r == items
    ensures forall x :: x in r <==> x in items && PassesStatus(f, view(x).status)
  {
    Lists.FilterMembers(items, (x: T) => PassesStatus(f, view(x).status));
    if f.AnyStatus? then items else Lists.Filter(items, (x: T) => PassesStatus(f, view(x).status))
  }

  /** A custom range missing either bound keeps every appointment, in order. */
  lemma OpenRangeKeepsAll<T(!new)>(items: seq<T>, view: T -> Listing, cal: Calendar, range: DateRange)
    requires range.start == "" || range.end == ""
    ensures DateStage(items, view, cal, Custom, range) == items
  {
    Lists.FilterAll(items, (x: T) => PassesDate(cal, Custom, range, view(x).date));
  }

  // ---------------------------------------------------------------- sort

  /**
   * The comparator `time(a) - time(b)` read as "may come first"; a `NaN`
   * difference (an invalid date on either side) counts as 0.
   */
  function ByDate<T>(view: T -> Listing, cal: Calendar): (T, T) -> bool {
    (a: T, b: T) =>
      var ta, tb := cal.newDate(view(a).date), cal.newDate(view(b).date);
      ta.None? || tb.None? || ta.value <= tb.value
  }

  /** Appointments whose date is a valid `Date`. */
  function Dated<T>(view: T -> Listing, cal: Calendar): T -> bool {
    (x: T) => cal.newDate(view(x).date).Some?
  }

  lemma ByDatePreorder<T(!new)>(view: T -> Listing, cal: Calendar)
    ensures Sorting.PreorderOn(ByDate(view, cal), Dated(view, cal))
  {
  }

  /** The test of the three filters together, as a predicate on the items. */
  function Kept<T>(view: T -> Listing, c: Criteria, cal: Calendar): T -> bool {
    (x: T) => Passes(view(x), c, cal)
  }

  /**
   * `filteredAppointments`: search, then date, then status, then a stable
   * sort by date.  Every passing appointment is kept as often as it occurs.
   */
  function Filtered<T(==,!new)>(items: seq<T>, view: T -> Listing, c: Criteria, cal: Calendar): (r: seq<T>)
    ensures multiset(r) == multiset(Lists.Filter(items, Kept(view, c, cal)))
    ensures forall x :: x in r <==> x in items && Passes(view(x), c, cal)
  {
    var kept := StatusStage(DateStage(SearchStage(items, view, c.searchQuery), view, cal, c.dateFilter, c.range), view, c.statusFilter);
    var r := Sorting.SortBy(kept, ByDate(view, cal));
    StagesAreFilter(items, view, c, cal);
    assert forall x :: x in r <==> x in multiset(r);
    Lists.FilterMembers(items, Kept(view, c, cal));
    r
  }

  function SearchTest<T>(view: T -> Listing, query: string): T -> bool {
    (x: T) => query == "" || MatchesQuery(view(x), query)
  }

  function DateTest<T>(view: T -> Listing, cal: Calendar, f: DateFilter, range: DateRange): T -> bool {
    (x: T) => PassesDate(cal, f, range, view(x).date)
  }

  function StatusTest<T>(view: T -> Listing, f: StatusFilter): T -> bool {
    (x: T) => PassesStatus(f, view(x).status)
  }

  lemma SearchStageIsFilter<T(!new)>(items: seq<T>, view: T -> Listing, query: string)
    ensures SearchStage(items, view, query) == Lists.Filter(items, SearchTest(view, query))
  {
    if query == "" {
      Lists.FilterAll(items, SearchTest(view, query));
    } else {
      Lists.FilterExtensional(items, (x: T) => MatchesQuery(view(x), query), SearchTest(view, query));
    }
  }

  lemma DateStageIsFilter<T(!new)>(items: seq<T>, view: T -> Listing, cal: Calendar, f: DateFilter, range: DateRange)
    ensures DateStage(items, view, cal, f, range) == Lists.Filter(items, DateTest(view, cal, f, range))
  {
    if f.AllDates? {
      Lists.FilterAll(items, DateTest(view, cal, f, range));
    } else {
      Lists.FilterExtensional(items, (x: T) => PassesDate(cal, f, range, view(x).date), DateTest(view, cal, f, range));
    }
  }

  lemma StatusStageIsFilter<T(!new)>(items: seq<T>, view: T -> Listing, f: StatusFilter)
    ensures StatusStage(items, view, f) == Lists.Filter(items, StatusTest(view, f))
  {
    if f.AnyStatus? {
      Lists.FilterAll(items, StatusTest(view, f));
    } else {
      Lists.FilterExtensional(items, (x: T) => PassesStatus(f, view(x).status), StatusTest(view, f));
    }
  }

  /** The three stages in a row filter the list by the combined test. */
  lemma StagesAreFilter<T(!new)>(items: seq<T>, view: T -> Listing, c: Criteria, cal: Calendar)
    ensures StatusStage(DateStage(SearchStage(items, view, c.searchQuery), view, cal, c.dateFilter, c.range), view, c.statusFilter)
      == Lists.Filter(items, Kept(view, c, cal))
  {
    var st, dt, ss := SearchTest(view, c.searchQuery), DateTest(view, cal, c.dateFilter, c.range), StatusTest(view, c.statusFilter);
    var a := SearchStage(items, view, c.searchQuery);
    var b := DateStage(a, view, cal, c.dateFilter, c.range);
    SearchStageIsFilter(items, view, c.searchQuery);
    DateStageIsFilter(a, view, cal, c.dateFilter, c.range);
    StatusStageIsFilter(b, view, c.statusFilter);
    Lists.FilterFilter(items, st, dt);
    Lists.FilterFilter(items, Lists.Both(st, dt), ss);
    CombinedTest(view, c, cal);
    Lists.FilterExtensional(items, Lists.Both(Lists.Both(st, dt), ss), Kept(view, c, cal));
  }

  lemma CombinedTest<T(!new)>(view: T -> Listing, c: Criteria, cal: Calendar)
    ensures var st, dt, ss := SearchTest(view, c.searchQuery), DateTest(view, cal, c.dateFilter, c.range), StatusTest(view, c.statusFilter);
      forall x :: Lists.Both(Lists.Both(st, dt), ss)(x) == Kept(view, c, cal)(x)
  {
  }

  lemma KeptIsSubmultiset<T(!new)>(items: seq<T>, view: T -> Listing, c: Criteria, cal: Calendar)
    ensures multiset(StatusStage(DateStage(SearchStage(items, view, c.searchQuery), view, cal, c.dateFilter, c.range), view, c.statusFilter)) <= multiset(items)
  {
    var a := SearchStage(items, view, c.searchQuery);
    var b := DateStage(a, view, cal, c.dateFilter, c.range);
    var d := StatusStage(b, view, c.statusFilter);
    assert multiset(a) <= multiset(items);
    assert multiset(b) <= multiset(a);
    assert multiset(d) <= multiset(b);
  }

  /** With every filter off the list is a reordering of all appointments. */
  lemma NoFilterKeepsAll<T(!new)>(items: seq<T>, view: T -> Listing, cal: Calendar, range: DateRange)
    ensures multiset(Filtered(items, view, Criteria("", AllDates, AnyStatus, range), cal)) == multiset(items)
  {
  }

  /** The result is in ascending date order whenever every date parses. */
  lemma FilteredSorted<T(!new)>(items: seq<T>, view: T -> Listing, c: Criteria, cal: Calendar)
    requires forall k :: 0 <= k < |items| ==> cal.newDate(view(items[k]).date).Some?
    ensures Sorting.SortedBy(Filtered(items, view, c, cal), ByDate(view, cal))
  {
    var kept := StatusStage(DateStage(SearchStage(items, view, c.searchQuery), view, cal, c.dateFilter, c.range), view, c.statusFilter);
    KeptIsSubmultiset(items, view, c, cal);
    forall k | 0 <= k < |kept| ensures Dated(view, cal)(kept[k]) {
      assert kept[k] in multiset(kept);
      assert kept[k] in items;
    }
    ByDatePreorder(view, cal);
    Sorting.SortBySorted(kept, ByDate(view, cal), Dated(view, cal));
  }

  /** Later dates first, the order the comment above the page's sort announces; an unparsable date ties with everything. */
  function NewestFirst<T>(view: T -> Listing, cal: Calendar): (T, T) -> bool {
    (a: T, b: T) =>
      var ta, tb := cal.newDate(view(a).date), cal.newDate(view(b).date);
      ta.None? || tb.None? || ta.value >= tb.value
  }

  lemma NewestFirstPreorder<T(!new)>(view: T -> Listing, cal: Calendar)
    ensures Sorting.PreorderOn(NewestFirst(view, cal), Dated(view, cal))
  {
  }

  /** The filtered list with the sort its comment describes: the same appointments, most recent first. */
  function FilteredNewestFirst<T(==,!new)>(items: seq<T>, view: T -> Listing, c: Criteria, cal: Calendar): (r: seq<T>)
    ensures multiset(r) == multiset(Filtered(items, view, c, cal))
    ensures forall x :: x in r <==> x in items && Passes(view(x), c, cal)
  {
    var r := Sorting.SortBy(Lists.Filter(items, Kept(view, c, cal)), NewestFirst(view, cal));
    assert forall x :: x in r <==> x in multiset(r);
    Lists.FilterMembers(items, Kept(view, c, cal));
    r
  }

  lemma FilteredNewestFirstSorted<T(!new)>(items: seq<T>, view: T -> Listing, c: Criteria, cal: Calendar)
    requires forall k :: 0 <= k < |items| ==> cal.newDate(view(items[k]).date).Some?
    ensures Sorting.SortedBy(FilteredNewestFirst(items, view, c, cal), NewestFirst(view, cal))
  {
    var kept := Lists.Filter(items, Kept(view, c, cal));
    forall k | 0 <= k < |kept| ensures Dated(view, cal)(kept[k]) {
      assert kept[k] in multiset(kept);
      assert kept[k] in items;
    }
    NewestFirstPreorder(view, cal);
    Sorting.SortBySorted(kept, NewestFirst(view, cal), Dated(view, cal));
  }

  // ------------------------------------------------------------ grouping

  /** The day key of an appointment whose date formats; "" never occurs as a key when all do. */
  function KeyOf<T>(view: T -> Listing, cal: Calendar): T -> string {
    (x: T) => var k := cal.dayKey(view(x).date); if k.Some? then k.value else ""
  }

  function Always<T>(): T -> bool {
    (x: T) => true
  }

  /** The appointments of `items` on day `k`, in their order. */
  function OnDay<T(==,!new)>(items: seq<T>, view: T -> Listing, cal: Calendar, k: string): seq<T> {
    Lists.Filter(items, Grouping.Under(Always(), KeyOf(view, cal), k))
  }

  /**
   * `appointmentsByDate` over an already filtered list: `None` when the
   * formatting of some date throws, otherwise one group per day in order
   * of first appearance, each holding that day's appointments in list
   * order, so a sorted list gives sorted groups.
   */
  method GroupByDay<T(==,!new)>(items: seq<T>, view: T -> Listing, cal: Calendar) returns (r: Option<Grouping.Groups<string, T>>)
    ensures r.None? <==> exists k :: 0 <= k < |items| && cal.dayKey(view(items[k]).date).None?
    ensures r.Some? ==> DistinctKeys(r.value)
    ensures r.Some? ==> Grouping.Keys(r.value) == Grouping.FirstOccurrences(Grouping.KeptKeys(items, Always(), KeyOf(view, cal)))
    ensures r.Some? ==> forall k :: (Get(r.value, k) ==
      if OnDay(items, view, cal, k) == [] then None else Some(OnDay(items, view, cal, k)))
    ensures r.Some? && Sorting.SortedBy(items, ByDate(view, cal)) ==>
      forall k :: Get(r.value, k).Some? ==> Sorting.SortedBy(Get(r.value, k).value, ByDate(view, cal))
  {
    var i := 0;
    while i < |items|
      invariant 0 <= i <= |items|
      invariant forall j :: 0 <= j < i ==> cal.dayKey(view(items[j]).date).Some?
    {
      if cal.dayKey(view(items[i]).date).None? {
        return None;
      }
      i := i + 1;
    }
    var groups := Grouping.GroupBy(items, Always(), KeyOf(view, cal));
    Grouping.KeysInFirstAppearanceOrder(items, Always(), KeyOf(view, cal));
    if Sorting.SortedBy(items, ByDate(view, cal)) {
      forall k | Get(groups, k).Some? ensures Sorting.SortedBy(Get(groups, k).value, ByDate(view, cal)) {
        Grouping.GroupsKeepOrder(items, Always(), KeyOf(view, cal), k, ByDate(view, cal));
      }
    }
    r := Some(groups);
  }
}
