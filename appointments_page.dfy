/**
 * The appointments page: its own appointment record (a date-time text, a
 * stored status string, a duration in minutes), the patient name and
 * initials it shows, the same filter / sort / day-grouping pipeline as the
 * store (`AppointmentFilters`), the status-update handler, the duration
 * default and the status badge lookup.
 */
module AppointmentsPage {
  import opened Wrappers
  import opened JsText
  import opened OrderedMap
  import opened AppointmentFilters
  import AppointmentTypes
  import Sorting
  import Grouping
  import Lists

  /** The statuses the page offers. */
  datatype PageStatus = Scheduled | Completed | Cancelled | NoShow | InProgress

  function PageStatusValue(s: PageStatus): string {
    match s
    case Scheduled => "scheduled"
    case Completed => "completed"
    case Cancelled => "cancelled"
    case NoShow => "noshow"
    case InProgress => "inprogress"
  }

  /**
   * An appointment as the page reads it.  `patientName`, `expandedName` and
   * `plainName` are `patient.name`, `expand.patient.name` and `patientName`
   * (`None` where the property is missing); `duration` is `None` for a
   * missing or `NaN` value; a missing type or note is "".
   */
  datatype PageAppointment = PageAppointment(
    id: string, dateTime: string, kind: string, status: string, duration: Option<int>, notes: string,
    patientName: Option<string>, expandedName: Option<string>, plainName: Option<string>)

  /** A JavaScript string property that is present and non-empty. */
  predicate Truthy(o: Option<string>) {
    o.Some? && o.value != ""
  }

  const UnknownPatient := "Unknown Patient"

  /** `getPatientName`: the first non-empty of the three names, else "Unknown Patient". */
  function PatientName(a: PageAppointment): (r: string)
    ensures Truthy(a.patientName) ==> r == a.patientName.value
    ensures !Truthy(a.patientName) && Truthy(a.expandedName) ==> r == a.expandedName.value
    ensures !Truthy(a.patientName) && !Truthy(a.expandedName) && Truthy(a.plainName) ==> r == a.plainName.value
    ensures !Truthy(a.patientName) && !Truthy(a.expandedName) && !Truthy(a.plainName) ==> r == UnknownPatient
  {
    if Truthy(a.patientName) then a.patientName.value
    else if Truthy(a.expandedName) then a.expandedName.value
    else if Truthy(a.plainName) then a.plainName.value
    else UnknownPatient
  }

  /** The name shown is never empty. */
  lemma PatientNameNonEmpty(a: PageAppointment)
    ensures PatientName(a) != ""
  {
  }

  // ------------------------------------------------------------- initials

  /**
   * `parts.map(part => part[0]).join('')`: the first character of every
   * part; an empty part gives `undefined`, which `join` writes as "".
   */
  function Heads(parts: seq<string>): (r: string)
    ensures |r| <= |parts|
    ensures (forall k :: 0 <= k < |parts| ==> parts[k] != "") ==>
      |r| == |parts| && forall k :: 0 <= k < |parts| ==> r[k] == parts[k][0]
  {
    if parts == [] then ""
    else (if parts[0] == "" then "" else [parts[0][0]]) + Heads(parts[1..])
  }

  /** Empty parts contribute nothing: heads of a list are the heads of its non-empty parts. */
  lemma HeadsSkipEmpty(a: seq<string>, b: seq<string>)
    ensures Heads(a + [""] + b) == Heads(a + b)
  {
    if a == [] {
      assert a + [""] + b == [""] + b;
      assert ([""] + b)[1..] == b;
      assert a + b == b;
    } else {
      assert (a + [""] + b)[1..] == a[1..] + [""] + b;
      assert (a + b)[1..] == a[1..] + b;
      HeadsSkipEmpty(a[1..], b);
    }
  }

  /** `getPatientInitials`: the upper-cased heads of the space-separated parts, cut to two characters. */
  function Initials(name: string): (r: string)
    ensures |r| <= 2
    ensures var h := Heads(Split(name, ' '));
      |r| == (if |h| < 2 then |h| else 2) && forall k :: 0 <= k < |r| ==> r[k] == JsText.UpperChar(h[k])
  {
    var up := ToUpper(Heads(Split(name, ' ')));
    if |up| <= 2 then up else up[..2]
  }

  /**
   * For a name made of non-empty words separated by single spaces, the
   * initials are the upper-cased first letters of the first two words.
   */
  lemma InitialsOfWords(words: seq<string>)
    requires words != []
    requires forall k :: 0 <= k < |words| ==> words[k] != "" && ' ' !in words[k]
    ensures var r := Initials(Join(words, " "));
      |r| == (if |words| < 2 then 1 else 2)
      && r[0] == UpperChar(words[0][0])
      && (|words| >= 2 ==> r[1] == UpperChar(words[1][0]))
  {
    SplitJoin(words, ' ');
  }

  // -------------------------------------------------------------- filters

  /** How the filters see a page appointment. */
  function View(a: PageAppointment): Listing {
    Listing(PatientName(a), a.kind, a.notes, a.dateTime, Some(a.status))
  }

  datatype StatusChoice = AllStatusChoice | ChooseStatus(status: PageStatus)

  function StatusFilterOf(c: StatusChoice): StatusFilter {
    if c.AllStatusChoice? then AnyStatus else OnlyStatus(PageStatusValue(c.status))
  }

  /** `filteredAppointments` over the loaded items (none until the query has data). */
  function FilteredAppointments(items: seq<PageAppointment>, c: Criteria, cal: Calendar): (r: seq<PageAppointment>)
    ensures multiset(r) == multiset(Lists.Filter(items, Kept(View, c, cal)))
    ensures forall a :: a in r <==> a in items && Passes(View(a), c, cal)
  {
    Filtered(items, View, c, cal)
  }

  /**
   * The list is in ascending date-time order (the earliest first) whenever
   * every date-time parses, although the comment above the sort says most
   * recent first.
   */
  lemma FilteredAscending(items: seq<PageAppointment>, c: Criteria, cal: Calendar, i: int, j: int)
    requires forall k :: 0 <= k < |items| ==> cal.newDate(items[k].dateTime).Some?
    requires 0 <= i < j < |FilteredAppointments(items, c, cal)|
    ensures var r := FilteredAppointments(items, c, cal);
      cal.newDate(r[i].dateTime).Some? && cal.newDate(r[j].dateTime).Some?
      && cal.newDate(r[i].dateTime).value <= cal.newDate(r[j].dateTime).value
  {
    FilteredSorted(items, View, c, cal);
    AscendingWithin(FilteredAppointments(items, c, cal), items, cal, i, j);
  }

  /** A date-sorted list drawn from appointments whose date-times all parse ascends. */
  lemma AscendingWithin(r: seq<PageAppointment>, items: seq<PageAppointment>, cal: Calendar, i: int, j: int)
    requires Sorting.SortedBy(r, ByDate(View, cal))
    requires forall x :: x in r ==> x in items
    requires forall k :: 0 <= k < |items| ==> cal.newDate(items[k].dateTime).Some?
    requires 0 <= i < j < |r|
    ensures cal.newDate(r[i].dateTime).Some? && cal.newDate(r[j].dateTime).Some?
      && cal.newDate(r[i].dateTime).value <= cal.newDate(r[j].dateTime).value
  {
    assert ByDate(View, cal)(r[i], r[j]);
    assert r[i] in r && r[j] in r;
    DatedMember(items, cal, r[i]);
    DatedMember(items, cal, r[j]);
    assert View(r[i]).date == r[i].dateTime && View(r[j]).date == r[j].dateTime;
  }

  /** Every member of a list whose date-times all parse has a date-time that parses. */
  lemma DatedMember(items: seq<PageAppointment>, cal: Calendar, x: PageAppointment)
    requires forall k :: 0 <= k < |items| ==> cal.newDate(items[k].dateTime).Some?
    requires x in items
    ensures cal.newDate(x.dateTime).Some?
  {
  }

  /** With the sort its comment describes, the list runs from the latest date-time to the earliest. */
  lemma FilteredDescending(items: seq<PageAppointment>, c: Criteria, cal: Calendar, i: int, j: int)
    requires forall k :: 0 <= k < |items| ==> cal.newDate(items[k].dateTime).Some?
    requires 0 <= i < j < |FilteredNewestFirst(items, View, c, cal)|
    ensures var r := FilteredNewestFirst(items, View, c, cal);
      cal.newDate(r[i].dateTime).Some? && cal.newDate(r[j].dateTime).Some?
      && cal.newDate(r[i].dateTime).value >= cal.newDate(r[j].dateTime).value
  {
    FilteredNewestFirstSorted(items, View, c, cal);
    DescendingWithin(FilteredNewestFirst(items, View, c, cal), items, cal, i, j);
  }

  /** A list sorted newest first, drawn from appointments whose date-times all parse, descends. */
  lemma DescendingWithin(r: seq<PageAppointment>, items: seq<PageAppointment>, cal: Calendar, i: int, j: int)
    requires Sorting.SortedBy(r, NewestFirst(View, cal))
    requires forall x :: x in r ==> x in items
    requires forall k :: 0 <= k < |items| ==> cal.newDate(items[k].dateTime).Some?
    requires 0 <= i < j < |r|
    ensures cal.newDate(r[i].dateTime).Some? && cal.newDate(r[j].dateTime).Some?
      && cal.newDate(r[i].dateTime).value >= cal.newDate(r[j].dateTime).value
  {
    assert NewestFirst(View, cal)(r[i], r[j]);
    assert r[i] in r && r[j] in r;
    DatedMember(items, cal, r[i]);
    DatedMember(items, cal, r[j]);
    assert View(r[i]).date == r[i].dateTime && View(r[j]).date == r[j].dateTime;
  }

  /** `appointmentsByDate`: the filtered list grouped by day, each group kept in date order. */
  method AppointmentsByDate(items: seq<PageAppointment>, c: Criteria, cal: Calendar)
    returns (r: Option<Grouping.Groups<string, PageAppointment>>)
    ensures var f := FilteredAppointments(items, c, cal);
      r.None? <==> exists k :: 0 <= k < |f| && cal.dayKey(f[k].dateTime).None?
    ensures r.Some? ==> DistinctKeys(r.value)
    ensures r.Some? ==> Grouping.Keys(r.value) == Grouping.FirstOccurrences(Grouping.KeptKeys(FilteredAppointments(items, c, cal), Always(), KeyOf(View, cal)))
    ensures r.Some? ==> forall k :: (Get(r.value, k) ==
      var day := OnDay(FilteredAppointments(items, c, cal), View, cal, k); if day == [] then None else Some(day))
    ensures r.Some? && (forall k :: 0 <= k < |items| ==> cal.newDate(items[k].dateTime).Some?) ==>
      forall k :: Get(r.value, k).Some? ==> Sorting.SortedBy(Get(r.value, k).value, ByDate(View, cal))
  {
    var f := FilteredAppointments(items, c, cal);
    r := GroupByDay(f, View, cal);
    DayKeysOfView(f, cal);
    if r.Some? && forall k :: 0 <= k < |items| ==> cal.newDate(items[k].dateTime).Some? {
      FilteredSorted(items, View, c, cal);
    }
  }

  /** The day keys the grouping sees through `View` are those of the appointments' date-times. */
  lemma DayKeysOfView(f: seq<PageAppointment>, cal: Calendar)
    ensures (exists k :: 0 <= k < |f| && cal.dayKey(View(f[k]).date).None?)
      <==> (exists k :: 0 <= k < |f| && cal.dayKey(f[k].dateTime).None?)
  {
    if exists k :: 0 <= k < |f| && cal.dayKey(f[k].dateTime).None? {
      var k :| 0 <= k < |f| && cal.dayKey(f[k].dateTime).None?;
      assert cal.dayKey(View(f[k]).date).None?;
    }
  }

  // ------------------------------------------------------------- handlers

  datatype StatusMutation = StatusMutation(id: string, status: PageStatus)

  /** `handleStatusUpdate`: the mutation it issues, never one for 'all'. */
  function HandleStatusUpdate(id: string, choice: StatusChoice): (r: Option<StatusMutation>)
    ensures r.None? <==> choice.AllStatusChoice?
    ensures r.Some? ==> r.value.id == id && r.value.status == choice.status
  {
    if choice.AllStatusChoice? then None else Some(StatusMutation(id, choice.status))
  }

  /** `duration || 30`: a missing, `NaN` or zero duration reads as 30 minutes. */
  function DisplayDuration(d: Option<int>): (r: int)
    ensures d.None? || d.value == 0 ==> r == 30
    ensures d.Some? && d.value != 0 ==> r == d.value
  {
    if d.None? || d.value == 0 then 30 else d.value
  }

  /** The end time `formatEndTime` computes, in milliseconds, from a start and the displayed duration. */
  function EndTimeMs(startMs: int, d: Option<int>): (r: int)
    ensures r - startMs == DisplayDuration(d) * 60000
    ensures d.None? ==> r == startMs + 30 * 60000
  {
    startMs + DisplayDuration(d) * 60000
  }

  /** `appointment.type || 'General'`. */
  function TypeLabel(kind: string): (r: string)
    ensures kind != "" ==> r == kind
    ensures kind == "" ==> r == "General"
  {
    if kind == "" then "General" else kind
  }

  /** The hue of `STATUS_COLORS[status]`, `None` for a status without an entry. */
  function PageStatusHue(status: string): (h: Option<AppointmentTypes.Hue>)
    ensures h.Some? <==> exists s: PageStatus :: PageStatusValue(s) == status
  {
    if status == "scheduled" then assert PageStatusValue(Scheduled) == status; Some(AppointmentTypes.Blue)
    else if status == "completed" then assert PageStatusValue(Completed) == status; Some(AppointmentTypes.Green)
    else if status == "cancelled" then assert PageStatusValue(Cancelled) == status; Some(AppointmentTypes.Red)
    else if status == "noshow" then assert PageStatusValue(NoShow) == status; Some(AppointmentTypes.Yellow)
    else if status == "inprogress" then assert PageStatusValue(InProgress) == status; Some(AppointmentTypes.Purple)
    else
      assert forall s: PageStatus :: PageStatusValue(s) != status;
      None
  }

  /**
   * The badge shown for a status string: the entry's colours, or the
   * fallbacks (gray 100, gray 800, and a gray 300 dot) for a string without
   * an entry, such as the stored statuses 'pending' or 'no_show'.
   */
  function StatusBadge(status: string): (b: AppointmentTypes.Badge)
    ensures PageStatusHue(status).Some? ==> b == AppointmentTypes.Palette(PageStatusHue(status).value)
    ensures PageStatusHue(status).None? ==> b == AppointmentTypes.Badge("bg-gray-100", "text-gray-800", "bg-gray-300")
  {
    var h := PageStatusHue(status);
    if h.Some? then AppointmentTypes.Palette(h.value) else AppointmentTypes.Badge("bg-gray-100", "text-gray-800", "bg-gray-300")
  }

  /** Every status the page offers has its own entry; the stored 'pending' does not. */
  lemma PageStatusesHaveBadges(s: PageStatus)
    ensures PageStatusHue(PageStatusValue(s)).Some?
    ensures PageStatusHue(AppointmentTypes.StatusValue(AppointmentTypes.Pending)).None?
  {
  }

  /** The details modal's signals. */
  class PageUi {
    var selected: Option<PageAppointment>
    var showDetailsModal: bool

    constructor()
      ensures selected.None? && !showDetailsModal
    {
      selected := None;
      showDetailsModal := false;
    }

    /** `handleViewDetails`: select the appointment and open the modal. */
    method HandleViewDetails(a: PageAppointment)
      modifies this
      ensures selected == Some(a) && showDetailsModal
    {
      selected := Some(a);
      showDetailsModal := true;
    }

    /** A successful status mutation closes the modal and keeps the selection. */
    method OnStatusUpdated()
      modifies this
      ensures !showDetailsModal && selected == old(selected)
    {
      showDetailsModal := false;
    }
  }
}
