/**
 * The appointments store: one global state record, the actions that
 * update it through `setState`, and the selectors derived from it
 * (`filteredAppointments`, `appointmentsByDate`, `getAppointmentsForDay`).
 */
module AppointmentStore {
  import opened Wrappers
  import opened OrderedMap
  import opened AppointmentTypes
  import opened AppointmentFilters
  import Lists
  import Sorting
  import Grouping

  /** The expanded patient of an appointment. */
  datatype PatientRef = PatientRef(firstName: string, lastName: string)

  /** An appointment record; a missing type or note is "". */
  datatype Appointment = Appointment(
    id: string, date: string, status: Option<AppointmentStatus>, kind: string, notes: string,
    patient: Option<PatientRef>)

  const LoadingName := "Loading Patient..."

  /** `getPatientName`: "first last" of the expanded patient, or a placeholder until it is loaded. */
  function PatientName(a: Appointment): (r: string)
    ensures a.patient.Some? ==> r == a.patient.value.firstName + " " + a.patient.value.lastName
    ensures a.patient.None? ==> r == LoadingName
  {
    if a.patient.Some? then a.patient.value.firstName + " " + a.patient.value.lastName else LoadingName
  }

  /** How the filters see a store appointment: its status as the stored string. */
  function View(a: Appointment): Listing {
    Listing(PatientName(a), a.kind, a.notes, a.date,
      if a.status.Some? then Some(StatusValue(a.status.value)) else None)
  }

  datatype ViewMode = ListView | CalendarView | AgendaView

  datatype StoreState = StoreState(
    searchQuery: string, dateFilter: DateFilter, statusFilter: StatusFilter, customDateRange: DateRange,
    viewMode: ViewMode, selectedAppointment: Option<Appointment>, showDetailsModal: bool,
    appointments: seq<Appointment>, isLoading: bool, isError: bool, error: Option<string>)

  const InitialState := StoreState("", AllDates, AnyStatus, EmptyRange, ListView, None, false, [], true, false, None)

  function CriteriaOf(s: StoreState): Criteria {
    Criteria(s.searchQuery, s.dateFilter, s.statusFilter, s.customDateRange)
  }

  // ------------------------------------------------------------- actions

  /** `resetFilters`: the four filter fields back to their initial values; view, selection and data untouched. */
  function ResetFilters(s: StoreState): (r: StoreState)
    ensures r.searchQuery == "" && r.dateFilter == AllDates && r.statusFilter == AnyStatus && r.customDateRange == EmptyRange
    ensures CriteriaOf(r) == CriteriaOf(InitialState)
    ensures r.viewMode == s.viewMode && r.selectedAppointment == s.selectedAppointment
    ensures r.showDetailsModal == s.showDetailsModal && r.appointments == s.appointments
    ensures r.isLoading == s.isLoading && r.isError == s.isError && r.error == s.error
  {
    s.(searchQuery := "", dateFilter := AllDates, statusFilter := AnyStatus, customDateRange := EmptyRange)
  }

  /** `selectAppointment`: the appointment becomes the selection and the details modal opens. */
  function SelectAppointment(s: StoreState, a: Appointment): (r: StoreState)
    ensures r.selectedAppointment == Some(a) && r.showDetailsModal
    ensures r == s.(selectedAppointment := Some(a), showDetailsModal := true)
  {
    s.(selectedAppointment := Some(a), showDetailsModal := true)
  }

  /** `closeModal`: only hides the modal; the selection stays. */
  function CloseModal(s: StoreState): (r: StoreState)
    ensures !r.showDetailsModal && r.selectedAppointment == s.selectedAppointment
    ensures r == s.(showDetailsModal := false)
  {
    s.(showDetailsModal := false)
  }

  /** `setError`: the flag says whether an error is present. */
  function SetError(s: StoreState, e: Option<string>): (r: StoreState)
    ensures r.isError <==> e.Some?
    ensures r.error == e && r == s.(isError := e.Some?, error := e)
  {
    s.(isError := e.Some?, error := e)
  }

  /** The list with every appointment carrying `id` given `status`; everything else as it was. */
  function UpdateStatus(apts: seq<Appointment>, id: string, status: AppointmentStatus): (r: seq<Appointment>)
    ensures |r| == |apts|
    ensures forall i :: 0 <= i < |apts| ==>
      r[i] == (if apts[i].id == id then apts[i].(status := Some(status)) else apts[i])
  {
    seq(|apts|, i requires 0 <= i < |apts| => if apts[i].id == id then apts[i].(status := Some(status)) else apts[i])
  }

  /** Updating to the same status twice is updating once. */
  lemma UpdateStatusIdempotent(apts: seq<Appointment>, id: string, status: AppointmentStatus)
    ensures UpdateStatus(UpdateStatus(apts, id, status), id, status) == UpdateStatus(apts, id, status)
  {
  }

  /** An id that is not in the list changes nothing. */
  lemma UpdateStatusAbsent(apts: seq<Appointment>, id: string, status: AppointmentStatus)
    requires forall i :: 0 <= i < |apts| ==> apts[i].id != id
    ensures UpdateStatus(apts, id, status) == apts
  {
  }

  /** The ids, and so the order of appointments, are kept; the matching ones then have the new status. */
  lemma UpdateStatusKeepsIds(apts: seq<Appointment>, id: string, status: AppointmentStatus)
    ensures forall i :: 0 <= i < |apts| ==> UpdateStatus(apts, id, status)[i].id == apts[i].id
    ensures forall i :: 0 <= i < |apts| && apts[i].id == id ==> UpdateStatus(apts, id, status)[i].status == Some(status)
  {
  }

  /** The store's state and its actions. */
  class AppointmentsStore {
    var state: StoreState

    constructor()
      ensures state == InitialState
    {
      state := InitialState;
    }

    method SetSearchQuery(query: string)
      modifies this
      ensures state == old(state).(searchQuery := query)
    {
      state := state.(searchQuery := query);
    }

    method SetDateFilter(f: DateFilter)
      modifies this
      ensures state == old(state).(dateFilter := f)
    {
      state := state.(dateFilter := f);
    }

    method SetStatusFilter(f: StatusFilter)
      modifies this
      ensures state == old(state).(statusFilter := f)
    {
      state := state.(statusFilter := f);
    }

    method SetCustomDateRange(range: DateRange)
      modifies this
      ensures state == old(state).(customDateRange := range)
    {
      state := state.(customDateRange := range);
    }

    method SetViewMode(mode: ViewMode)
      modifies this
      ensures state == old(state).(viewMode := mode)
    {
      state := state.(viewMode := mode);
    }

    method SetShowDetailsModal(show: bool)
      modifies this
      ensures state == old(state).(showDetailsModal := show)
    {
      state := state.(showDetailsModal := show);
    }

    method SetAppointments(apts: seq<Appointment>)
      modifies this
      ensures state == old(state).(appointments := apts)
    {
      state := state.(appointments := apts);
    }

    method SetLoading(loading: bool)
      modifies this
      ensures state == old(state).(isLoading := loading)
    {
      state := state.(isLoading := loading);
    }

    method SetErrorAction(e: Option<string>)
      modifies this
      ensures state == SetError(old(state), e)
    {
      state := state.(isError := e.Some?, error := e);
    }

    method SelectAppointmentAction(a: Appointment)
      modifies this
      ensures state == SelectAppointment(old(state), a)
    {
      state := state.(selectedAppointment := Some(a), showDetailsModal := true);
    }

    method CloseModalAction()
      modifies this
      ensures state == CloseModal(old(state))
    {
      state := state.(showDetailsModal := false);
    }

    method ResetFiltersAction()
      modifies this
      ensures state == ResetFilters(old(state))
    {
      state := state.(searchQuery := "", dateFilter := AllDates, statusFilter := AnyStatus, customDateRange := EmptyRange);
    }

    method UpdateAppointmentStatus(id: string, status: AppointmentStatus)
      modifies this
      ensures state == old(state).(appointments := UpdateStatus(old(state).appointments, id, status))
    {
      var apts := state.appointments;
      var updated: seq<Appointment> := [];
      for i := 0 to |apts|
        invariant updated == UpdateStatus(apts[..i], id, status)
      {
        updated := updated + [if apts[i].id == id then apts[i].(status := Some(status)) else apts[i]];
      }
      assert apts[..|apts|] == apts;
      state := state.(appointments := updated);
    }
  }

  // ----------------------------------------------------------- selectors

  /** `filteredAppointments`: nothing for an empty store, otherwise the shared pipeline. */
  function FilteredAppointments(s: StoreState, cal: Calendar): (r: seq<Appointment>)
    ensures s.appointments == [] ==> r == []
    ensures multiset(r) == multiset(Lists.Filter(s.appointments, Kept(View, CriteriaOf(s), cal)))
    ensures forall a :: a in r <==> a in s.appointments && Passes(View(a), CriteriaOf(s), cal)
  {
    if |s.appointments| == 0 then [] else Filtered(s.appointments, View, CriteriaOf(s), cal)
  }

  /** After `resetFilters` every appointment is listed again, each as often as it is stored. */
  lemma ResetListsAll(s: StoreState, cal: Calendar)
    ensures multiset(FilteredAppointments(ResetFilters(s), cal)) == multiset(s.appointments)
  {
    if s.appointments != [] {
      NoFilterKeepsAll(s.appointments, View, cal, EmptyRange);
    }
  }

  /** A status filter keeps exactly the appointments with that status. */
  lemma StatusFilterExact(s: StoreState, cal: Calendar, status: AppointmentStatus, a: Appointment)
    requires s.statusFilter == OnlyStatus(StatusValue(status))
    requires a in FilteredAppointments(s, cal)
    ensures a.status == Some(status)
  {
    StatusValueRoundTrip(status);
    StatusValueRoundTrip(a.status.value);
  }

  /** The list is in ascending date order whenever every stored date parses. */
  lemma FilteredAppointmentsSorted(s: StoreState, cal: Calendar)
    requires forall k :: 0 <= k < |s.appointments| ==> cal.newDate(s.appointments[k].date).Some?
    ensures Sorting.SortedBy(FilteredAppointments(s, cal), ByDate(View, cal))
  {
    if s.appointments != [] {
      FilteredSorted(s.appointments, View, CriteriaOf(s), cal);
    }
  }

  /** `appointmentsByDate`: the filtered list grouped by day; `None` when formatting a date throws. */
  method AppointmentsByDate(s: StoreState, cal: Calendar) returns (r: Option<Grouping.Groups<string, Appointment>>)
    ensures var f := FilteredAppointments(s, cal);
      r.None? <==> exists k :: 0 <= k < |f| && cal.dayKey(f[k].date).None?
    ensures r.Some? ==> DistinctKeys(r.value)
    ensures r.Some? ==> Grouping.Keys(r.value) == Grouping.FirstOccurrences(Grouping.KeptKeys(FilteredAppointments(s, cal), Always(), KeyOf(View, cal)))
    ensures r.Some? ==> forall k :: (Get(r.value, k) ==
      var day := OnDay(FilteredAppointments(s, cal), View, cal, k); if day == [] then None else Some(day))
    ensures r.Some? && (forall k :: 0 <= k < |s.appointments| ==> cal.newDate(s.appointments[k].date).Some?) ==>
      forall k :: Get(r.value, k).Some? ==> Sorting.SortedBy(Get(r.value, k).value, ByDate(View, cal))
  {
    var f := FilteredAppointments(s, cal);
    r := GroupByDay(f, View, cal);
    DayKeysOfView(f, cal);
    if r.Some? && forall k :: 0 <= k < |s.appointments| ==> cal.newDate(s.appointments[k].date).Some? {
      FilteredAppointmentsSorted(s, cal);
    }
  }

  /** The day keys the grouping sees through `View` are those of the stored dates. */
  lemma DayKeysOfView(f: seq<Appointment>, cal: Calendar)
    ensures (exists k :: 0 <= k < |f| && cal.dayKey(View(f[k]).date).None?)
      <==> (exists k :: 0 <= k < |f| && cal.dayKey(f[k].date).None?)
  {
    if exists k :: 0 <= k < |f| && cal.dayKey(f[k].date).None? {
      var k :| 0 <= k < |f| && cal.dayKey(f[k].date).None?;
      assert cal.dayKey(View(f[k]).date).None?;
    }
  }

  /** `getAppointmentsForDay`: the stored appointments whose day is `day`; a date that fails to format is skipped. */
  function AppointmentsForDay(s: StoreState, cal: Calendar, day: string): (r: seq<Appointment>)
    ensures forall a :: a in r <==> a in s.appointments && cal.dayKey(a.date) == Some(day)
  {
    Lists.FilterMembers(s.appointments, (a: Appointment) => cal.dayKey(a.date) == Some(day));
    if |s.appointments| == 0 then [] else Lists.Filter(s.appointments, (a: Appointment) => cal.dayKey(a.date) == Some(day))
  }
}
