/**
 * The new-appointment form (`AppointmentForm`): its form record and
 * validation message, the field handlers, the submit handler's checks and
 * the payload it hands to the mutation, and the option lists of its three
 * selects.  `new Date(text)` followed by `toISOString()` is the `toIso`
 * oracle, `None` where the date is invalid or `toISOString` throws.
 */
module AppointmentForm {
  import opened Wrappers
  import opened JsText
  import opened AppointmentTypes
  import opened SearchableSelect

  /** The form's state; `status` and `kind` hold the selected enum values as text. */
  datatype FormData = FormData(
    date: string, time: string, status: string, reasonForVisit: string, notes: string,
    duration: string, kind: string, dentistId: string, patientId: string)

  /** `initialFormState`: everything empty except the pending status, a 30-minute duration and the patient. */
  function InitialForm(patientId: string): (f: FormData)
    ensures f.date == "" && f.time == "" && f.reasonForVisit == "" && f.notes == "" && f.kind == "" && f.dentistId == ""
    ensures ParseStatus(f.status) == Some(Pending) && f.duration == "30" && f.patientId == patientId
  {
    StatusValueRoundTrip(Pending);
    FormData("", "", StatusValue(Pending), "", "", "30", "", "", patientId)
  }

  // ------------------------------------------------------------- fields

  /** The inputs `handleChange` serves, by their `name` attribute. */
  datatype TextField = DateField | TimeField | DurationField | ReasonField | NotesField

  function FieldValue(f: FormData, field: TextField): string {
    match field
    case DateField => f.date
    case TimeField => f.time
    case DurationField => f.duration
    case ReasonField => f.reasonForVisit
    case NotesField => f.notes
  }

  /** `{ ...prev, [name]: value }`: the named field takes the value, every other field is kept. */
  function SetText(f: FormData, field: TextField, value: string): (r: FormData)
    ensures FieldValue(r, field) == value
    ensures forall g :: g != field ==> FieldValue(r, g) == FieldValue(f, g)
    ensures r.status == f.status && r.kind == f.kind && r.dentistId == f.dentistId && r.patientId == f.patientId
  {
    match field
    case DateField => f.(date := value)
    case TimeField => f.(time := value)
    case DurationField => f.(duration := value)
    case ReasonField => f.(reasonForVisit := value)
    case NotesField => f.(notes := value)
  }

  /** The last write to a field wins. */
  lemma SetTextTwice(f: FormData, field: TextField, a: string, b: string)
    ensures SetText(SetText(f, field, a), field, b) == SetText(f, field, b)
  {
  }

  // ------------------------------------------------------------- submit

  const RequiredMessage := "Please fill in all required fields (Dentist, Type, Date, Time, Reason)."
  const InvalidMessage := "Invalid date or time provided. Please check the values."

  /** One of the six required fields is empty. */
  predicate MissingRequired(f: FormData) {
    f.date == "" || f.time == "" || f.dentistId == "" || f.kind == "" || f.reasonForVisit == "" || f.status == ""
  }

  /** `/^\d{4}-\d{2}-\d{2}$/`. */
  predicate DateShaped(s: string) {
    |s| == 10 && s[4] == '-' && s[7] == '-' && forall k :: 0 <= k < 10 && k != 4 && k != 7 ==> IsDigit(s[k])
  }

  /** `/^\d{2}:\d{2}$/`. */
  predicate TimeShaped(s: string) {
    |s| == 5 && s[2] == ':' && IsDigit(s[0]) && IsDigit(s[1]) && IsDigit(s[3]) && IsDigit(s[4])
  }

  /** The text handed to `new Date`. */
  function LocalDateTime(f: FormData): string {
    f.date + "T" + f.time + ":00"
  }

  /** `ApiAppointmentData`. */
  datatype Payload = Payload(
    status: string, reasonForVisit: string, notes: string, duration: string, kind: string,
    date: string, patient: string, dentist: string)

  datatype Submission = Rejected(message: string) | Submitted(payload: Payload)

  /**
   * `handleSubmit`'s decision: the required-fields message when one is
   * empty, the invalid-date message when the date or time is not shaped
   * right or does not make a valid date, otherwise the payload.
   */
  function Submit(f: FormData, toIso: string -> Option<string>): (r: Submission)
    ensures r == Rejected(RequiredMessage) <==> MissingRequired(f)
    ensures r == Rejected(InvalidMessage) <==>
      !MissingRequired(f) && (!DateShaped(f.date) || !TimeShaped(f.time) || toIso(LocalDateTime(f)).None?)
    ensures r.Rejected? ==> r.message in {RequiredMessage, InvalidMessage}
    ensures r.Submitted? ==> (
      DateShaped(f.date) && TimeShaped(f.time) && Some(r.payload.date) == toIso(LocalDateTime(f))
      && r.payload.patient == f.patientId && r.payload.dentist == f.dentistId
      && r.payload.status == f.status && r.payload.reasonForVisit == f.reasonForVisit
      && r.payload.notes == f.notes && r.payload.duration == f.duration && r.payload.kind == f.kind)
  {
    if MissingRequired(f) then Rejected(RequiredMessage)
    else if !DateShaped(f.date) || !TimeShaped(f.time) then Rejected(InvalidMessage)
    else
      var iso := toIso(LocalDateTime(f));
      if iso.None? then Rejected(InvalidMessage)
      else Submitted(Payload(f.status, f.reasonForVisit, f.notes, f.duration, f.kind, iso.value, f.patientId, f.dentistId))
  }

  /** The untouched form is never submitted: its date is empty. */
  lemma InitialFormRejected(patientId: string, toIso: string -> Option<string>)
    ensures Submit(InitialForm(patientId), toIso) == Rejected(RequiredMessage)
  {
  }

  /** Editing a field that is not required cannot turn a rejection for missing fields into a submission. */
  lemma NotesDoNotSatisfyRequired(f: FormData, notes: string, toIso: string -> Option<string>)
    requires Submit(f, toIso) == Rejected(RequiredMessage)
    ensures Submit(SetText(f, NotesField, notes), toIso) == Rejected(RequiredMessage)
    ensures Submit(SetText(f, DurationField, notes), toIso) == Rejected(RequiredMessage)
  {
    assert FieldValue(SetText(f, NotesField, notes), DateField) == f.date;
    assert FieldValue(SetText(f, NotesField, notes), TimeField) == f.time;
    assert FieldValue(SetText(f, NotesField, notes), ReasonField) == f.reasonForVisit;
    assert FieldValue(SetText(f, DurationField, notes), DateField) == f.date;
    assert FieldValue(SetText(f, DurationField, notes), TimeField) == f.time;
    assert FieldValue(SetText(f, DurationField, notes), ReasonField) == f.reasonForVisit;
  }

  // ------------------------------------------------------------ options

  /** `Object.entries(AppointmentStatus)`: the member name as label, the value as value, in declaration order. */
  function StatusOptions(): (r: seq<SelectOption>)
    ensures |r| == |AllStatuses|
  {
    seq(|AllStatuses|, i requires 0 <= i < |AllStatuses| => SelectOption(StatusValue(AllStatuses[i]), StatusKey(AllStatuses[i])))
  }

  /** Every status is offered, and every offered value is a status whose member name is the label. */
  lemma StatusOptionsExact(s: AppointmentStatus)
    ensures exists i :: 0 <= i < |StatusOptions()| && StatusOptions()[i] == SelectOption(StatusValue(s), StatusKey(s))
    ensures forall i :: 0 <= i < |StatusOptions()| ==>
      ParseStatus(StatusOptions()[i].value).Some? && StatusKey(ParseStatus(StatusOptions()[i].value).value) == StatusOptions()[i].labelText
  {
    AllStatusesComplete(s);
    var i :| 0 <= i < |AllStatuses| && AllStatuses[i] == s;
    assert StatusOptions()[i] == SelectOption(StatusValue(s), StatusKey(s));
    forall i | 0 <= i < |StatusOptions()|
      ensures ParseStatus(StatusOptions()[i].value) == Some(AllStatuses[i])
    {
      StatusValueRoundTrip(AllStatuses[i]);
    }
  }

  /** `Object.values(AppointmentType)`: each value as both value and label. */
  function TypeOptions(): (r: seq<SelectOption>)
    ensures |r| == |AllTypes|
    ensures forall i :: 0 <= i < |r| ==> r[i].value == r[i].labelText
  {
    seq(|AllTypes|, i requires 0 <= i < |AllTypes| => SelectOption(TypeValue(AllTypes[i]), TypeValue(AllTypes[i])))
  }

  /** Every type is offered once, and every offered value is a type's value. */
  lemma TypeOptionsExact(t: AppointmentType)
    ensures exists i :: 0 <= i < |TypeOptions()| && TypeOptions()[i].value == TypeValue(t)
    ensures forall i :: 0 <= i < |TypeOptions()| ==> ParseType(TypeOptions()[i].value) == Some(AllTypes[i])
  {
    AllTypesComplete(t);
    var i :| 0 <= i < |AllTypes| && AllTypes[i] == t;
    assert TypeOptions()[i].value == TypeValue(t);
    forall i | 0 <= i < |TypeOptions()|
      ensures ParseType(TypeOptions()[i].value) == Some(AllTypes[i])
    {
      TypeValueRoundTrip(AllTypes[i]);
    }
  }

  datatype Dentist = Dentist(id: string, name: string)

  /** The dentists as options: the id as value, the name as label, in the order given. */
  function DentistOptions(dentists: seq<Dentist>): (r: seq<SelectOption>)
    ensures |r| == |dentists|
    ensures forall i :: 0 <= i < |r| ==> r[i].value == dentists[i].id && r[i].labelText == dentists[i].name
  {
    seq(|dentists|, i requires 0 <= i < |dentists| => SelectOption(dentists[i].id, dentists[i].name))
  }

  // ----------------------------------------------------------- the form

  /** The form component's signals; `patientId` is the prop. */
  class FormUi {
    const patientId: string
    var form: FormData
    var validationError: Option<string>

    constructor(patientId: string)
      ensures this.patientId == patientId
      ensures form == InitialForm(patientId) && validationError.None?
    {
      this.patientId := patientId;
      form := FormData("", "", StatusValue(Pending), "", "", "30", "", "", patientId);
      validationError := None;
    }

    /** Clears a shown validation error. */
    method ClearError()
      modifies this
      ensures form == old(form) && validationError.None?
    {
      if validationError.Some? {
        validationError := None;
      }
    }

    /** `handleChange`: the input named `field` takes the value; the error goes. */
    method HandleChange(field: TextField, value: string)
      modifies this
      ensures form == SetText(old(form), field, value) && validationError.None?
    {
      match field {
        case DateField => form := form.(date := value);
        case TimeField => form := form.(time := value);
        case DurationField => form := form.(duration := value);
        case ReasonField => form := form.(reasonForVisit := value);
        case NotesField => form := form.(notes := value);
      }
      ClearError();
    }

    /** `handleTypeSelect`. */
    method HandleTypeSelect(selected: string)
      modifies this
      ensures form == old(form).(kind := selected) && validationError.None?
    {
      form := form.(kind := selected);
      ClearError();
    }

    /** `handleDentistSelect`. */
    method HandleDentistSelect(selected: string)
      modifies this
      ensures form == old(form).(dentistId := selected) && validationError.None?
    {
      form := form.(dentistId := selected);
      ClearError();
    }

    /** `handleStatusSelect`. */
    method HandleStatusSelect(selected: string)
      modifies this
      ensures form == old(form).(status := selected) && validationError.None?
    {
      form := form.(status := selected);
      ClearError();
    }

    /**
     * `handleSubmit`: a rejection shows its message and keeps the form; an
     * accepted form hands its payload to `onSubmit` (the result here) and
     * is reset, with no error shown.
     */
    method HandleSubmit(toIso: string -> Option<string>) returns (submitted: Option<Payload>)
      modifies this
      ensures Submit(old(form), toIso).Rejected? ==>
        submitted.None? && validationError == Some(Submit(old(form), toIso).message) && form == old(form)
      ensures Submit(old(form), toIso).Submitted? ==>
        submitted == Some(Submit(old(form), toIso).payload) && validationError.None? && form == InitialForm(patientId)
    {
      validationError := None;
      var current := form;
      if form.date == "" || form.time == "" || form.dentistId == "" || form.kind == "" || form.reasonForVisit == "" || form.status == "" {
        validationError := Some(RequiredMessage);
        return None;
      }
      if !DateShaped(current.date) || !TimeShaped(current.time) {
        validationError := Some(InvalidMessage);
        return None;
      }
      var dateTime := toIso(current.date + "T" + current.time + ":00");
      if dateTime.None? {
        validationError := Some(InvalidMessage);
        return None;
      }
      var iso := dateTime.value;
      var payload := Payload(current.status, current.reasonForVisit, current.notes, current.duration, current.kind,
        iso, current.patientId, current.dentistId);
      submitted := Some(payload);
      form := FormData("", "", StatusValue(Pending), "", "", "30", "", "", patientId);
    }
  }
}
