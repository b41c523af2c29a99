/**
 * The appointment status and type enumerations, with their stored string
 * values, and the colour badges shown for each: a Tailwind triple of a
 * 100-shade background, an 800-shade text and a 500-shade dot, all of one
 * hue.  A `switch` in the source compares stored strings, so a value
 * outside the enumeration reaches its `default` branch; the model reads
 * stored strings through `ParseStatus` / `ParseType`.
 */
module AppointmentTypes {
  import opened Wrappers

  datatype AppointmentStatus =
    Pending | Confirmed | Completed | Cancelled | NoShow | Rescheduled | Waiting | InProgress

  /** Every status in declaration order. */
  const AllStatuses: seq<AppointmentStatus> :=
    [Pending, Confirmed, Completed, Cancelled, NoShow, Rescheduled, Waiting, InProgress]

  /** The enumeration's member name. */
  function StatusKey(s: AppointmentStatus): string {
    match s
    case Pending => "Pending"
    case Confirmed => "Confirmed"
    case Completed => "Completed"
    case Cancelled => "Cancelled"
    case NoShow => "NoShow"
    case Rescheduled => "Rescheduled"
    case Waiting => "Waiting"
    case InProgress => "InProgress"
  }

  /** The string stored for a status. */
  function StatusValue(s: AppointmentStatus): string {
    match s
    case Pending => "pending"
    case Confirmed => "confirmed"
    case Completed => "completed"
    case Cancelled => "cancelled"
    case NoShow => "no_show"
    case Rescheduled => "rescheduled"
    case Waiting => "waiting"
    case InProgress => "in_progress"
  }

  /** The status a stored string denotes, if any. */
  function ParseStatus(v: string): (r: Option<AppointmentStatus>)
    ensures r.Some? ==> StatusValue(r.value) == v
  {
    if v == "pending" then Some(Pending)
    else if v == "confirmed" then Some(Confirmed)
    else if v == "completed" then Some(Completed)
    else if v == "cancelled" then Some(Cancelled)
    else if v == "no_show" then Some(NoShow)
    else if v == "rescheduled" then Some(Rescheduled)
    else if v == "waiting" then Some(Waiting)
    else if v == "in_progress" then Some(InProgress)
    else None
  }

  /** Every status's stored string reads back as that status, so no two share a value. */
  lemma StatusValueRoundTrip(s: AppointmentStatus)
    ensures ParseStatus(StatusValue(s)) == Some(s)
  {
  }

  lemma AllStatusesComplete(s: AppointmentStatus)
    ensures s in AllStatuses && |AllStatuses| == 8
  {
  }

  datatype AppointmentType =
    | CheckupRoutineExam | CleaningHygiene | XraysRadiography | Consultation | FluorideTreatment
    | Sealants | Filling | Crown | Bridge | Denture | RootCanal | Extraction
    | ImplantConsultation | ImplantPlacement | ImplantRestoration | TeethWhitening | Veneers
    | Bonding | InvisalignOrthodonticAdjustment | EmergencyVisit | FollowUp | PediatricExam
    | DentalExamination | OralSurgeryProcedure | OralSurgeryConsultation
    | PeriodontalMaintenance | PeriodontalTreatment | Orthodontics | Other

  /** Every type in declaration order. */
  const AllTypes: seq<AppointmentType> := [
    CheckupRoutineExam, CleaningHygiene, XraysRadiography, Consultation, FluorideTreatment,
    Sealants, Filling, Crown, Bridge, Denture, RootCanal, Extraction,
    ImplantConsultation, ImplantPlacement, ImplantRestoration, TeethWhitening, Veneers,
    Bonding, InvisalignOrthodonticAdjustment, EmergencyVisit, FollowUp, PediatricExam,
    DentalExamination, OralSurgeryProcedure, OralSurgeryConsultation,
    PeriodontalMaintenance, PeriodontalTreatment, Orthodontics, Other]

  /** The string stored (and shown) for a type. */
  function TypeValue(t: AppointmentType): string {
    match t
    case CheckupRoutineExam => "Check-up/Routine Exam"
    case CleaningHygiene => "Cleaning/Hygiene"
    case XraysRadiography => "X-rays/Radiography"
    case Consultation => "Consultation"
    case FluorideTreatment => "Fluoride Treatment"
    case Sealants => "Sealants"
    case Filling => "Filling"
    case Crown => "Crown"
    case Bridge => "Bridge"
    case Denture => "Denture"
    case RootCanal => "Root Canal"
    case Extraction => "Extraction"
    case ImplantConsultation => "Implant Consultation"
    case ImplantPlacement => "Implant Placement"
    case ImplantRestoration => "Implant Restoration"
    case TeethWhitening => "Teeth Whitening"
    case Veneers => "Veneers"
    case Bonding => "Bonding"
    case InvisalignOrthodonticAdjustment => "Invisalign/Orthodontic Adjustment"
    case EmergencyVisit => "Emergency Visit"
    case FollowUp => "Follow-up"
    case PediatricExam => "Pediatric Exam"
    case DentalExamination => "Dental Examination"
    case OralSurgeryProcedure => "Oral Surgery Procedure"
    case OralSurgeryConsultation => "Oral Surgery Consultation"
    case PeriodontalMaintenance => "Periodontal Maintenance"
    case PeriodontalTreatment => "Periodontal Treatment"
    case Orthodontics => "Orthodontics"
    case Other => "Other"
  }

  /** The first type, in declaration order, whose stored string is `v`. */
  function ParseTypeFrom(types: seq<AppointmentType>, v: string): (r: Option<AppointmentType>)
    ensures r.Some? ==> r.value in types && TypeValue(r.value) == v
    ensures r.None? ==> forall t :: t in types ==> TypeValue(t) != v
  {
    if types == [] then None
    else if TypeValue(types[0]) == v then Some(types[0])
    else ParseTypeFrom(types[1..], v)
  }

  function ParseType(v: string): (r: Option<AppointmentType>)
    ensures r.Some? ==> TypeValue(r.value) == v
    ensures r.None? ==> forall t: AppointmentType :: TypeValue(t) != v
  {
    var r := ParseTypeFrom(AllTypes, v);
    forall t: AppointmentType ensures t in AllTypes {
      AllTypesComplete(t);
    }
    r
  }

  /** Every type's stored string reads back as that type, so no two share a value. */
  lemma TypeValueRoundTrip(t: AppointmentType)
    ensures ParseType(TypeValue(t)) == Some(t)
  {
    assert t in AllTypes;
    var r := ParseType(TypeValue(t));
    assert r.Some?;
    ValuesDistinct(r.value, t);
  }

  /** The length and first character of a type's stored string, which already tell the types apart. */
  function TypeSignature(t: AppointmentType): (int, char) {
    match t
    case CheckupRoutineExam => (21, 'C')
    case CleaningHygiene => (16, 'C')
    case XraysRadiography => (18, 'X')
    case Consultation => (12, 'C')
    case FluorideTreatment => (18, 'F')
    case Sealants => (8, 'S')
    case Filling => (7, 'F')
    case Crown => (5, 'C')
    case Bridge => (6, 'B')
    case Denture => (7, 'D')
    case RootCanal => (10, 'R')
    case Extraction => (10, 'E')
    case ImplantConsultation => (20, 'I')
    case ImplantPlacement => (17, 'I')
    case ImplantRestoration => (19, 'I')
    case TeethWhitening => (15, 'T')
    case Veneers => (7, 'V')
    case Bonding => (7, 'B')
    case InvisalignOrthodonticAdjustment => (33, 'I')
    case EmergencyVisit => (15, 'E')
    case FollowUp => (9, 'F')
    case PediatricExam => (14, 'P')
    case DentalExamination => (18, 'D')
    case OralSurgeryProcedure => (22, 'O')
    case OralSurgeryConsultation => (25, 'O')
    case PeriodontalMaintenance => (23, 'P')
    case PeriodontalTreatment => (21, 'P')
    case Orthodontics => (12, 'O')
    case Other => (5, 'O')
  }

  lemma TypeSignatureMatches(t: AppointmentType)
    ensures |TypeValue(t)| > 0 && TypeSignature(t).0 == |TypeValue(t)|
    ensures |TypeValue(t)| > 0 ==> TypeSignature(t).1 == TypeValue(t)[0]
  {
    match t {
      case CheckupRoutineExam => {}
      case CleaningHygiene => {}
      case XraysRadiography => {}
      case Consultation => {}
      case FluorideTreatment => {}
      case Sealants => {}
      case Filling => {}
      case Crown => {}
      case Bridge => {}
      case Denture => {}
      case RootCanal => {}
      case Extraction => {}
      case ImplantConsultation => {}
      case ImplantPlacement => {}
      case ImplantRestoration => {}
      case TeethWhitening => {}
      case Veneers => {}
      case Bonding => {}
      case InvisalignOrthodonticAdjustment => {}
      case EmergencyVisit => {}
      case FollowUp => {}
      case PediatricExam => {}
      case DentalExamination => {}
      case OralSurgeryProcedure => {}
      case OralSurgeryConsultation => {}
      case PeriodontalMaintenance => {}
      case PeriodontalTreatment => {}
      case Orthodontics => {}
      case Other => {}
    }
  }

  /** The type with a given signature. */
  function FromSignature(sig: (int, char)): Option<AppointmentType> {
    if sig.0 == 5 then if sig.1 == 'C' then Some(Crown) else if sig.1 == 'O' then Some(Other) else None
    else if sig.0 == 6 then if sig.1 == 'B' then Some(Bridge) else None
    else if sig.0 == 7 then if sig.1 == 'F' then Some(Filling) else if sig.1 == 'D' then Some(Denture) else if sig.1 == 'V' then Some(Veneers) else if sig.1 == 'B' then Some(Bonding) else None
    else if sig.0 == 8 then if sig.1 == 'S' then Some(Sealants) else None
    else if sig.0 == 9 then if sig.1 == 'F' then Some(FollowUp) else None
    else if sig.0 == 10 then if sig.1 == 'R' then Some(RootCanal) else if sig.1 == 'E' then Some(Extraction) else None
    else if sig.0 == 12 then if sig.1 == 'C' then Some(Consultation) else if sig.1 == 'O' then Some(Orthodontics) else None
    else if sig.0 == 14 then if sig.1 == 'P' then Some(PediatricExam) else None
    else if sig.0 == 15 then if sig.1 == 'T' then Some(TeethWhitening) else if sig.1 == 'E' then Some(EmergencyVisit) else None
    else if sig.0 == 16 then if sig.1 == 'C' then Some(CleaningHygiene) else None
    else if sig.0 == 17 then if sig.1 == 'I' then Some(ImplantPlacement) else None
    else if sig.0 == 18 then if sig.1 == 'X' then Some(XraysRadiography) else if sig.1 == 'F' then Some(FluorideTreatment) else if sig.1 == 'D' then Some(DentalExamination) else None
    else if sig.0 == 19 then if sig.1 == 'I' then Some(ImplantRestoration) else None
    else if sig.0 == 20 then if sig.1 == 'I' then Some(ImplantConsultation) else None
    else if sig.0 == 21 then if sig.1 == 'C' then Some(CheckupRoutineExam) else if sig.1 == 'P' then Some(PeriodontalTreatment) else None
    else if sig.0 == 22 then if sig.1 == 'O' then Some(OralSurgeryProcedure) else None
    else if sig.0 == 23 then if sig.1 == 'P' then Some(PeriodontalMaintenance) else None
    else if sig.0 == 25 then if sig.1 == 'O' then Some(OralSurgeryConsultation) else None
    else if sig.0 == 33 then if sig.1 == 'I' then Some(InvisalignOrthodonticAdjustment) else None
    else None
  }

  lemma TypeSignatureInjective(a: AppointmentType, b: AppointmentType)
    requires TypeSignature(a) == TypeSignature(b)
    ensures a == b
  {
    SignatureDecodes(a);
    SignatureDecodes(b);
  }

  lemma SignatureDecodes(t: AppointmentType)
    ensures FromSignature(TypeSignature(t)) == Some(t)
  {
    match t {
      case CheckupRoutineExam => {}
      case CleaningHygiene => {}
      case XraysRadiography => {}
      case Consultation => {}
      case FluorideTreatment => {}
      case Sealants => {}
      case Filling => {}
      case Crown => {}
      case Bridge => {}
      case Denture => {}
      case RootCanal => {}
      case Extraction => {}
      case ImplantConsultation => {}
      case ImplantPlacement => {}
      case ImplantRestoration => {}
      case TeethWhitening => {}
      case Veneers => {}
      case Bonding => {}
      case InvisalignOrthodonticAdjustment => {}
      case EmergencyVisit => {}
      case FollowUp => {}
      case PediatricExam => {}
      case DentalExamination => {}
      case OralSurgeryProcedure => {}
      case OralSurgeryConsultation => {}
      case PeriodontalMaintenance => {}
      case PeriodontalTreatment => {}
      case Orthodontics => {}
      case Other => {}
    }
  }

  /** No two types share a stored string. */
  lemma ValuesDistinct(a: AppointmentType, b: AppointmentType)
    requires TypeValue(a) == TypeValue(b)
    ensures a == b
  {
    TypeSignatureMatches(a);
    TypeSignatureMatches(b);
    assert TypeSignature(a) == TypeSignature(b);
    TypeSignatureInjective(a, b);
  }

  lemma AllTypesComplete(t: AppointmentType)
    ensures t in AllTypes && |AllTypes| == 29
  {
  }

  // --------------------------------------------------------------- colours

  datatype Hue =
    Blue | Green | Yellow | Red | Purple | Pink | Indigo | Teal | Orange | Lime
    | Rose | Fuchsia | Cyan | Sky | Amber | Violet | Gray

  function HueName(h: Hue): string {
    match h
    case Blue => "blue"
    case Green => "green"
    case Yellow => "yellow"
    case Red => "red"
    case Purple => "purple"
    case Pink => "pink"
    case Indigo => "indigo"
    case Teal => "teal"
    case Orange => "orange"
    case Lime => "lime"
    case Rose => "rose"
    case Fuchsia => "fuchsia"
    case Cyan => "cyan"
    case Sky => "sky"
    case Amber => "amber"
    case Violet => "violet"
    case Gray => "gray"
  }

  datatype Badge = Badge(bg: string, text: string, dot: string)

  /** The triple of one hue family. */
  function Palette(h: Hue): (b: Badge)
    ensures b.bg == "bg-" + HueName(h) + "-100"
    ensures b.text == "text-" + HueName(h) + "-800"
    ensures b.dot == "bg-" + HueName(h) + "-500"
  {
    Badge("bg-" + HueName(h) + "-100", "text-" + HueName(h) + "-800", "bg-" + HueName(h) + "-500")
  }

  /** Distinct hues give distinct badges, so a badge names exactly one hue. */
  lemma PaletteInjective(a: Hue, b: Hue)
    requires Palette(a) == Palette(b)
    ensures a == b
  {
    var na, nb := HueName(a), HueName(b);
    assert Palette(a).bg == "bg-" + na + "-100";
    assert |na| + 7 == |nb| + 7;
    assert forall i :: 0 <= i < |na| ==> na[i] == ("bg-" + na + "-100")[i + 3] == ("bg-" + nb + "-100")[i + 3] == nb[i];
    assert na == nb;
  }

  /** The hue of a status's badge; statuses without a case get the default. */
  function StatusHue(s: AppointmentStatus): Hue {
    match s
    case Pending => Blue
    case Completed => Green
    case Cancelled => Red
    case NoShow => Yellow
    case InProgress => Purple
    case _ => Gray
  }

  /** The hue `getAppointmentStatusColor` picks for a stored status string. */
  function StatusColorHue(v: string): (h: Hue)
    ensures ParseStatus(v).None? ==> h == Gray
    ensures ParseStatus(v).Some? ==> h == StatusHue(ParseStatus(v).value)
  {
    var s := ParseStatus(v);
    if s.Some? then StatusHue(s.value) else Gray
  }

  /** `getAppointmentStatusColor`: the triple of one hue family. */
  function StatusColor(v: string): (b: Badge)
    ensures b == Palette(StatusColorHue(v))
  {
    Palette(StatusColorHue(v))
  }

  /**
   * Five statuses have their own colour; Confirmed, Rescheduled and Waiting
   * have no case and show gray, like any unknown value.
   */
  lemma StatusColors()
    ensures StatusColorHue("pending") == Blue && StatusColorHue("completed") == Green
    ensures StatusColorHue("cancelled") == Red && StatusColorHue("no_show") == Yellow
    ensures StatusColorHue("in_progress") == Purple
    ensures StatusColorHue("confirmed") == StatusColorHue("rescheduled") == StatusColorHue("waiting") == Gray
  {
  }

  /** A status shows the gray badge exactly when it is one of the three without a case. */
  lemma StatusGrayExactly(s: AppointmentStatus)
    ensures StatusColor(StatusValue(s)) == Palette(Gray) <==> s in {Confirmed, Rescheduled, Waiting}
  {
    StatusValueRoundTrip(s);
    var h := StatusColorHue(StatusValue(s));
    assert h == StatusHue(s);
    if Palette(h) == Palette(Gray) {
      PaletteInjective(h, Gray);
    }
  }

  /** The hue of a type's badge: every one of the 29 types has its own case. */
  function TypeHue(t: AppointmentType): Hue {
    match t
    case CheckupRoutineExam => Blue
    case CleaningHygiene => Green
    case XraysRadiography => Yellow
    case Consultation => Red
    case FluorideTreatment => Purple
    case Sealants => Pink
    case Filling => Indigo
    case Crown => Teal
    case Bridge => Orange
    case Denture => Lime
    case RootCanal => Rose
    case Extraction => Fuchsia
    case ImplantConsultation => Cyan
    case ImplantPlacement => Sky
    case ImplantRestoration => Amber
    case TeethWhitening => Violet
    case Veneers => Pink
    case Bonding => Indigo
    case Orthodontics => Teal
    case PeriodontalMaintenance => Orange
    case OralSurgeryProcedure => Lime
    case InvisalignOrthodonticAdjustment => Rose
    case EmergencyVisit => Fuchsia
    case FollowUp => Cyan
    case PediatricExam => Sky
    case DentalExamination => Amber
    case OralSurgeryConsultation => Pink
    case PeriodontalTreatment => Teal
    case Other => Gray
  }

  /** The hue `getAppointmentTypeColor` picks for a stored type string; an unknown value gets the default. */
  function TypeColorHue(v: string): (h: Hue)
    ensures ParseType(v).None? ==> h == Gray
    ensures ParseType(v).Some? ==> h == TypeHue(ParseType(v).value)
  {
    var t := ParseType(v);
    if t.Some? then TypeHue(t.value) else Gray
  }

  /** `getAppointmentTypeColor`: the triple of one hue family. */
  function TypeColor(v: string): (b: Badge)
    ensures b == Palette(TypeColorHue(v))
  {
    Palette(TypeColorHue(v))
  }

  /** Only Other, among the types, shows the gray badge; so does every string that is no type. */
  lemma TypeGrayExactly(v: string)
    ensures TypeColor(v) == Palette(Gray) <==> (ParseType(v).None? || ParseType(v) == Some(Other))
  {
    var t := ParseType(v);
    var h := TypeColorHue(v);
    if t.Some? {
      TypeHueGray(t.value);
      assert h == TypeHue(t.value);
      if Palette(h) == Palette(Gray) {
        PaletteInjective(h, Gray);
      }
    }
  }

  lemma TypeHueGray(t: AppointmentType)
    ensures TypeHue(t) == Gray <==> t == Other
  {
  }

  /** A type's stored string gets the hue of that type's case. */
  lemma TypeColorOfType(t: AppointmentType)
    ensures TypeColorHue(TypeValue(t)) == TypeHue(t)
  {
    TypeValueRoundTrip(t);
  }

  /**
   * The type colouring is not one-to-one: exactly three types show the pink
   * badge (Sealants, Veneers and Oral Surgery Consultation).
   */
  lemma PinkTypes(t: AppointmentType)
    ensures TypeColor(TypeValue(t)) == Palette(Pink) <==> t in {Sealants, Veneers, OralSurgeryConsultation}
  {
    TypeColorOfType(t);
    if Palette(TypeHue(t)) == Palette(Pink) {
      PaletteInjective(TypeHue(t), Pink);
    }
  }
}
