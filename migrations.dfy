/**
 * The PocketBase schema migrations of the backend.  Each `up` looks up the
 * collections it relates to, in a fixed order, and returns the first lookup
 * error; otherwise it builds a new base collection, adds its fields and
 * saves it.  Every `down` is a no-op.  The application's collection catalog
 * is abstracted as a map from collection name to collection id.
 */
module Migrations {
  import opened Wrappers

  datatype FieldKind =
    | TextField(max: nat)
    | RelationField(collectionId: string, maxSelect: nat)
    | SelectField(values: seq<string>, presentable: bool)
    | BoolField
    | DateField
    | NumberField
    | EmailField
    | JsonField
    | GeoPointField
    | FileField(maxSelect: nat, maxSize: nat, mimeTypes: seq<string>, thumbs: seq<string>)

  /** A field definition; `max`/`maxSelect` 0 means PocketBase's default (no explicit limit). */
  datatype Field = Field(name: string, required: bool, kind: FieldKind)

  datatype Collection = Collection(name: string, fields: seq<Field>)

  datatype MigrationError =
    | NotFound(name: string)        // FindCollectionByNameOrId's error, returned by `up`
    | NilDereference(name: string)  // a runtime panic: `.Id` read from the nil collection looked up as `name`

  type Catalog = map<string, string>

  function Lookup(catalog: Catalog, name: string): (r: Result<string, MigrationError>)
    ensures r.Success? <==> name in catalog
    ensures r.Success? ==> r.value == catalog[name]
    ensures r.Failure? ==> r.error == NotFound(name)
  {
    if name in catalog then Success(catalog[name]) else Failure(NotFound(name))
  }

  /** `names[k]` is the first of `names` missing from the catalog. */
  predicate FirstMissing(catalog: Catalog, names: seq<string>, k: int) {
    0 <= k < |names| && names[k] !in catalog && forall j :: 0 <= j < k ==> names[j] in catalog
  }

  /**
   * Looks the names up in order and stops at the first one missing, as the
   * sequence of `if err != nil { return err }` blocks does.
   */
  function LookupAll(catalog: Catalog, names: seq<string>): (r: Result<seq<string>, MigrationError>)
    ensures r.Success? <==> forall k :: 0 <= k < |names| ==> names[k] in catalog
    ensures r.Success? ==> |r.value| == |names| && forall k :: 0 <= k < |names| ==> r.value[k] == catalog[names[k]]
    ensures r.Failure? ==> exists k :: FirstMissing(catalog, names, k) && r.error == NotFound(names[k])
  {
    if names == [] then Success([])
    else if names[0] !in catalog then Failure(NotFound(names[0]))
    else
      match LookupAll(catalog, names[1..])
      case Failure(e) =>
        assert exists k :: FirstMissing(catalog, names, k) && e == NotFound(names[k]) by {
          var k :| FirstMissing(catalog, names[1..], k) && e == NotFound(names[1..][k]);
          assert forall j :: 1 <= j < k + 1 ==> names[j] == names[1..][j - 1];
          assert names[k + 1] == names[1..][k];
          assert FirstMissing(catalog, names, k + 1);
        }
        Failure(e)
      case Success(ids) =>
        assert forall k :: 1 <= k < |names| ==> names[k] == names[1..][k - 1];
        Success([catalog[names[0]]] + ids)
  }

  /** Which name a failed lookup of two, three or four collections reports. */
  lemma LookupAllError(catalog: Catalog, names: seq<string>)
    requires 2 <= |names| <= 4
    ensures LookupAll(catalog, names).Success? <==> (names[0] in catalog && names[1] in catalog
      && (|names| > 2 ==> names[2] in catalog) && (|names| > 3 ==> names[3] in catalog))
    ensures LookupAll(catalog, names).Failure? ==> LookupAll(catalog, names).error == NotFound(
      if names[0] !in catalog then names[0] else if names[1] !in catalog || |names| == 2 then names[1]
      else if names[2] !in catalog || |names| == 3 then names[2] else names[3])
  {
    var r := LookupAll(catalog, names);
    if r.Failure? {
      var k :| FirstMissing(catalog, names, k) && r.error == NotFound(names[k]);
      if k > 0 { assert names[0] in catalog; }
      if k > 1 { assert names[1] in catalog; }
      if k > 2 { assert names[2] in catalog; }
    }
  }

  function FieldNames(fields: seq<Field>): (r: seq<string>)
    ensures |r| == |fields| && forall k :: 0 <= k < |fields| ==> r[k] == fields[k].name
  {
    seq(|fields|, k requires 0 <= k < |fields| => fields[k].name)
  }

  /** `c` has a field called `name` at position `k`. */
  predicate FieldAt(c: Collection, name: string, k: int) {
    0 <= k < |c.fields| && c.fields[k].name == name
  }

  ghost predicate HasField(c: Collection, name: string) {
    exists k :: FieldAt(c, name, k)
  }

  ghost predicate IsRequired(c: Collection, name: string) {
    exists k :: FieldAt(c, name, k) && c.fields[k].required
  }

  ghost predicate IsOptional(c: Collection, name: string) {
    exists k :: FieldAt(c, name, k) && !c.fields[k].required
  }

  ghost predicate IsKind(c: Collection, name: string, kind: FieldKind) {
    exists k :: FieldAt(c, name, k) && c.fields[k].kind == kind
  }

  ghost predicate IsText(c: Collection, name: string, max: nat) {
    IsKind(c, name, TextField(max))
  }

  ghost predicate IsRelation(c: Collection, name: string, target: string) {
    exists k :: FieldAt(c, name, k) && c.fields[k].kind.RelationField? && c.fields[k].kind.collectionId == target
  }

  ghost predicate IsSelect(c: Collection, name: string, values: seq<string>) {
    exists k :: FieldAt(c, name, k) && c.fields[k].kind.SelectField? && c.fields[k].kind.values == values
  }

  // ---------------------------------------------------------------------
  // The collections each `up` saves, given the ids it looked up.

  function OrganizationsCollection(usersId: string): Collection {
    Collection("organizations", [
      Field("organization_name", true, TextField(100)),
      Field("address", true, TextField(100)),
      Field("owners", true, RelationField(usersId, 20))])
  }

  function ClinicsCollection(orgId: string): Collection {
    Collection("clinics", [
      Field("clinic_name", true, TextField(100)),
      Field("organization", true, RelationField(orgId, 0)),
      Field("address", true, TextField(100)),
      Field("geo_address", false, GeoPointField),
      Field("phone", true, TextField(100)),
      Field("is_active", true, BoolField)])
  }

  const StaffRoles: seq<string> := ["org_admin", "clinic_manager", "dentist", "receptionist"]

  function StaffMembersCollection(usersId: string, orgId: string, clinicsId: string): Collection {
    Collection("staff_members", [
      Field("user", true, RelationField(usersId, 0)),
      Field("organization", true, RelationField(orgId, 0)),
      Field("clinic", true, RelationField(clinicsId, 0)),
      Field("role", true, SelectField(StaffRoles, true)),
      Field("is_active", true, BoolField)])
  }

  function PatientsCollection(clinicsId: string): Collection {
    Collection("patients", [
      Field("first_name", true, TextField(100)),
      Field("last_name", true, TextField(100)),
      Field("sex", true, SelectField(["male", "female"], false)),
      Field("primary_clinic", true, RelationField(clinicsId, 0)),
      Field("dob", true, DateField),
      Field("phone", true, TextField(0)),
      Field("email", false, EmailField),
      Field("address", false, TextField(0)),
      Field("medical_history", false, TextField(0))])
  }

  function PatientTransfersCollection(patientsId: string, clinicsId: string): Collection {
    Collection("patient_transfers", [
      Field("patient", true, RelationField(patientsId, 0)),
      Field("from_clinic", true, RelationField(clinicsId, 0)),
      Field("to_clinic", true, RelationField(clinicsId, 0)),
      Field("transfer_date", true, DateField),
      Field("reason", false, TextField(0))])
  }

  const AppointmentStatuses: seq<string> := ["scheduled", "confirmed", "completed", "cancelled", "no_show"]

  function AppointmentsCollection(patientsId: string, staffId: string, clinicsId: string): Collection {
    Collection("appointments", [
      Field("patient", true, RelationField(patientsId, 0)),
      Field("doctor", true, RelationField(staffId, 0)),
      Field("clinic", true, RelationField(clinicsId, 0)),
      Field("start_time", true, DateField),
      Field("end_time", false, DateField),
      Field("status", true, SelectField(AppointmentStatuses, false)),
      Field("reason", false, TextField(300)),
      Field("notes", false, TextField(1000))])
  }

  function TreatmentsCatalogCollection(): Collection {
    Collection("treatments_catalog", [
      Field("name", true, TextField(100)),
      Field("description", false, TextField(300)),
      Field("default_price", true, NumberField)])
  }

  function TreatmentRecordsCollection(patientsId: string, staffId: string, clinicsId: string, appointmentsId: string): Collection {
    Collection("treatment_records", [
      Field("patient", true, RelationField(patientsId, 0)),
      Field("doctor", true, RelationField(staffId, 0)),
      Field("clinic", true, RelationField(clinicsId, 0)),
      Field("appointment", true, RelationField(appointmentsId, 0)),
      Field("price_charged", true, NumberField),
      Field("tooth_numbers", false, JsonField),
      Field("clinical_notes", false, TextField(0))])
  }

  const ImageMaxSize: nat := 10 * 1024 * 1024

  function DentalChartsLead(patientsId: string, staffId: string, clinicsId: string): seq<Field> {
    [Field("patient", true, RelationField(patientsId, 0)),
     Field("doctor", false, RelationField(staffId, 0)),
     Field("clinic", true, RelationField(clinicsId, 0))]
  }

  function DentalChartsTail(): seq<Field> {
    [Field("chart_type", true, SelectField(["initial", "progress", "recall", "pre_op", "post_op"], false)),
     Field("notation_system", true, SelectField(["universal", "fdi", "palmer"], false)),
     Field("dentition", true, SelectField(["permanent", "primary", "mixed"], false)),
     Field("chart_state", true, JsonField),
     Field("notes", false, TextField(2000)),
     Field("images", false, FileField(10, ImageMaxSize, ["image/png", "image/jpeg", "image/webp"], ["100x100", "800x800"]))]
  }

  function DentalChartsCollection(patientsId: string, staffId: string, clinicsId: string, appointmentsId: Option<string>): Collection {
    Collection("dental_charts",
      DentalChartsLead(patientsId, staffId, clinicsId)
      + (if appointmentsId.Some? then [Field("appointment", false, RelationField(appointmentsId.value, 0))] else [])
      + DentalChartsTail())
  }

  // ---------------------------------------------------------------------
  // What each `up` does to a catalog: the collection it saves, or its error.

  function OrganizationsUp(catalog: Catalog): (r: Result<Collection, MigrationError>)
    ensures r.Failure? <==> "users" !in catalog
    ensures r.Failure? ==> r.error == NotFound("users")
    ensures r.Success? ==> (r.value.name == "organizations"
      && FieldNames(r.value.fields) == ["organization_name", "address", "owners"]
      && IsRequired(r.value, "organization_name") && IsText(r.value, "organization_name", 100)
      && IsRequired(r.value, "address") && IsText(r.value, "address", 100)
      && IsRequired(r.value, "owners") && IsKind(r.value, "owners", RelationField(catalog["users"], 20)))
  {
    match Lookup(catalog, "users")
    case Failure(e) => Failure(e)
    case Success(users) =>
      var c := OrganizationsCollection(users);
      assert FieldAt(c, "organization_name", 0) && FieldAt(c, "address", 1) && FieldAt(c, "owners", 2);
      Success(c)
  }

  function ClinicsUp(catalog: Catalog): (r: Result<Collection, MigrationError>)
    ensures r.Failure? <==> "organizations" !in catalog
    ensures r.Failure? ==> r.error == NotFound("organizations")
    ensures r.Success? ==> (r.value.name == "clinics"
      && FieldNames(r.value.fields) == ["clinic_name", "organization", "address", "geo_address", "phone", "is_active"]
      && IsRequired(r.value, "clinic_name") && IsText(r.value, "clinic_name", 100)
      && IsRequired(r.value, "address") && IsText(r.value, "address", 100)
      && IsRequired(r.value, "phone") && IsText(r.value, "phone", 100)
      && IsRequired(r.value, "organization") && IsRelation(r.value, "organization", catalog["organizations"])
      && IsRequired(r.value, "is_active") && IsKind(r.value, "is_active", BoolField)
      && IsOptional(r.value, "geo_address") && IsKind(r.value, "geo_address", GeoPointField))
  {
    match Lookup(catalog, "organizations")
    case Failure(e) => Failure(e)
    case Success(orgs) =>
      var c := ClinicsCollection(orgs);
      assert FieldAt(c, "clinic_name", 0) && FieldAt(c, "organization", 1) && FieldAt(c, "address", 2);
      assert FieldAt(c, "geo_address", 3) && FieldAt(c, "phone", 4) && FieldAt(c, "is_active", 5);
      Success(c)
  }

  function StaffMembersUp(catalog: Catalog): (r: Result<Collection, MigrationError>)
    ensures r.Failure? <==> !("users" in catalog && "organizations" in catalog && "clinics" in catalog)
    ensures r.Failure? ==> r.error == NotFound(
      if "users" !in catalog then "users" else if "organizations" !in catalog then "organizations" else "clinics")
    ensures r.Success? ==> (r.value.name == "staff_members"
      && FieldNames(r.value.fields) == ["user", "organization", "clinic", "role", "is_active"]
      && IsRequired(r.value, "user") && IsRelation(r.value, "user", catalog["users"])
      && IsRequired(r.value, "organization") && IsRelation(r.value, "organization", catalog["organizations"])
      && IsRequired(r.value, "clinic") && IsRelation(r.value, "clinic", catalog["clinics"])
      && IsRequired(r.value, "role") && IsKind(r.value, "role", SelectField(["org_admin", "clinic_manager", "dentist", "receptionist"], true))
      && IsRequired(r.value, "is_active") && IsKind(r.value, "is_active", BoolField))
  {
    LookupAllError(catalog, ["users", "organizations", "clinics"]);
    match LookupAll(catalog, ["users", "organizations", "clinics"])
    case Failure(e) => Failure(e)
    case Success(ids) =>
      var c := StaffMembersCollection(ids[0], ids[1], ids[2]);
      assert FieldAt(c, "user", 0) && FieldAt(c, "organization", 1) && FieldAt(c, "clinic", 2);
      assert FieldAt(c, "role", 3) && FieldAt(c, "is_active", 4);
      Success(c)
  }

  function PatientsUp(catalog: Catalog): (r: Result<Collection, MigrationError>)
    ensures r.Failure? <==> "clinics" !in catalog
    ensures r.Failure? ==> r.error == NotFound("clinics")
    ensures r.Success? ==> (r.value.name == "patients"
      && FieldNames(r.value.fields) == ["first_name", "last_name", "sex", "primary_clinic", "dob", "phone", "email", "address", "medical_history"]
      && IsRequired(r.value, "first_name") && IsText(r.value, "first_name", 100)
      && IsRequired(r.value, "last_name") && IsText(r.value, "last_name", 100)
      && IsRequired(r.value, "sex") && IsSelect(r.value, "sex", ["male", "female"])
      && IsRequired(r.value, "primary_clinic") && IsRelation(r.value, "primary_clinic", catalog["clinics"])
      && IsRequired(r.value, "dob") && IsRequired(r.value, "phone")
      && IsOptional(r.value, "email") && IsOptional(r.value, "address") && IsOptional(r.value, "medical_history"))
  {
    match Lookup(catalog, "clinics")
    case Failure(e) => Failure(e)
    case Success(clinics) =>
      PatientsShape(clinics);
      Success(PatientsCollection(clinics))
  }

  lemma PatientsShape(clinicsId: string)
    ensures var c := PatientsCollection(clinicsId);
      c.name == "patients"
      && FieldNames(c.fields) == ["first_name", "last_name", "sex", "primary_clinic", "dob", "phone", "email", "address", "medical_history"]
      && IsRequired(c, "first_name") && IsText(c, "first_name", 100)
      && IsRequired(c, "last_name") && IsText(c, "last_name", 100)
      && IsRequired(c, "sex") && IsSelect(c, "sex", ["male", "female"])
      && IsRequired(c, "primary_clinic") && IsRelation(c, "primary_clinic", clinicsId)
      && IsRequired(c, "dob") && IsRequired(c, "phone")
      && IsOptional(c, "email") && IsOptional(c, "address") && IsOptional(c, "medical_history")
  {
    var c := PatientsCollection(clinicsId);
    assert FieldAt(c, "first_name", 0) && FieldAt(c, "last_name", 1) && FieldAt(c, "sex", 2);
    assert FieldAt(c, "primary_clinic", 3) && FieldAt(c, "dob", 4) && FieldAt(c, "phone", 5);
    assert FieldAt(c, "email", 6) && FieldAt(c, "address", 7) && FieldAt(c, "medical_history", 8);
  }

  function PatientTransfersUp(catalog: Catalog): (r: Result<Collection, MigrationError>)
    ensures r.Failure? <==> !("patients" in catalog && "clinics" in catalog)
    ensures r.Failure? ==> r.error == NotFound(if "patients" !in catalog then "patients" else "clinics")
    ensures r.Success? ==> (r.value.name == "patient_transfers"
      && FieldNames(r.value.fields) == ["patient", "from_clinic", "to_clinic", "transfer_date", "reason"]
      && IsRequired(r.value, "patient") && IsRelation(r.value, "patient", catalog["patients"])
      && IsRequired(r.value, "from_clinic") && IsRelation(r.value, "from_clinic", catalog["clinics"])
      && IsRequired(r.value, "to_clinic") && IsRelation(r.value, "to_clinic", catalog["clinics"])
      && IsRequired(r.value, "transfer_date") && IsKind(r.value, "transfer_date", DateField)
      && IsOptional(r.value, "reason"))
  {
    LookupAllError(catalog, ["patients", "clinics"]);
    match LookupAll(catalog, ["patients", "clinics"])
    case Failure(e) => Failure(e)
    case Success(ids) =>
      var c := PatientTransfersCollection(ids[0], ids[1]);
      assert FieldAt(c, "patient", 0) && FieldAt(c, "from_clinic", 1) && FieldAt(c, "to_clinic", 2);
      assert FieldAt(c, "transfer_date", 3) && FieldAt(c, "reason", 4);
      Success(c)
  }

  function AppointmentsUp(catalog: Catalog): (r: Result<Collection, MigrationError>)
    ensures r.Failure? <==> !("patients" in catalog && "staff_members" in catalog && "clinics" in catalog)
    ensures r.Failure? ==> r.error == NotFound(
      if "patients" !in catalog then "patients" else if "staff_members" !in catalog then "staff_members" else "clinics")
    ensures r.Success? ==> (r.value.name == "appointments"
      && FieldNames(r.value.fields) == ["patient", "doctor", "clinic", "start_time", "end_time", "status", "reason", "notes"]
      && IsRequired(r.value, "patient") && IsRelation(r.value, "patient", catalog["patients"])
      && IsRequired(r.value, "doctor") && IsRelation(r.value, "doctor", catalog["staff_members"])
      && IsRequired(r.value, "clinic") && IsRelation(r.value, "clinic", catalog["clinics"])
      && IsRequired(r.value, "start_time") && IsOptional(r.value, "end_time")
      && IsRequired(r.value, "status")
      && IsSelect(r.value, "status", ["scheduled", "confirmed", "completed", "cancelled", "no_show"])
      && IsText(r.value, "reason", 300) && IsText(r.value, "notes", 1000))
  {
    LookupAllError(catalog, ["patients", "staff_members", "clinics"]);
    match LookupAll(catalog, ["patients", "staff_members", "clinics"])
    case Failure(e) => Failure(e)
    case Success(ids) =>
      assert ids[0] == catalog["patients"] && ids[1] == catalog["staff_members"] && ids[2] == catalog["clinics"];
      AppointmentsShape(ids[0], ids[1], ids[2]);
      Success(AppointmentsCollection(ids[0], ids[1], ids[2]))
  }

  lemma AppointmentsShape(patientsId: string, staffId: string, clinicsId: string)
    ensures var c := AppointmentsCollection(patientsId, staffId, clinicsId);
      c.name == "appointments"
      && FieldNames(c.fields) == ["patient", "doctor", "clinic", "start_time", "end_time", "status", "reason", "notes"]
      && IsRequired(c, "patient") && IsRelation(c, "patient", patientsId)
      && IsRequired(c, "doctor") && IsRelation(c, "doctor", staffId)
      && IsRequired(c, "clinic") && IsRelation(c, "clinic", clinicsId)
      && IsRequired(c, "start_time") && IsOptional(c, "end_time")
      && IsRequired(c, "status")
      && IsSelect(c, "status", ["scheduled", "confirmed", "completed", "cancelled", "no_show"])
      && IsText(c, "reason", 300) && IsText(c, "notes", 1000)
  {
    var c := AppointmentsCollection(patientsId, staffId, clinicsId);
    assert FieldAt(c, "patient", 0) && FieldAt(c, "doctor", 1) && FieldAt(c, "clinic", 2);
    assert FieldAt(c, "start_time", 3) && FieldAt(c, "end_time", 4) && FieldAt(c, "status", 5);
    assert FieldAt(c, "reason", 6) && FieldAt(c, "notes", 7);
  }

  function TreatmentsCatalogUp(catalog: Catalog): (r: Result<Collection, MigrationError>)
    ensures r.Success?
    ensures r.value.name == "treatments_catalog"
      && FieldNames(r.value.fields) == ["name", "description", "default_price"]
      && IsRequired(r.value, "name") && IsText(r.value, "name", 100)
      && IsOptional(r.value, "description") && IsText(r.value, "description", 300)
      && IsRequired(r.value, "default_price") && IsKind(r.value, "default_price", NumberField)
  {
    var c := TreatmentsCatalogCollection();
    assert FieldAt(c, "name", 0) && FieldAt(c, "description", 1) && FieldAt(c, "default_price", 2);
    Success(c)
  }

  /**
   * treatment_records as written: the appointments lookup's error is
   * dropped, so with no appointments collection the nil result's `.Id` is
   * read and the migration panics instead of returning an error.
   */
  function TreatmentRecordsUpAsWritten(catalog: Catalog): (r: Result<Collection, MigrationError>)
    ensures r.Failure? <==> !("patients" in catalog && "staff_members" in catalog && "clinics" in catalog && "appointments" in catalog)
    ensures r.Failure? && "patients" in catalog && "staff_members" in catalog && "clinics" in catalog
      ==> r.error == NilDereference("appointments")
  {
    LookupAllError(catalog, ["patients", "staff_members", "clinics"]);
    match LookupAll(catalog, ["patients", "staff_members", "clinics"])
    case Failure(e) => Failure(e)
    case Success(ids) =>
      if "appointments" !in catalog then Failure(NilDereference("appointments"))
      else Success(TreatmentRecordsCollection(ids[0], ids[1], ids[2], catalog["appointments"]))
  }

  /** treatment_records with the appointments lookup checked like the other three. */
  function TreatmentRecordsUp(catalog: Catalog): (r: Result<Collection, MigrationError>)
    ensures r.Failure? <==> !("patients" in catalog && "staff_members" in catalog && "clinics" in catalog && "appointments" in catalog)
    ensures r.Failure? ==> r.error == NotFound(
      if "patients" !in catalog then "patients" else if "staff_members" !in catalog then "staff_members"
      else if "clinics" !in catalog then "clinics" else "appointments")
    ensures r.Success? ==> (r.value.name == "treatment_records"
      && FieldNames(r.value.fields) == ["patient", "doctor", "clinic", "appointment", "price_charged", "tooth_numbers", "clinical_notes"]
      && IsRequired(r.value, "appointment") && IsRelation(r.value, "appointment", catalog["appointments"])
      && IsRequired(r.value, "price_charged") && IsKind(r.value, "price_charged", NumberField)
      && IsOptional(r.value, "tooth_numbers") && IsKind(r.value, "tooth_numbers", JsonField)
      && IsOptional(r.value, "clinical_notes"))
    ensures r.Success? ==> TreatmentRecordsUpAsWritten(catalog) == r
  {
    LookupAllError(catalog, ["patients", "staff_members", "clinics", "appointments"]);
    match LookupAll(catalog, ["patients", "staff_members", "clinics", "appointments"])
    case Failure(e) => Failure(e)
    case Success(ids) =>
      var c := TreatmentRecordsCollection(ids[0], ids[1], ids[2], ids[3]);
      assert FieldAt(c, "patient", 0) && FieldAt(c, "doctor", 1) && FieldAt(c, "clinic", 2);
      assert FieldAt(c, "appointment", 3) && FieldAt(c, "price_charged", 4) && FieldAt(c, "tooth_numbers", 5);
      assert FieldAt(c, "clinical_notes", 6);
      Success(c)
  }

  /** The nil dereference: the three checked collections exist, appointments does not. */
  lemma TreatmentRecordsMissingAppointmentsPanics()
    ensures var catalog := map["patients" := "p", "staff_members" := "s", "clinics" := "c"];
      TreatmentRecordsUpAsWritten(catalog) == Failure(NilDereference("appointments"))
      && TreatmentRecordsUp(catalog) == Failure(NotFound("appointments"))
  {
    var catalog := map["patients" := "p", "staff_members" := "s", "clinics" := "c"];
    assert "appointments" !in catalog;
  }

  /** The relation fields of dental_charts; `appointment` exists exactly when an appointments id was found. */
  lemma DentalChartsRelations(patientsId: string, staffId: string, clinicsId: string, appointmentsId: Option<string>)
    ensures var c := DentalChartsCollection(patientsId, staffId, clinicsId, appointmentsId);
      (HasField(c, "appointment") <==> appointmentsId.Some?)
      && (appointmentsId.Some? ==> IsOptional(c, "appointment") && IsRelation(c, "appointment", appointmentsId.value))
      && IsRequired(c, "patient") && IsRelation(c, "patient", patientsId)
      && IsOptional(c, "doctor") && IsRelation(c, "doctor", staffId)
      && IsRequired(c, "clinic") && IsRelation(c, "clinic", clinicsId)
  {
    var c := DentalChartsCollection(patientsId, staffId, clinicsId, appointmentsId);
    var lead, tail := DentalChartsLead(patientsId, staffId, clinicsId), DentalChartsTail();
    assert c.fields[..3] == lead;
    assert FieldAt(c, "patient", 0) && FieldAt(c, "doctor", 1) && FieldAt(c, "clinic", 2);
    if appointmentsId.Some? {
      assert FieldAt(c, "appointment", 3);
    } else {
      assert c.fields[3..] == tail;
      forall k | 0 <= k < |c.fields| ensures c.fields[k].name != "appointment" {
        if k < 3 { assert c.fields[k] == lead[k]; } else { assert c.fields[k] == tail[k - 3]; }
      }
    }
  }

  /** The chart content fields of dental_charts, which follow the relations. */
  lemma DentalChartsContent(patientsId: string, staffId: string, clinicsId: string, appointmentsId: Option<string>)
    ensures var c := DentalChartsCollection(patientsId, staffId, clinicsId, appointmentsId);
      IsRequired(c, "chart_type") && IsSelect(c, "chart_type", ["initial", "progress", "recall", "pre_op", "post_op"])
      && IsRequired(c, "notation_system") && IsSelect(c, "notation_system", ["universal", "fdi", "palmer"])
      && IsRequired(c, "dentition") && IsSelect(c, "dentition", ["permanent", "primary", "mixed"])
      && IsRequired(c, "chart_state") && IsText(c, "notes", 2000)
      && IsOptional(c, "images")
      && IsKind(c, "images", FileField(10, 10 * 1024 * 1024, ["image/png", "image/jpeg", "image/webp"], ["100x100", "800x800"]))
  {
    var c := DentalChartsCollection(patientsId, staffId, clinicsId, appointmentsId);
    var tail := DentalChartsTail();
    var o := if appointmentsId.Some? then 1 else 0;
    assert c.fields[3 + o..] == tail;
    assert FieldAt(c, "chart_type", 3 + o) && FieldAt(c, "notation_system", 4 + o) && FieldAt(c, "dentition", 5 + o) by {
      assert c.fields[3 + o] == tail[0] && c.fields[4 + o] == tail[1] && c.fields[5 + o] == tail[2];
    }
    assert FieldAt(c, "chart_state", 6 + o) && FieldAt(c, "notes", 7 + o) && FieldAt(c, "images", 8 + o) by {
      assert c.fields[6 + o] == tail[3] && c.fields[7 + o] == tail[4] && c.fields[8 + o] == tail[5];
    }
  }

  function DentalChartsUp(catalog: Catalog): (r: Result<Collection, MigrationError>)
    ensures r.Failure? <==> !("patients" in catalog && "staff_members" in catalog && "clinics" in catalog)
    ensures r.Failure? ==> r.error == NotFound(
      if "patients" !in catalog then "patients" else if "staff_members" !in catalog then "staff_members" else "clinics")
    ensures r.Success? ==> (r.value.name == "dental_charts"
      && (HasField(r.value, "appointment") <==> "appointments" in catalog)
      && ("appointments" in catalog ==> IsOptional(r.value, "appointment") && IsRelation(r.value, "appointment", catalog["appointments"]))
      && IsRequired(r.value, "patient") && IsRelation(r.value, "patient", catalog["patients"])
      && IsOptional(r.value, "doctor") && IsRelation(r.value, "doctor", catalog["staff_members"])
      && IsRequired(r.value, "clinic") && IsRelation(r.value, "clinic", catalog["clinics"])
      && IsRequired(r.value, "chart_type") && IsSelect(r.value, "chart_type", ["initial", "progress", "recall", "pre_op", "post_op"])
      && IsRequired(r.value, "notation_system") && IsSelect(r.value, "notation_system", ["universal", "fdi", "palmer"])
      && IsRequired(r.value, "dentition") && IsSelect(r.value, "dentition", ["permanent", "primary", "mixed"])
      && IsRequired(r.value, "chart_state") && IsText(r.value, "notes", 2000)
      && IsOptional(r.value, "images")
      && IsKind(r.value, "images", FileField(10, 10 * 1024 * 1024, ["image/png", "image/jpeg", "image/webp"], ["100x100", "800x800"])))
  {
    LookupAllError(catalog, ["patients", "staff_members", "clinics"]);
    match LookupAll(catalog, ["patients", "staff_members", "clinics"])
    case Failure(e) => Failure(e)
    case Success(ids) =>
      var appointments := if "appointments" in catalog then Some(catalog["appointments"]) else None;
      DentalChartsRelations(ids[0], ids[1], ids[2], appointments);
      DentalChartsContent(ids[0], ids[1], ids[2], appointments);
      Success(DentalChartsCollection(ids[0], ids[1], ids[2], appointments))
  }

  // ---------------------------------------------------------------------
  // The application the migrations run against.

  /** The collections known to the application (name to id) and those saved so far, in order. */
  class App {
    var catalog: Catalog
    var saved: seq<Collection>

    constructor (catalog: Catalog)
      ensures this.catalog == catalog && saved == []
    {
      this.catalog := catalog;
      saved := [];
    }

    /** `app.FindCollectionByNameOrId(name)`, by name only. */
    method FindCollectionByNameOrId(name: string) returns (r: Result<string, MigrationError>)
      ensures r == Lookup(catalog, name)
    {
      if name in catalog {
        r := Success(catalog[name]);
      } else {
        r := Failure(NotFound(name));
      }
    }

    /** `app.Save(collection)`: records the collection under the id the database gives it. */
    method Save(c: Collection, newId: string)
      modifies this
      ensures catalog == old(catalog)[c.name := newId]
      ensures saved == old(saved) + [c]
    {
      catalog := catalog[c.name := newId];
      saved := saved + [c];
    }
  }

  /** The application state after an `up` whose outcome is `plan`, with the error it returns. */
  twostate predicate Applied(app: App, plan: Result<Collection, MigrationError>, newId: string, new err: Option<MigrationError>)
    reads app
  {
    match plan
    case Failure(e) => err == Some(e) && app.catalog == old(app.catalog) && app.saved == old(app.saved)
    case Success(c) => err == None && app.catalog == old(app.catalog)[c.name := newId] && app.saved == old(app.saved) + [c]
  }

  function NewBaseCollection(name: string): (c: Collection)
    ensures c.name == name && c.fields == []
  {
    Collection(name, [])
  }

  /** `collection.Fields.Add(fields...)`. */
  function AddFields(c: Collection, fields: seq<Field>): (r: Collection)
    ensures r.name == c.name && r.fields == c.fields + fields
  {
    c.(fields := c.fields + fields)
  }

  method RunOrganizationsUp(app: App, newId: string) returns (err: Option<MigrationError>)
    modifies app
    ensures Applied(app, OrganizationsUp(old(app.catalog)), newId, err)
  {
    var collection := NewBaseCollection("organizations");
    var users := app.FindCollectionByNameOrId("users");
    if users.Failure? {
      return Some(users.error);
    }
    collection := AddFields(collection, OrganizationsCollection(users.value).fields);
    assert collection == OrganizationsCollection(users.value);
    app.Save(collection, newId);
    return None;
  }

  method RunClinicsUp(app: App, newId: string) returns (err: Option<MigrationError>)
    modifies app
    ensures Applied(app, ClinicsUp(old(app.catalog)), newId, err)
  {
    var collection := NewBaseCollection("clinics");
    var orgs := app.FindCollectionByNameOrId("organizations");
    if orgs.Failure? {
      return Some(orgs.error);
    }
    collection := AddFields(collection, ClinicsCollection(orgs.value).fields);
    assert collection == ClinicsCollection(orgs.value);
    app.Save(collection, newId);
    return None;
  }

  method RunStaffMembersUp(app: App, newId: string) returns (err: Option<MigrationError>)
    modifies app
    ensures Applied(app, StaffMembersUp(old(app.catalog)), newId, err)
  {
    LookupAllError(app.catalog, ["users", "organizations", "clinics"]);
    var collection := NewBaseCollection("staff_members");
    var users := app.FindCollectionByNameOrId("users");
    if users.Failure? {
      return Some(users.error);
    }
    var orgs := app.FindCollectionByNameOrId("organizations");
    if orgs.Failure? {
      return Some(orgs.error);
    }
    var clinics := app.FindCollectionByNameOrId("clinics");
    if clinics.Failure? {
      return Some(clinics.error);
    }
    collection := AddFields(collection, StaffMembersCollection(users.value, orgs.value, clinics.value).fields);
    assert collection == StaffMembersCollection(users.value, orgs.value, clinics.value);
    app.Save(collection, newId);
    return None;
  }

  method RunPatientsUp(app: App, newId: string) returns (err: Option<MigrationError>)
    modifies app
    ensures Applied(app, PatientsUp(old(app.catalog)), newId, err)
  {
    var collection := NewBaseCollection("patients");
    var clinics := app.FindCollectionByNameOrId("clinics");
    if clinics.Failure? {
      return Some(clinics.error);
    }
    collection := AddFields(collection, PatientsCollection(clinics.value).fields);
    assert collection == PatientsCollection(clinics.value);
    app.Save(collection, newId);
    return None;
  }

  method RunPatientTransfersUp(app: App, newId: string) returns (err: Option<MigrationError>)
    modifies app
    ensures Applied(app, PatientTransfersUp(old(app.catalog)), newId, err)
  {
    LookupAllError(app.catalog, ["patients", "clinics"]);
    var collection := NewBaseCollection("patient_transfers");
    var patients := app.FindCollectionByNameOrId("patients");
    if patients.Failure? {
      return Some(patients.error);
    }
    var clinics := app.FindCollectionByNameOrId("clinics");
    if clinics.Failure? {
      return Some(clinics.error);
    }
    collection := AddFields(collection, PatientTransfersCollection(patients.value, clinics.value).fields);
    assert collection == PatientTransfersCollection(patients.value, clinics.value);
    app.Save(collection, newId);
    return None;
  }

  method RunAppointmentsUp(app: App, newId: string) returns (err: Option<MigrationError>)
    modifies app
    ensures Applied(app, AppointmentsUp(old(app.catalog)), newId, err)
  {
    LookupAllError(app.catalog, ["patients", "staff_members", "clinics"]);
    var collection := NewBaseCollection("appointments");
    var patients := app.FindCollectionByNameOrId("patients");
    if patients.Failure? {
      return Some(patients.error);
    }
    var staff := app.FindCollectionByNameOrId("staff_members");
    if staff.Failure? {
      return Some(staff.error);
    }
    var clinics := app.FindCollectionByNameOrId("clinics");
    if clinics.Failure? {
      return Some(clinics.error);
    }
    collection := AddFields(collection, AppointmentsCollection(patients.value, staff.value, clinics.value).fields);
    assert collection == AppointmentsCollection(patients.value, staff.value, clinics.value);
    app.Save(collection, newId);
    return None;
  }

  method RunTreatmentsCatalogUp(app: App, newId: string) returns (err: Option<MigrationError>)
    modifies app
    ensures Applied(app, TreatmentsCatalogUp(old(app.catalog)), newId, err)
  {
    var collection := NewBaseCollection("treatments_catalog");
    collection := AddFields(collection, TreatmentsCatalogCollection().fields);
    assert collection == TreatmentsCatalogCollection();
    app.Save(collection, newId);
    return None;
  }

  /** treatment_records as written: the appointments lookup is not checked. */
  method RunTreatmentRecordsUp(app: App, newId: string) returns (err: Option<MigrationError>)
    modifies app
    ensures Applied(app, TreatmentRecordsUpAsWritten(old(app.catalog)), newId, err)
  {
    LookupAllError(app.catalog, ["patients", "staff_members", "clinics"]);
    var collection := NewBaseCollection("treatment_records");
    var patients := app.FindCollectionByNameOrId("patients");
    if patients.Failure? {
      return Some(patients.error);
    }
    var staff := app.FindCollectionByNameOrId("staff_members");
    if staff.Failure? {
      return Some(staff.error);
    }
    var clinics := app.FindCollectionByNameOrId("clinics");
    if clinics.Failure? {
      return Some(clinics.error);
    }
    assert LookupAll(app.catalog, ["patients", "staff_members", "clinics"]).Success?;
    var appointments := app.FindCollectionByNameOrId("appointments");
    if appointments.Failure? {
      // reading `.Id` of the nil collection
      return Some(NilDereference("appointments"));
    }
    collection := AddFields(collection,
      TreatmentRecordsCollection(patients.value, staff.value, clinics.value, appointments.value).fields);
    assert collection == TreatmentRecordsCollection(patients.value, staff.value, clinics.value, appointments.value);
    app.Save(collection, newId);
    return None;
  }

  method RunDentalChartsUp(app: App, newId: string) returns (err: Option<MigrationError>)
    modifies app
    ensures Applied(app, DentalChartsUp(old(app.catalog)), newId, err)
  {
    LookupAllError(app.catalog, ["patients", "staff_members", "clinics"]);
    var collection := NewBaseCollection("dental_charts");
    var patients := app.FindCollectionByNameOrId("patients");
    if patients.Failure? {
      return Some(patients.error);
    }
    var staff := app.FindCollectionByNameOrId("staff_members");
    if staff.Failure? {
      return Some(staff.error);
    }
    var clinics := app.FindCollectionByNameOrId("clinics");
    if clinics.Failure? {
      return Some(clinics.error);
    }
    var found := app.FindCollectionByNameOrId("appointments");
    var appointments: Option<string> := if found.Success? then Some(found.value) else None;
    collection := AddFields(collection, DentalChartsLead(patients.value, staff.value, clinics.value));
    if appointments.Some? {
      collection := AddFields(collection, [Field("appointment", false, RelationField(appointments.value, 0))]);
    }
    collection := AddFields(collection, DentalChartsTail());
    assert collection == DentalChartsCollection(patients.value, staff.value, clinics.value, appointments);
    app.Save(collection, newId);
    return None;
  }

  /** Every `down` of these migrations: returns nil and changes nothing. */
  method Down(app: App) returns (err: Option<MigrationError>)
    ensures err == None
  {
    return None;
  }

  // ---------------------------------------------------------------------
  // The migrations in timestamp order.

  /** The nine migrations, in timestamp order. */
  datatype Migration =
    | Organizations | Clinics | StaffMembers | Patients | PatientTransfers
    | Appointments | TreatmentsCatalog | TreatmentRecords | DentalCharts

  const Timeline: seq<Migration> := [Organizations, Clinics, StaffMembers, Patients, PatientTransfers,
                                     Appointments, TreatmentsCatalog, TreatmentRecords, DentalCharts]

  function Plan(m: Migration, catalog: Catalog): Result<Collection, MigrationError> {
    match m
    case Organizations => OrganizationsUp(catalog)
    case Clinics => ClinicsUp(catalog)
    case StaffMembers => StaffMembersUp(catalog)
    case Patients => PatientsUp(catalog)
    case PatientTransfers => PatientTransfersUp(catalog)
    case Appointments => AppointmentsUp(catalog)
    case TreatmentsCatalog => TreatmentsCatalogUp(catalog)
    case TreatmentRecords => TreatmentRecordsUp(catalog)
    case DentalCharts => DentalChartsUp(catalog)
  }

  /**
   * The migrations `ms` run one after another, stopping at the first error;
   * `ids` are the ids the database assigns to the saved collections.
   */
  function RunAll(catalog: Catalog, ms: seq<Migration>, ids: seq<string>): Result<Catalog, MigrationError>
    requires |ms| == |ids|
    decreases |ms|
  {
    if ms == [] then Success(catalog)
    else match Plan(ms[0], catalog)
      case Failure(e) => Failure(e)
      case Success(c) => RunAll(catalog[c.name := ids[0]], ms[1..], ids[1..])
  }

  const AllCreated: seq<string> := ["organizations", "clinics", "staff_members", "patients", "patient_transfers",
                                    "appointments", "treatments_catalog", "treatment_records", "dental_charts"]

  /** Migration `k` of the timeline succeeds once `users` and the collections of the earlier ones exist. */
  lemma PlanSucceeds(catalog: Catalog, k: int)
    requires 0 <= k < |Timeline|
    requires "users" in catalog && forall j :: 0 <= j < k ==> AllCreated[j] in catalog
    ensures Plan(Timeline[k], catalog).Success? && Plan(Timeline[k], catalog).value.name == AllCreated[k]
  {
    if k == 0 {
      assert Timeline[k] == Organizations;
    } else if k == 1 {
      assert Timeline[k] == Clinics;
      assert AllCreated[0] in catalog;
    } else if k == 2 {
      assert Timeline[k] == StaffMembers;
      assert AllCreated[0] in catalog && AllCreated[1] in catalog;
    } else if k == 3 {
      assert Timeline[k] == Patients;
      assert AllCreated[1] in catalog;
    } else if k == 4 {
      assert Timeline[k] == PatientTransfers;
      assert AllCreated[1] in catalog && AllCreated[3] in catalog;
    } else if k == 5 {
      assert Timeline[k] == Appointments;
      assert AllCreated[1] in catalog && AllCreated[2] in catalog && AllCreated[3] in catalog;
    } else if k == 6 {
      assert Timeline[k] == TreatmentsCatalog;
    } else if k == 7 {
      assert Timeline[k] == TreatmentRecords;
      assert AllCreated[1] in catalog && AllCreated[2] in catalog && AllCreated[3] in catalog && AllCreated[5] in catalog;
    } else {
      assert Timeline[k] == DentalCharts;
      assert AllCreated[1] in catalog && AllCreated[2] in catalog && AllCreated[3] in catalog;
    }
  }

  lemma {:induction false} RunFrom(catalog: Catalog, k: int, ids: seq<string>)
    requires 0 <= k <= |Timeline| && |ids| == |Timeline| - k
    requires "users" in catalog && forall j :: 0 <= j < k ==> AllCreated[j] in catalog
    ensures RunAll(catalog, Timeline[k..], ids).Success?
    ensures "users" in RunAll(catalog, Timeline[k..], ids).value
    ensures forall j :: 0 <= j < |AllCreated| ==> AllCreated[j] in RunAll(catalog, Timeline[k..], ids).value
    decreases |Timeline| - k
  {
    if k < |Timeline| {
      PlanSucceeds(catalog, k);
      assert Timeline[k..][0] == Timeline[k] && Timeline[k..][1..] == Timeline[k + 1..];
      var next := catalog[AllCreated[k] := ids[0]];
      assert RunAll(catalog, Timeline[k..], ids) == RunAll(next, Timeline[k + 1..], ids[1..]);
      assert forall j :: 0 <= j < k + 1 ==> AllCreated[j] in next;
      RunFrom(next, k + 1, ids[1..]);
    }
  }

  /**
   * Run in timestamp order on an application that has its `users`
   * collection, every migration finds the collections it needs, because
   * each was created by an earlier one; without `users` the first fails.
   */
  lemma TimelineSucceeds(catalog: Catalog, ids: seq<string>)
    requires |ids| == |Timeline|
    ensures RunAll(catalog, Timeline, ids).Success? <==> "users" in catalog
    ensures "users" !in catalog ==> RunAll(catalog, Timeline, ids) == Failure(NotFound("users"))
    ensures "users" in catalog ==> forall k :: 0 <= k < |AllCreated| ==> AllCreated[k] in RunAll(catalog, Timeline, ids).value
  {
    if "users" in catalog {
      RunFrom(catalog, 0, ids);
      assert Timeline[0..] == Timeline;
    }
  }

  /** In timestamp order the unchecked appointments lookup of treatment_records always succeeds. */
  lemma TreatmentRecordsSafeInOrder(catalog: Catalog, ids: seq<string>)
    requires |ids| == |Timeline| && "users" in catalog
    ensures var before := catalog["organizations" := ids[0]]["clinics" := ids[1]]["staff_members" := ids[2]]
              ["patients" := ids[3]]["patient_transfers" := ids[4]]["appointments" := ids[5]]["treatments_catalog" := ids[6]];
      TreatmentRecordsUpAsWritten(before).Success? && TreatmentRecordsUpAsWritten(before) == TreatmentRecordsUp(before)
  {
  }
}
