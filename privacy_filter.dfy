/**
 * The privacy filter: the only views of CARE records the bot ever sends. Each
 * view is a dictionary with a fixed allow-listed key set; clinical detail is
 * replaced by fixed placeholder text and the phone number is masked.
 */
module PrivacyFilter {
  import opened Wrappers
  import Text
  import opened PyJson
  import opened Records

  type View = map<string, Json>

  /** A model instance handed to a filter: its attributes read normally, or reading them raises. */
  datatype Fetched<T> = Fetched(row: T) | Raises

  const SENSITIVE_FIELDS: set<string> := {
    "social_security_number", "national_id", "passport_number", "insurance_id",
    "emergency_contact_details", "next_of_kin", "financial_information",
    "detailed_medical_history", "psychiatric_notes", "substance_abuse_history",
    "genetic_information", "hiv_status", "mental_health_details"
  }

  const MASKABLE_FIELDS: set<string> := {"phone_number", "address", "email", "detailed_diagnosis", "prescription_details"}

  // ---------------------------------------------------------------------------
  // Phone masking

  /** `_mask_phone_number` (None and "" are both falsy). */
  function MaskPhone(phone: Option<string>): (r: string)
    ensures phone.None? || phone.value == "" ==> r == "Unavailable"
    ensures phone.Some? && |phone.value| > 4 ==> r == "****" + phone.value[|phone.value| - 4..]
    ensures phone.Some? && 0 < |phone.value| <= 4 ==> r == "****"
  {
    if phone.None? || phone.value == "" then "Unavailable"
    else if |phone.value| > 4 then "****" + Text.TakeLast(phone.value, 4)
    else "****"
  }

  /** A masked phone shows at most its last four characters, behind four asterisks. */
  lemma MaskExposesAtMostFour(phone: Option<string>)
    ensures var r := MaskPhone(phone);
      r == "Unavailable" ||
      (phone.Some? && 4 <= |r| <= 8 && r[..4] == "****" &&
       r[4..] == phone.value[|phone.value| - (|r| - 4)..])
  {
  }

  // ---------------------------------------------------------------------------
  // Age

  predicate IsLeap(year: int) {
    year % 4 == 0 && (year % 100 != 0 || year % 400 == 0)
  }

  /** Lexicographic order of dates, as `datetime.date` compares them. */
  predicate Before(a: Date, b: Date) {
    a.year < b.year || (a.year == b.year && (a.month < b.month || (a.month == b.month && a.day < b.day)))
  }

  /** `date.replace(year=y)`: None where Python raises ValueError (29 February into a non-leap year). */
  function ReplaceYear(d: Date, y: int): (r: Option<Date>)
    ensures r.Some? <==> !(d.month == 2 && d.day == 29 && !IsLeap(y))
    ensures r.Some? ==> r.value == Date(y, d.month, d.day)
  {
    if d.month == 2 && d.day == 29 && !IsLeap(y) then None else Some(Date(y, d.month, d.day))
  }

  /** Whole years from `dob` to `today`, given this year's birthday exists. */
  function YearsSince(dob: Date, today: Date): int {
    today.year - dob.year - (if Before(today, Date(today.year, dob.month, dob.day)) then 1 else 0)
  }

  /** The age is the number of birthdays that have passed: dob + age years <= today < dob + age + 1 years. */
  lemma YearsSinceIsWholeYears(dob: Date, today: Date)
    ensures var n := YearsSince(dob, today);
      !Before(today, Date(dob.year + n, dob.month, dob.day)) &&
      Before(today, Date(dob.year + n + 1, dob.month, dob.day))
  {
  }

  /** `_calculate_age` with `today` the current date. */
  function CalculateAge(p: Patient, today: Date): (r: Option<string>)
    ensures p.dateOfBirth.Some? && ReplaceYear(p.dateOfBirth.value, today.year).Some? ==>
      r == Some(Text.IntToString(YearsSince(p.dateOfBirth.value, today)) + " years")
    ensures p.dateOfBirth.Some? && ReplaceYear(p.dateOfBirth.value, today.year).None? ==> r.None?
    ensures p.dateOfBirth.None? && p.yearOfBirth.Some? && p.yearOfBirth.value != 0 ==>
      r == Some("~" + Text.IntToString(today.year - p.yearOfBirth.value) + " years")
    ensures p.dateOfBirth.None? && (p.yearOfBirth.None? || p.yearOfBirth.value == 0) ==> r.None?
  {
    if p.dateOfBirth.Some? then
      var dob := p.dateOfBirth.value;
      match ReplaceYear(dob, today.year)
      case None => None
      case Some(birthday) =>
        var age := today.year - dob.year;
        var age' := if Before(today, birthday) then age - 1 else age;
        Some(Text.IntToString(age') + " years")
    else if p.yearOfBirth.Some? && p.yearOfBirth.value != 0 then
      Some("~" + Text.IntToString(today.year - p.yearOfBirth.value) + " years")
    else None
  }

  /** Someone born on 29 February has no age in a non-leap year: the ValueError becomes None. */
  lemma LeapDayBirthHasNoAgeInCommonYear(p: Patient, today: Date)
    requires p.dateOfBirth.Some? && p.dateOfBirth.value.month == 2 && p.dateOfBirth.value.day == 29
    requires !IsLeap(today.year)
    ensures CalculateAge(p, today).None?
  {
  }

  // ---------------------------------------------------------------------------
  // Encounter types and placeholders

  /** `_get_encounter_type_display`; an encounter without the attribute counts as 'outpatient'. */
  function EncounterTypeDisplay(e: Encounter): (r: string)
    ensures e.encounterClass.None? ==> r == "Clinic Visit"
    ensures e.encounterClass == Some("inpatient") ==> r == "Hospital Stay"
    ensures e.encounterClass == Some("outpatient") ==> r == "Clinic Visit"
    ensures e.encounterClass == Some("emergency") ==> r == "Emergency Visit"
    ensures e.encounterClass == Some("virtual") ==> r == "Telemedicine"
    ensures e.encounterClass == Some("home") ==> r == "Home Visit"
    ensures e.encounterClass.Some? && e.encounterClass.value !in {"inpatient", "outpatient", "emergency", "virtual", "home"} ==>
      r == "Medical Visit"
  {
    var cls := e.encounterClass.GetOr("outpatient");
    var mapping := map["inpatient" := "Hospital Stay", "outpatient" := "Clinic Visit",
                       "emergency" := "Emergency Visit", "virtual" := "Telemedicine", "home" := "Home Visit"];
    if cls in mapping then mapping[cls] else "Medical Visit"
  }

  const CHIEF_COMPLAINT_PLACEHOLDER: string := "Medical consultation"
  const DIAGNOSIS_PLACEHOLDER: string := "As per medical assessment"
  const DOSAGE_PLACEHOLDER: string := "As prescribed"
  const FREQUENCY_PLACEHOLDER: string := "As directed"
  const INSTRUCTIONS_PLACEHOLDER: string := "Follow doctor's instructions"
  const PROCEDURE_PLACEHOLDER: string := "Medical procedure"
  const FACILITY_PLACEHOLDER: string := "Healthcare facility"

  /** `_get_medication_name`: the attribute, or 'Prescribed medication' without it. */
  function MedicationName(m: Medication): (r: string)
    ensures m.medicationName.Some? ==> r == m.medicationName.value
    ensures m.medicationName.None? ==> r == "Prescribed medication"
  {
    m.medicationName.GetOr("Prescribed medication")
  }

  /** `_get_doctor_name` */
  function DoctorName(c: Consultation): (r: string)
    ensures c.assignedTo.Some? ==> Text.StartsWith(r, "Dr. ") && r[4..] == c.assignedTo.value
    ensures c.assignedTo.None? ==> r == "Healthcare Provider"
  {
    if c.assignedTo.Some? then "Dr. " + c.assignedTo.value else "Healthcare Provider"
  }

  /** `_get_consultation_type`: the attribute, or 'General Consultation' without it. */
  function ConsultationType(c: Consultation): (r: string)
    ensures c.consultationType.Some? ==> r == c.consultationType.value
    ensures c.consultationType.None? ==> r == "General Consultation"
  {
    c.consultationType.GetOr("General Consultation")
  }

  /** A stamp as `strftime('%Y-%m-%d')`, or `missing` when the column is NULL. */
  function DateText(s: Option<Stamp>, missing: Json): Json {
    if s.Some? then JStr(s.value.text) else missing
  }

  function OptText(s: Option<string>): Json {
    if s.Some? then JStr(s.value) else JNull
  }

  // ---------------------------------------------------------------------------
  // The views

  const PATIENT_VIEW_KEYS: set<string> := {"patient_id", "name", "age", "gender", "blood_group", "phone_number", "organization"}
  const STAFF_PATIENT_VIEW_KEYS: set<string> :=
    {"patient_id", "name", "age", "gender", "blood_group", "phone_masked", "organization", "created_date"}
  const ENCOUNTER_VIEW_KEYS: set<string> := {"encounter_id", "date", "encounter_type", "chief_complaint", "diagnosis", "status"}
  const MEDICATION_VIEW_KEYS: set<string> :=
    {"medication_id", "medication_name", "dosage", "frequency", "instructions", "status", "prescribed_date"}
  const APPOINTMENT_VIEW_KEYS: set<string> := {"consultation_id", "date", "facility_name", "doctor_name", "consultation_type", "status"}
  const PROCEDURE_VIEW_KEYS: set<string> := {"encounter_id", "date", "procedure_name", "facility_name", "status"}

  /** The fallback of every filter whose attribute reads raise. */
  function ErrorView(message: string): (v: View)
    ensures v.Keys == {"error"} && v["error"] == JStr(message)
  {
    map["error" := JStr(message)]
  }

  /** `filter_patient_data`: the patient's own view. */
  function PatientView(p: Fetched<Patient>, today: Date): (v: View)
    ensures p.Fetched? ==> v.Keys == PATIENT_VIEW_KEYS
    ensures p.Fetched? ==> v["phone_number"] == JStr(MaskPhone(p.row.phone))
    ensures p.Raises? ==> v == ErrorView("Data unavailable")
  {
    match p
    case Raises => ErrorView("Data unavailable")
    case Fetched(x) =>
      map["patient_id" := JStr(x.externalId), "name" := JStr(x.name), "age" := OptText(CalculateAge(x, today)),
          "gender" := JStr(x.gender), "blood_group" := JStr(x.bloodGroup),
          "phone_number" := JStr(MaskPhone(x.phone)), "organization" := OptText(x.organizationName)]
  }

  /** `filter_patient_data_for_staff`: the patient view plus the registration date, phone under `phone_masked`. */
  function StaffPatientView(p: Fetched<Patient>, today: Date): (v: View)
    ensures p.Fetched? ==> v.Keys == STAFF_PATIENT_VIEW_KEYS
    ensures p.Fetched? ==> v["phone_masked"] == JStr(MaskPhone(p.row.phone))
    ensures p.Fetched? ==> v["created_date"] == DateText(p.row.created, JNull)
    ensures p.Raises? ==> v == ErrorView("Data unavailable")
  {
    match p
    case Raises => ErrorView("Data unavailable")
    case Fetched(x) =>
      map["patient_id" := JStr(x.externalId), "name" := JStr(x.name), "age" := OptText(CalculateAge(x, today)),
          "gender" := JStr(x.gender), "blood_group" := JStr(x.bloodGroup),
          "phone_masked" := JStr(MaskPhone(x.phone)), "organization" := OptText(x.organizationName),
          "created_date" := DateText(x.created, JNull)]
  }

  /** Neither patient view carries a sensitive field, and the raw phone number is never one of its values. */
  lemma PatientViewsAllowListed(p: Patient, today: Date)
    ensures PatientView(Fetched(p), today).Keys !! SENSITIVE_FIELDS
    ensures StaffPatientView(Fetched(p), today).Keys !! SENSITIVE_FIELDS
    ensures |PatientView(Fetched(p), today).Keys| == 7 && |StaffPatientView(Fetched(p), today).Keys| == 8
    ensures "phone_number" !in StaffPatientView(Fetched(p), today)
  {
    PatientKeysAvoidSensitiveFields();
    StaffPatientKeysAvoidSensitiveFields();
    assert PatientView(Fetched(p), today).Keys == PATIENT_VIEW_KEYS;
    assert StaffPatientView(Fetched(p), today).Keys == STAFF_PATIENT_VIEW_KEYS;
  }

  /** The allow-lists themselves: none names a sensitive field. */
  lemma PatientKeysAvoidSensitiveFields()
    ensures PATIENT_VIEW_KEYS !! SENSITIVE_FIELDS && |PATIENT_VIEW_KEYS| == 7
  {
  }

  lemma StaffPatientKeysAvoidSensitiveFields()
    ensures STAFF_PATIENT_VIEW_KEYS !! SENSITIVE_FIELDS && |STAFF_PATIENT_VIEW_KEYS| == 8
  {
  }

  lemma EncounterKeysAvoidSensitiveFields()
    ensures ENCOUNTER_VIEW_KEYS !! SENSITIVE_FIELDS
  {
  }

  lemma MedicationKeysAvoidSensitiveFields()
    ensures MEDICATION_VIEW_KEYS !! SENSITIVE_FIELDS
  {
  }

  lemma AppointmentKeysAvoidSensitiveFields()
    ensures APPOINTMENT_VIEW_KEYS !! SENSITIVE_FIELDS
  {
  }

  lemma ProcedureKeysAvoidSensitiveFields()
    ensures PROCEDURE_VIEW_KEYS !! SENSITIVE_FIELDS
  {
  }

  /** The staff view agrees with the patient view on every key they share. */
  lemma StaffViewExtendsPatientView(p: Patient, today: Date)
    ensures var a := PatientView(Fetched(p), today);
      var b := StaffPatientView(Fetched(p), today);
      (forall k :: k in a && k != "phone_number" ==> k in b && b[k] == a[k]) &&
      b["phone_masked"] == a["phone_number"]
  {
  }

  /** `filter_encounter_data` */
  function EncounterView(e: Fetched<Encounter>): (v: View)
    ensures e.Fetched? ==> v.Keys == ENCOUNTER_VIEW_KEYS
    ensures e.Fetched? ==> v["chief_complaint"] == JStr(CHIEF_COMPLAINT_PLACEHOLDER)
    ensures e.Fetched? ==> v["diagnosis"] == JStr(DIAGNOSIS_PLACEHOLDER)
    ensures e.Fetched? ==> v["date"] == DateText(e.row.created, JStr("Unknown"))
    ensures e.Raises? ==> v == ErrorView("Encounter data unavailable")
  {
    match e
    case Raises => ErrorView("Encounter data unavailable")
    case Fetched(x) =>
      map["encounter_id" := JStr(x.externalId), "date" := DateText(x.created, JStr("Unknown")),
          "encounter_type" := JStr(EncounterTypeDisplay(x)),
          "chief_complaint" := JStr(CHIEF_COMPLAINT_PLACEHOLDER), "diagnosis" := JStr(DIAGNOSIS_PLACEHOLDER),
          "status" := JStr(x.status.GetOr("Unknown"))]
  }

  /** `filter_encounter_data_for_staff`: staff see exactly the patient's encounter view. */
  function StaffEncounterView(e: Fetched<Encounter>, staff: StaffUser): (v: View)
    ensures v == EncounterView(e)
  {
    EncounterView(e)
  }

  /** `filter_medication_data` */
  function MedicationView(m: Fetched<Medication>): (v: View)
    ensures m.Fetched? ==> v.Keys == MEDICATION_VIEW_KEYS
    ensures m.Fetched? ==> v["dosage"] == JStr(DOSAGE_PLACEHOLDER) && v["frequency"] == JStr(FREQUENCY_PLACEHOLDER) &&
                           v["instructions"] == JStr(INSTRUCTIONS_PLACEHOLDER)
    ensures m.Fetched? ==> v["status"] == JStr(m.row.status)
    ensures m.Raises? ==> v == ErrorView("Medication data unavailable")
  {
    match m
    case Raises => ErrorView("Medication data unavailable")
    case Fetched(x) =>
      map["medication_id" := JStr(x.externalId), "medication_name" := JStr(MedicationName(x)),
          "dosage" := JStr(DOSAGE_PLACEHOLDER), "frequency" := JStr(FREQUENCY_PLACEHOLDER),
          "instructions" := JStr(INSTRUCTIONS_PLACEHOLDER), "status" := JStr(x.status),
          "prescribed_date" := DateText(x.created, JNull)]
  }

  /** `filter_appointment_data`: the status is always 'Scheduled'. */
  function AppointmentView(c: Fetched<Consultation>): (v: View)
    ensures c.Fetched? ==> v.Keys == APPOINTMENT_VIEW_KEYS && v["status"] == JStr("Scheduled")
    ensures c.Fetched? ==> v["facility_name"] == JStr(c.row.facilityName.GetOr("Unknown"))
    ensures c.Raises? ==> v == ErrorView("Appointment data unavailable")
  {
    match c
    case Raises => ErrorView("Appointment data unavailable")
    case Fetched(x) =>
      map["consultation_id" := JStr(x.externalId), "date" := DateText(x.created, JStr("Unknown")),
          "facility_name" := JStr(x.facilityName.GetOr("Unknown")), "doctor_name" := JStr(DoctorName(x)),
          "consultation_type" := JStr(ConsultationType(x)), "status" := JStr("Scheduled")]
  }

  /** `filter_procedure_data`: fixed procedure and facility placeholders, status always 'Completed'. */
  function ProcedureView(e: Fetched<Encounter>): (v: View)
    ensures e.Fetched? ==> v.Keys == PROCEDURE_VIEW_KEYS && v["status"] == JStr("Completed")
    ensures e.Fetched? ==> v["procedure_name"] == JStr(PROCEDURE_PLACEHOLDER) && v["facility_name"] == JStr(FACILITY_PLACEHOLDER)
    ensures e.Raises? ==> v == ErrorView("Procedure data unavailable")
  {
    match e
    case Raises => ErrorView("Procedure data unavailable")
    case Fetched(x) =>
      map["encounter_id" := JStr(x.externalId), "date" := DateText(x.created, JStr("Unknown")),
          "procedure_name" := JStr(PROCEDURE_PLACEHOLDER), "facility_name" := JStr(FACILITY_PLACEHOLDER),
          "status" := JStr("Completed")]
  }

  /** No view of any record carries a sensitive field. */
  lemma ViewsAvoidSensitiveFields(e: Encounter, m: Medication, c: Consultation)
    ensures EncounterView(Fetched(e)).Keys !! SENSITIVE_FIELDS
    ensures MedicationView(Fetched(m)).Keys !! SENSITIVE_FIELDS
    ensures AppointmentView(Fetched(c)).Keys !! SENSITIVE_FIELDS
    ensures ProcedureView(Fetched(e)).Keys !! SENSITIVE_FIELDS
  {
    EncounterKeysAvoidSensitiveFields();
    MedicationKeysAvoidSensitiveFields();
    AppointmentKeysAvoidSensitiveFields();
    ProcedureKeysAvoidSensitiveFields();
    assert EncounterView(Fetched(e)).Keys == ENCOUNTER_VIEW_KEYS;
    assert MedicationView(Fetched(m)).Keys == MEDICATION_VIEW_KEYS;
    assert AppointmentView(Fetched(c)).Keys == APPOINTMENT_VIEW_KEYS;
    assert ProcedureView(Fetched(e)).Keys == PROCEDURE_VIEW_KEYS;
  }

  // ---------------------------------------------------------------------------
  // Showing a view in a message

  /** `v[key]` of a view that has the key, as an f-string shows it. */
  function Field(v: View, key: string): string {
    if key in v then Show(v[key]) else ""
  }

  /** `if v.get(key): text += f"{caption}{v[key]}\n"` */
  function OptionalLine(caption: string, v: View, key: string): string {
    if key in v && Truthy(v[key]) then caption + Show(v[key]) + "\n" else ""
  }

  /** `f"*{i}. {title}*\n"` */
  function EntryTitle(i: nat, title: string): string {
    "*" + Text.NatToString(i) + ". " + title + "*\n"
  }
}
