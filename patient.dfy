/**
 * The patient handler: six read-only commands over the patient's own CARE
 * records, each answered with exactly one TEXT message built entry by entry from
 * the privacy-filtered views. ORM queries read the `Db` tables; `now` is the
 * current time in seconds.
 */
module PatientHandler {
  import opened Wrappers
  import opened PyJson
  import opened IMBase
  import opened Commands
  import opened Records
  import Text
  import Ordering
  import PrivacyFilter

  const RECORDS_EMPTY: string := "\U{1F4CB} *Medical Records*\n\nNo recent medical records found."
  const RECORDS_HEADER: string := "\U{1F4CB} *Recent Medical Records*\n\n"
  const RECORDS_FOOTER: string := "\n\U{26A0}\U{FE0F} Summary only. Visit provider for complete records."
  const MEDICATIONS_EMPTY: string := "\U{1F48A} *Current Medications*\n\nNo active medications found."
  const MEDICATIONS_HEADER: string := "\U{1F48A} *Current Medications*\n\n"
  const MEDICATIONS_FOOTER: string := "\n\U{26A0}\U{FE0F} Follow doctor's instructions. Don't change meds without consulting."
  const APPOINTMENTS_EMPTY: string := "\U{1F4C5} *Upcoming Appointments*\n\nNo upcoming appointments found."
  const APPOINTMENTS_HEADER: string := "\U{1F4C5} *Upcoming Appointments*\n\n"
  const APPOINTMENTS_FOOTER: string := "\n\U{1F4DE} *Reminder:* Please arrive 15 minutes early for your appointment."
  const PROCEDURES_EMPTY: string := "\U{1F3E5} *Recent Procedures*\n\nNo recent procedures found."
  const PROCEDURES_HEADER: string := "\U{1F3E5} *Recent Procedures*\n\n"
  const PROCEDURES_FOOTER: string := "\n\U{1F4CB} Contact provider for detailed reports."
  const SLOTS_EMPTY: string := "\U{1F3E5} *Available Appointment Slots*\n\nNo facilities found with available slots."
  const SLOTS_HEADER: string := "\U{1F3E5} *Available Appointment Slots*\n\n"
  const SLOTS_FOOTER: string := "\U{1F4DE} *To book an appointment:*\nType 'book appointment' and follow the instructions.\n\n\U{26A0}\U{FE0F} Availability may vary. Confirm with facility."
  const BOOKING_TEXT: string := "\U{1F4C5} *Book Appointment*\n\nTo book an appointment, please provide:\n\n1\U{FE0F}\U{20E3} Preferred facility\n2\U{FE0F}\U{20E3} Preferred doctor (optional)\n3\U{FE0F}\U{20E3} Preferred date and time\n4\U{FE0F}\U{20E3} Reason for visit\n\n*Example:*\nFacility: City Hospital\nDoctor: Dr. Smith\nDate: 2024-01-15\nTime: 10:00 AM\nReason: Regular checkup\n\n\U{1F4DE} *Alternative booking methods:*\n\U{2022} Call the facility directly\n\U{2022} Visit the facility in person\n\U{2022} Use the CARE web portal\n\n\U{26A0}\U{FE0F} Feature being enhanced. Contact facility for immediate booking."
  const UNKNOWN_COMMAND_TEXT: string := "\U{2753} I didn't understand that command. Commands: `records`, `medications`, `appointments`, `procedures`, `available slots`, `book appointment`, `menu`, `help`"
  const GENERIC_ERROR_TEXT: string := "Sorry, something went wrong while retrieving your information. Try again or contact your provider."

  const PATIENT_NOT_FOUND: string := "Patient not found."
  const PATIENT_INFO_MISSING: string := "Patient information not found."

  const RECORDS_DAYS: int := 180
  const PROCEDURES_DAYS: int := 90
  const APPOINTMENTS_DAYS: int := 30
  const RECORDS_LIMIT: nat := 5
  const PROCEDURES_LIMIT: nat := 5
  const FACILITIES_LIMIT: nat := 5
  const DOCTORS_LIMIT: nat := 3
  const SLOT_FACILITY_TYPES: set<string> := {"HOSPITAL", "PRIMARY_HEALTH_CENTRE", "COMMUNITY_HEALTH_CENTRE"}

  // ---------------------------------------------------------------------------
  // Responses shared by every command

  /** `_create_error_response(phone, custom_message)`: "❌ " and the message, or the generic text. */
  function ErrorText(custom: Option<string>): (r: string)
    ensures custom.Some? && custom.value != "" ==> r == "\U{274C} " + custom.value
    ensures custom.None? || custom.value == "" ==> r == GENERIC_ERROR_TEXT
  {
    if custom.Some? && custom.value != "" then "\U{274C} " + custom.value else GENERIC_ERROR_TEXT
  }

  /** `_create_unknown_command_response` */
  function UnknownCommandResponse(phone: string): (r: IMResponse)
    ensures r == TextTo(phone, UNKNOWN_COMMAND_TEXT)
  {
    NewIMResponse(phone, TEXT, UNKNOWN_COMMAND_TEXT, None)
  }

  /**
   * The `try` around every `_handle_*`: the patient by external id, then the
   * command's own reply, where None stands for a later query that raised.
   */
  function ForPatient(db: Db, patientId: string, reply: Patient -> Option<string>): (r: string)
    ensures GetWhere(db.patients, (p: Patient) => p.externalId == patientId) == DoesNotExist ==>
            r == ErrorText(Some(PATIENT_NOT_FOUND))
    ensures GetWhere(db.patients, (p: Patient) => p.externalId == patientId) == QueryFailed ==>
            r == GENERIC_ERROR_TEXT
    ensures GetWhere(db.patients, (p: Patient) => p.externalId == patientId).Found? ==>
            var p := GetWhere(db.patients, (p: Patient) => p.externalId == patientId).row;
            p.externalId == patientId && r == reply(p).GetOr(GENERIC_ERROR_TEXT)
  {
    match GetWhere(db.patients, (p: Patient) => p.externalId == patientId)
    case DoesNotExist => ErrorText(Some(PATIENT_NOT_FOUND))
    case QueryFailed => ErrorText(None)
    case Found(p) => if reply(p).Some? then reply(p).value else ErrorText(None)
  }

  /** `Patient.objects.get(external_id=patient_id)` */
  function Lookup(db: Db, patientId: string): Got<Patient> {
    GetWhere(db.patients, (p: Patient) => p.externalId == patientId)
  }

  /** How a non-empty result is shown: header, numbered entries, footer; an empty one gets its fixed text. */
  function ListReply<T>(empty: string, header: string, items: seq<T>, render: (nat, T) -> string, footer: string): (r: string)
    ensures items == [] ==> r == empty
    ensures items != [] ==> Text.StartsWith(r, header) && Text.EndsWith(r, footer)
  {
    if items == [] then empty else Text.Listing(header, items, render, footer)
  }

  // ---------------------------------------------------------------------------
  // Medical records

  /** The encounters `_handle_get_records` lists: the 5 newest of the last 180 days. */
  function RecentEncounters(rows: seq<Encounter>, p: Patient, now: int): (r: seq<Encounter>)
    ensures |r| <= RECORDS_LIMIT
    ensures forall i :: 0 <= i < |r| ==>
              r[i] in rows && r[i].patientId == p.externalId && CreatedSince(r[i].created, now - RECORDS_DAYS * DAY)
    ensures forall i, j :: 0 <= i < j < |r| ==> StampAt(r[i].created) >= StampAt(r[j].created)
    ensures |r| < RECORDS_LIMIT ==>
              forall e :: e in rows && e.patientId == p.externalId && CreatedSince(e.created, now - RECORDS_DAYS * DAY) ==> e in r
    ensures |r| == RECORDS_LIMIT ==>
              forall e :: (e in rows && e.patientId == p.externalId && CreatedSince(e.created, now - RECORDS_DAYS * DAY) &&
                          e !in r) ==> StampAt(e.created) <= StampAt(r[RECORDS_LIMIT - 1].created)
  {
    NewestMatching(rows, (e: Encounter) => e.patientId == p.externalId && CreatedSince(e.created, now - RECORDS_DAYS * DAY),
                   (e: Encounter) => StampAt(e.created), RECORDS_LIMIT)
  }

  function RecordEntry(i: nat, e: Encounter): string {
    var v := PrivacyFilter.EncounterView(PrivacyFilter.Fetched(e));
    PrivacyFilter.EntryTitle(i, PrivacyFilter.Field(v, "date")) + "Type: " + PrivacyFilter.Field(v, "encounter_type") + "\n" +
    PrivacyFilter.OptionalLine("Chief Complaint: ", v, "chief_complaint") + PrivacyFilter.OptionalLine("Diagnosis: ", v, "diagnosis") + "\n"
  }

  /** An entry shows the date, the visit type and the two placeholders, never the encounter's clinical text. */
  lemma RecordEntryShowsPlaceholders(i: nat, e: Encounter)
    requires e.created.Some?
    ensures RecordEntry(i, e) ==
            PrivacyFilter.EntryTitle(i, e.created.value.text) + "Type: " + PrivacyFilter.EncounterTypeDisplay(e) + "\n" +
            ("Chief Complaint: " + PrivacyFilter.CHIEF_COMPLAINT_PLACEHOLDER + "\n") +
            ("Diagnosis: " + PrivacyFilter.DIAGNOSIS_PLACEHOLDER + "\n") + "\n"
  {
  }

  /**
   * The reply of `_handle_get_records`: the not-found text, the generic error
   * when a query fails, or the records list of the patient's recent encounters.
   */
  function RecordsReply(db: Db, patientId: string, now: int): (r: string)
    ensures Lookup(db, patientId) == DoesNotExist ==> r == ErrorText(Some(PATIENT_NOT_FOUND))
    ensures Lookup(db, patientId) == QueryFailed || (Lookup(db, patientId).Found? && db.encounters.Down?) ==>
            r == GENERIC_ERROR_TEXT
    ensures Lookup(db, patientId).Found? && db.encounters.Rows? ==>
            var shown := RecentEncounters(db.encounters.rows, Lookup(db, patientId).row, now);
            (shown == [] ==> r == RECORDS_EMPTY) &&
            (shown != [] ==> Text.StartsWith(r, RECORDS_HEADER) && Text.EndsWith(r, RECORDS_FOOTER))
  {
    ForPatient(db, patientId, (p: Patient) =>
      match db.encounters
      case Down => None
      case Rows(rows) =>
        Some(ListReply(RECORDS_EMPTY, RECORDS_HEADER, RecentEncounters(rows, p, now), RecordEntry, RECORDS_FOOTER)))
  }

  /** `_handle_get_records` */
  method HandleGetRecords(phone: string, patientId: string, db: Db, now: int) returns (r: seq<IMResponse>)
    ensures r == [TextTo(phone, RecordsReply(db, patientId, now))]
  {
    var got := GetWhere(db.patients, (p: Patient) => p.externalId == patientId);
    if got == DoesNotExist {
      return [TextTo(phone, ErrorText(Some(PATIENT_NOT_FOUND)))];
    }
    if got.QueryFailed? || db.encounters.Down? {
      return [TextTo(phone, ErrorText(None))];
    }
    var encounters := RecentEncounters(db.encounters.rows, got.row, now);
    if encounters == [] {
      return [TextTo(phone, RECORDS_EMPTY)];
    }
    var text := RECORDS_HEADER;
    var entries := Text.Enumerate(encounters, RecordEntry);
    text := text + entries;
    text := text + RECORDS_FOOTER;
    r := [TextTo(phone, text)];
  }

  /** The j-th newest recent encounter is entry j + 1 of the records message. */
  lemma RecordsListEncounter(db: Db, patientId: string, now: int, p: Patient, j: nat)
    requires GetWhere(db.patients, (q: Patient) => q.externalId == patientId) == Found(p)
    requires db.encounters.Rows? && j < |RecentEncounters(db.encounters.rows, p, now)|
    ensures var es := RecentEncounters(db.encounters.rows, p, now);
            RecordsReply(db, patientId, now) ==
            RECORDS_HEADER + (Text.Joined(es[..j], 1, RecordEntry) + RecordEntry(j + 1, es[j]) +
                              Text.Joined(es[j + 1..], j + 2, RecordEntry)) + RECORDS_FOOTER
  {
    var es := RecentEncounters(db.encounters.rows, p, now);
    Text.ListingShowsItem(RECORDS_HEADER, es, RecordEntry, RECORDS_FOOTER, j);
  }

  // ---------------------------------------------------------------------------
  // Medications

  /** The prescriptions `_handle_get_medications` lists: every active or on-hold one, newest first. */
  function ActiveMedications(rows: seq<Medication>, p: Patient): (r: seq<Medication>)
    ensures forall m :: m in r <==> m in rows && m.patientId == p.externalId && m.status in {"active", "on-hold"}
    ensures forall i, j :: 0 <= i < j < |r| ==> StampAt(r[i].created) >= StampAt(r[j].created)
  {
    Newest(rows, (m: Medication) => m.patientId == p.externalId && m.status in {"active", "on-hold"},
           (m: Medication) => StampAt(m.created))
  }

  function MedicationEntry(i: nat, m: Medication): string {
    var v := PrivacyFilter.MedicationView(PrivacyFilter.Fetched(m));
    PrivacyFilter.EntryTitle(i, PrivacyFilter.Field(v, "medication_name")) +
    PrivacyFilter.OptionalLine("Dosage: ", v, "dosage") + PrivacyFilter.OptionalLine("Frequency: ", v, "frequency") +
    PrivacyFilter.OptionalLine("Instructions: ", v, "instructions") + "Status: " + PrivacyFilter.Field(v, "status") + "\n\n"
  }

  /** An entry shows the name and status; dosage, frequency and instructions are the placeholders. */
  lemma MedicationEntryShowsPlaceholders(i: nat, m: Medication)
    ensures MedicationEntry(i, m) ==
            PrivacyFilter.EntryTitle(i, PrivacyFilter.MedicationName(m)) +
            ("Dosage: " + PrivacyFilter.DOSAGE_PLACEHOLDER + "\n") +
            ("Frequency: " + PrivacyFilter.FREQUENCY_PLACEHOLDER + "\n") +
            ("Instructions: " + PrivacyFilter.INSTRUCTIONS_PLACEHOLDER + "\n") + "Status: " + m.status + "\n\n"
  {
    var v := PrivacyFilter.MedicationView(PrivacyFilter.Fetched(m));
    assert PrivacyFilter.Field(v, "medication_name") == PrivacyFilter.MedicationName(m);
    assert PrivacyFilter.OptionalLine("Dosage: ", v, "dosage") == "Dosage: " + PrivacyFilter.DOSAGE_PLACEHOLDER + "\n";
    assert PrivacyFilter.OptionalLine("Frequency: ", v, "frequency") ==
           "Frequency: " + PrivacyFilter.FREQUENCY_PLACEHOLDER + "\n";
    assert PrivacyFilter.OptionalLine("Instructions: ", v, "instructions") ==
           "Instructions: " + PrivacyFilter.INSTRUCTIONS_PLACEHOLDER + "\n";
    assert PrivacyFilter.Field(v, "status") == m.status;
  }

  /**
   * The reply of `_handle_get_medications`: the not-found text, the generic error
   * when a query fails, or the list of the patient's active prescriptions.
   */
  function MedicationsReply(db: Db, patientId: string): (r: string)
    ensures Lookup(db, patientId) == DoesNotExist ==> r == ErrorText(Some(PATIENT_NOT_FOUND))
    ensures Lookup(db, patientId) == QueryFailed || (Lookup(db, patientId).Found? && db.medications.Down?) ==>
            r == GENERIC_ERROR_TEXT
    ensures Lookup(db, patientId).Found? && db.medications.Rows? ==>
            var shown := ActiveMedications(db.medications.rows, Lookup(db, patientId).row);
            (shown == [] ==> r == MEDICATIONS_EMPTY) &&
            (shown != [] ==> Text.StartsWith(r, MEDICATIONS_HEADER) && Text.EndsWith(r, MEDICATIONS_FOOTER))
  {
    ForPatient(db, patientId, (p: Patient) =>
      match db.medications
      case Down => None
      case Rows(rows) =>
        Some(ListReply(MEDICATIONS_EMPTY, MEDICATIONS_HEADER, ActiveMedications(rows, p), MedicationEntry, MEDICATIONS_FOOTER)))
  }

  /** `_handle_get_medications` */
  method HandleGetMedications(phone: string, patientId: string, db: Db) returns (r: seq<IMResponse>)
    ensures r == [TextTo(phone, MedicationsReply(db, patientId))]
  {
    var got := GetWhere(db.patients, (p: Patient) => p.externalId == patientId);
    if got == DoesNotExist {
      return [TextTo(phone, ErrorText(Some(PATIENT_NOT_FOUND)))];
    }
    if got.QueryFailed? || db.medications.Down? {
      return [TextTo(phone, ErrorText(None))];
    }
    var meds := ActiveMedications(db.medications.rows, got.row);
    if meds == [] {
      return [TextTo(phone, MEDICATIONS_EMPTY)];
    }
    var text := MEDICATIONS_HEADER;
    var entries := Text.Enumerate(meds, MedicationEntry);
    text := text + entries;
    text := text + MEDICATIONS_FOOTER;
    r := [TextTo(phone, text)];
  }

  // ---------------------------------------------------------------------------
  // Appointments

  /** The consultations `_handle_get_appointments` lists: not discharged, of the last 30 days, oldest first. */
  function UpcomingConsultations(rows: seq<Consultation>, p: Patient, now: int): (r: seq<Consultation>)
    ensures forall c :: c in r <==>
              c in rows && c.patientId == p.externalId && c.dischargeDate.None? &&
              CreatedSince(c.created, now - APPOINTMENTS_DAYS * DAY)
    ensures forall i, j :: 0 <= i < j < |r| ==> StampAt(r[i].created) <= StampAt(r[j].created)
  {
    OldestMatching(rows, (c: Consultation) => c.patientId == p.externalId && c.dischargeDate.None? &&
                                              CreatedSince(c.created, now - APPOINTMENTS_DAYS * DAY),
                   (c: Consultation) => StampAt(c.created))
  }

  function AppointmentEntry(i: nat, c: Consultation): string {
    var v := PrivacyFilter.AppointmentView(PrivacyFilter.Fetched(c));
    PrivacyFilter.EntryTitle(i, PrivacyFilter.Field(v, "date")) + "Facility: " + PrivacyFilter.Field(v, "facility_name") + "\n" +
    PrivacyFilter.OptionalLine("Doctor: ", v, "doctor_name") + PrivacyFilter.OptionalLine("Type: ", v, "consultation_type") + "\n"
  }

  /** The doctor line is always there (the view never leaves it empty); the type line only for a non-empty type. */
  lemma AppointmentEntryLines(i: nat, c: Consultation)
    requires c.created.Some?
    ensures AppointmentEntry(i, c) ==
            PrivacyFilter.EntryTitle(i, c.created.value.text) + "Facility: " + c.facilityName.GetOr("Unknown") + "\n" +
            ("Doctor: " + PrivacyFilter.DoctorName(c) + "\n") +
            (if PrivacyFilter.ConsultationType(c) != "" then "Type: " + PrivacyFilter.ConsultationType(c) + "\n" else "") +
            "\n"
  {
    var d := PrivacyFilter.DoctorName(c);
    assert d != "" by {
      if c.assignedTo.Some? { assert d[..4] == "Dr. "; }
    }
  }

  /**
   * The reply of `_handle_get_appointments`: the not-found text, the generic error
   * when a query fails, or the list of the patient's open consultations.
   */
  function AppointmentsReply(db: Db, patientId: string, now: int): (r: string)
    ensures Lookup(db, patientId) == DoesNotExist ==> r == ErrorText(Some(PATIENT_NOT_FOUND))
    ensures Lookup(db, patientId) == QueryFailed || (Lookup(db, patientId).Found? && db.consultations.Down?) ==>
            r == GENERIC_ERROR_TEXT
    ensures Lookup(db, patientId).Found? && db.consultations.Rows? ==>
            var shown := UpcomingConsultations(db.consultations.rows, Lookup(db, patientId).row, now);
            (shown == [] ==> r == APPOINTMENTS_EMPTY) &&
            (shown != [] ==> Text.StartsWith(r, APPOINTMENTS_HEADER) && Text.EndsWith(r, APPOINTMENTS_FOOTER))
  {
    ForPatient(db, patientId, (p: Patient) =>
      match db.consultations
      case Down => None
      case Rows(rows) =>
        Some(ListReply(APPOINTMENTS_EMPTY, APPOINTMENTS_HEADER, UpcomingConsultations(rows, p, now),
                       AppointmentEntry, APPOINTMENTS_FOOTER)))
  }

  /** `_handle_get_appointments` */
  method HandleGetAppointments(phone: string, patientId: string, db: Db, now: int) returns (r: seq<IMResponse>)
    ensures r == [TextTo(phone, AppointmentsReply(db, patientId, now))]
  {
    var got := GetWhere(db.patients, (p: Patient) => p.externalId == patientId);
    if got == DoesNotExist {
      return [TextTo(phone, ErrorText(Some(PATIENT_NOT_FOUND)))];
    }
    if got.QueryFailed? || db.consultations.Down? {
      return [TextTo(phone, ErrorText(None))];
    }
    var upcoming := UpcomingConsultations(db.consultations.rows, got.row, now);
    if upcoming == [] {
      return [TextTo(phone, APPOINTMENTS_EMPTY)];
    }
    var text := APPOINTMENTS_HEADER;
    var entries := Text.Enumerate(upcoming, AppointmentEntry);
    text := text + entries;
    text := text + APPOINTMENTS_FOOTER;
    r := [TextTo(phone, text)];
  }

  // ---------------------------------------------------------------------------
  // Procedures

  /** The encounters `_handle_get_procedures` lists: the 5 newest of the last 90 days with a procedure or an observation. */
  function RecentProcedures(rows: seq<Encounter>, p: Patient, now: int): (r: seq<Encounter>)
    ensures |r| <= PROCEDURES_LIMIT
    ensures forall i :: 0 <= i < |r| ==>
              r[i] in rows && r[i].patientId == p.externalId && CreatedSince(r[i].created, now - PROCEDURES_DAYS * DAY) &&
              (r[i].hasProcedureRequest || r[i].hasObservation)
    ensures forall i, j :: 0 <= i < j < |r| ==> StampAt(r[i].created) >= StampAt(r[j].created)
    ensures |r| < PROCEDURES_LIMIT ==>
              forall e :: (e in rows && e.patientId == p.externalId && CreatedSince(e.created, now - PROCEDURES_DAYS * DAY) &&
                          (e.hasProcedureRequest || e.hasObservation)) ==> e in r
    ensures |r| == PROCEDURES_LIMIT ==>
              forall e :: (e in rows && e.patientId == p.externalId && CreatedSince(e.created, now - PROCEDURES_DAYS * DAY) &&
                          (e.hasProcedureRequest || e.hasObservation) && e !in r) ==>
                StampAt(e.created) <= StampAt(r[PROCEDURES_LIMIT - 1].created)
  {
    NewestMatching(rows, (e: Encounter) => e.patientId == p.externalId && CreatedSince(e.created, now - PROCEDURES_DAYS * DAY) &&
                                           !(!e.hasProcedureRequest && !e.hasObservation),
                   (e: Encounter) => StampAt(e.created), PROCEDURES_LIMIT)
  }

  function ProcedureEntry(i: nat, e: Encounter): string {
    var v := PrivacyFilter.ProcedureView(PrivacyFilter.Fetched(e));
    PrivacyFilter.EntryTitle(i, PrivacyFilter.Field(v, "date")) + PrivacyFilter.OptionalLine("Procedure: ", v, "procedure_name") +
    PrivacyFilter.OptionalLine("Facility: ", v, "facility_name") + PrivacyFilter.OptionalLine("Status: ", v, "status") + "\n"
  }

  /** Every procedure entry carries the two placeholders and the status 'Completed'. */
  lemma ProcedureEntryShowsPlaceholders(i: nat, e: Encounter)
    requires e.created.Some?
    ensures ProcedureEntry(i, e) ==
            PrivacyFilter.EntryTitle(i, e.created.value.text) + ("Procedure: " + PrivacyFilter.PROCEDURE_PLACEHOLDER + "\n") +
            ("Facility: " + PrivacyFilter.FACILITY_PLACEHOLDER + "\n") + ("Status: " + "Completed" + "\n") + "\n"
  {
  }

  /**
   * The reply of `_handle_get_procedures`: the not-found text, the generic error
   * when a query fails, or the list of the patient's recent procedures.
   */
  function ProceduresReply(db: Db, patientId: string, now: int): (r: string)
    ensures Lookup(db, patientId) == DoesNotExist ==> r == ErrorText(Some(PATIENT_NOT_FOUND))
    ensures Lookup(db, patientId) == QueryFailed || (Lookup(db, patientId).Found? && db.encounters.Down?) ==>
            r == GENERIC_ERROR_TEXT
    ensures Lookup(db, patientId).Found? && db.encounters.Rows? ==>
            var shown := RecentProcedures(db.encounters.rows, Lookup(db, patientId).row, now);
            (shown == [] ==> r == PROCEDURES_EMPTY) &&
            (shown != [] ==> Text.StartsWith(r, PROCEDURES_HEADER) && Text.EndsWith(r, PROCEDURES_FOOTER))
  {
    ForPatient(db, patientId, (p: Patient) =>
      match db.encounters
      case Down => None
      case Rows(rows) =>
        Some(ListReply(PROCEDURES_EMPTY, PROCEDURES_HEADER, RecentProcedures(rows, p, now), ProcedureEntry, PROCEDURES_FOOTER)))
  }

  /** `_handle_get_procedures` */
  method HandleGetProcedures(phone: string, patientId: string, db: Db, now: int) returns (r: seq<IMResponse>)
    ensures r == [TextTo(phone, ProceduresReply(db, patientId, now))]
  {
    var got := GetWhere(db.patients, (p: Patient) => p.externalId == patientId);
    if got == DoesNotExist {
      return [TextTo(phone, ErrorText(Some(PATIENT_NOT_FOUND)))];
    }
    if got.QueryFailed? || db.encounters.Down? {
      return [TextTo(phone, ErrorText(None))];
    }
    var procedures := RecentProcedures(db.encounters.rows, got.row, now);
    if procedures == [] {
      return [TextTo(phone, PROCEDURES_EMPTY)];
    }
    var text := PROCEDURES_HEADER;
    var entries := Text.Enumerate(procedures, ProcedureEntry);
    text := text + entries;
    text := text + PROCEDURES_FOOTER;
    r := [TextTo(phone, text)];
  }

  // ---------------------------------------------------------------------------
  // Available slots

  /** `is_active=True, facility_type__in=[...]` */
  predicate OffersSlots(f: Facility) {
    f.isActive && f.facilityType in SLOT_FACILITY_TYPES
  }

  /** `Facility.objects.filter(is_active=True, facility_type__in=[...])[:5]`, in table order. */
  function OpenFacilities(rows: seq<Facility>): (r: seq<Facility>)
    ensures |r| <= FACILITIES_LIMIT
    ensures forall i :: 0 <= i < |r| ==> r[i] in rows && r[i].isActive && r[i].facilityType in SLOT_FACILITY_TYPES
    ensures |r| < FACILITIES_LIMIT ==>
              forall f :: f in rows && f.isActive && f.facilityType in SLOT_FACILITY_TYPES ==> f in r
    ensures |r| <= |Ordering.Filter(rows, OffersSlots)| && r == Ordering.Filter(rows, OffersSlots)[..|r|]
  {
    FirstMatching(rows, OffersSlots, FACILITIES_LIMIT)
  }

  /** `facility=f, created_date__lte=now + 7 days` */
  function OnRoster(f: Facility, now: int): FacilityUser -> bool {
    (u: FacilityUser) => u.facilityId == f.id && u.createdAt <= now + 7 * DAY
  }

  /** `FacilityUser.objects.filter(facility=f, created_date__lte=now + 7 days)[:3]`, in table order. */
  function AvailableStaff(rows: seq<FacilityUser>, f: Facility, now: int): (r: seq<FacilityUser>)
    ensures |r| <= DOCTORS_LIMIT
    ensures forall i :: 0 <= i < |r| ==> r[i] in rows && r[i].facilityId == f.id && r[i].createdAt <= now + 7 * DAY
    ensures |r| < DOCTORS_LIMIT ==> forall u :: u in rows && u.facilityId == f.id && u.createdAt <= now + 7 * DAY ==> u in r
    ensures |r| <= |Ordering.Filter(rows, OnRoster(f, now))| && r == Ordering.Filter(rows, OnRoster(f, now))[..|r|]
  {
    FirstMatching(rows, OnRoster(f, now), DOCTORS_LIMIT)
  }

  /** `f"  • Dr. {staff.user.get_full_name() or staff.user.username}\n"` */
  function DoctorLine(i: nat, u: FacilityUser): string {
    "  \U{2022} Dr. " + (if u.userFullName != "" then u.userFullName else u.username) + "\n"
  }

  /**
   * One facility: name, address, its doctors if it has any, and the next two days
   * (`tomorrow` and `dayAfter` are their `strftime('%Y-%m-%d')` texts).
   */
  function FacilityEntry(i: nat, f: Facility, staff: seq<FacilityUser>, tomorrow: string, dayAfter: string): string {
    PrivacyFilter.EntryTitle(i, f.name) + "Location: " + f.address + "\n" +
    (if staff != [] then "Available Doctors:\n" + Text.Joined(staff, 1, DoctorLine) else "") +
    "Next Available: " + tomorrow + " or " + dayAfter + "\n\n"
  }

  function SlotEntries(staffRows: seq<FacilityUser>, now: int, tomorrow: string, dayAfter: string): (nat, Facility) -> string {
    (i: nat, f: Facility) => FacilityEntry(i, f, AvailableStaff(staffRows, f, now), tomorrow, dayAfter)
  }

  /**
   * The reply of `_handle_check_available_slots`: the not-found text, the
   * generic error when a query fails, the no-facilities text, or the listing
   * of the open facilities.
   */
  function SlotsReply(db: Db, patientId: string, now: int, tomorrow: string, dayAfter: string): (r: string)
    ensures Lookup(db, patientId) == DoesNotExist ==> r == ErrorText(Some(PATIENT_NOT_FOUND))
    ensures Lookup(db, patientId) == QueryFailed || (Lookup(db, patientId).Found? && db.facilities.Down?) ==>
            r == GENERIC_ERROR_TEXT
    ensures Lookup(db, patientId).Found? && db.facilities.Rows? ==>
            var open := OpenFacilities(db.facilities.rows);
            (open == [] ==> r == SLOTS_EMPTY) &&
            (open != [] && db.facilityUsers.Down? ==> r == GENERIC_ERROR_TEXT) &&
            (open != [] && db.facilityUsers.Rows? ==> Text.StartsWith(r, SLOTS_HEADER) && Text.EndsWith(r, SLOTS_FOOTER))
  {
    ForPatient(db, patientId, (p: Patient) =>
      match db.facilities
      case Down => None
      case Rows(rows) =>
        var open := OpenFacilities(rows);
        if open == [] then Some(SLOTS_EMPTY)
        else
          match db.facilityUsers
          case Down => None
          case Rows(staffRows) => Some(Text.Listing(SLOTS_HEADER, open, SlotEntries(staffRows, now, tomorrow, dayAfter), SLOTS_FOOTER)))
  }

  /** One turn of the facility loop, with the inner loop over the facility's doctors. */
  method SlotEntry(i: nat, f: Facility, staffRows: seq<FacilityUser>, now: int, tomorrow: string, dayAfter: string)
    returns (entry: string)
    ensures entry == SlotEntries(staffRows, now, tomorrow, dayAfter)(i, f)
  {
    entry := PrivacyFilter.EntryTitle(i, f.name) + "Location: " + f.address + "\n";
    var staff := AvailableStaff(staffRows, f, now);
    if staff != [] {
      var doctors := Text.Enumerate(staff, DoctorLine);
      entry := entry + ("Available Doctors:\n" + doctors);
    } else {
      assert entry + "" == entry;
    }
    entry := entry + "Next Available: " + tomorrow + " or " + dayAfter + "\n\n";
  }

  /** The facility loop of `_handle_check_available_slots`, between the header and the footer. */
  method SlotsListing(open: seq<Facility>, staffRows: seq<FacilityUser>, now: int, tomorrow: string, dayAfter: string)
    returns (text: string)
    ensures text == Text.Listing(SLOTS_HEADER, open, SlotEntries(staffRows, now, tomorrow, dayAfter), SLOTS_FOOTER)
  {
    ghost var render := SlotEntries(staffRows, now, tomorrow, dayAfter);
    var entries := "";
    var i := 0;
    while i < |open|
      invariant i <= |open|
      invariant entries == Text.Joined(open[..i], 1, render)
    {
      var entry := SlotEntry(i + 1, open[i], staffRows, now, tomorrow, dayAfter);
      Text.JoinedExtend(open, i, 1, render);
      entries := entries + entry;
      i := i + 1;
    }
    assert open[..i] == open;
    text := SLOTS_HEADER + entries;
    text := text + SLOTS_FOOTER;
  }

  /** `_handle_check_available_slots`: a loop over the facilities with a loop over each one's doctors. */
  method HandleCheckAvailableSlots(phone: string, patientId: string, db: Db, now: int, tomorrow: string, dayAfter: string)
    returns (r: seq<IMResponse>)
    ensures r == [TextTo(phone, SlotsReply(db, patientId, now, tomorrow, dayAfter))]
  {
    var got := GetWhere(db.patients, (p: Patient) => p.externalId == patientId);
    if got == DoesNotExist {
      return [TextTo(phone, ErrorText(Some(PATIENT_NOT_FOUND)))];
    }
    if got.QueryFailed? || db.facilities.Down? {
      return [TextTo(phone, ErrorText(None))];
    }
    var open := OpenFacilities(db.facilities.rows);
    if open == [] {
      return [TextTo(phone, SLOTS_EMPTY)];
    }
    if db.facilityUsers.Down? {
      return [TextTo(phone, ErrorText(None))];
    }
    var text := SlotsListing(open, db.facilityUsers.rows, now, tomorrow, dayAfter);
    r := [TextTo(phone, text)];
  }

  // ---------------------------------------------------------------------------
  // Booking

  /** `_handle_book_appointment`: fixed instructions once the patient exists; nothing is stored. */
  function BookingReply(db: Db, patientId: string): (r: string)
    ensures GetWhere(db.patients, (p: Patient) => p.externalId == patientId).Found? ==> r == BOOKING_TEXT
  {
    ForPatient(db, patientId, (p: Patient) => Some(BOOKING_TEXT))
  }

  method HandleBookAppointment(phone: string, patientId: string, db: Db) returns (r: seq<IMResponse>)
    ensures r == [TextTo(phone, BookingReply(db, patientId))]
  {
    var got := GetWhere(db.patients, (p: Patient) => p.externalId == patientId);
    if got == DoesNotExist {
      return [TextTo(phone, ErrorText(Some(PATIENT_NOT_FOUND)))];
    }
    if got.QueryFailed? {
      return [TextTo(phone, ErrorText(None))];
    }
    r := [TextTo(phone, BOOKING_TEXT)];
  }

  // ---------------------------------------------------------------------------
  // Dispatch

  const PATIENT_COMMANDS: set<Command> :=
    {GET_RECORDS, GET_MEDICATIONS, GET_APPOINTMENTS, GET_PROCEDURES, CHECK_AVAILABLE_SLOTS, BOOK_APPOINTMENT}

  /**
   * The text `handle_command` answers with. A missing context (`None.get`) is the
   * generic error; a context without a patient id stops before any dispatch.
   */
  function CommandReply(command: Command, context: Option<UserContext>, db: Db, now: int,
                        tomorrow: string, dayAfter: string): (r: string)
    ensures context.None? ==> r == GENERIC_ERROR_TEXT
    ensures context.Some? && context.value.PatientId().None? ==> r == "\U{274C} " + PATIENT_INFO_MISSING
    ensures context.Some? && context.value.PatientId().Some? && command !in PATIENT_COMMANDS ==>
            r == UNKNOWN_COMMAND_TEXT
    ensures context.Some? && context.value.PatientId().Some? ==>
            var pid := context.value.PatientId().value;
            (command == GET_RECORDS ==> r == RecordsReply(db, pid, now)) &&
            (command == GET_MEDICATIONS ==> r == MedicationsReply(db, pid)) &&
            (command == GET_APPOINTMENTS ==> r == AppointmentsReply(db, pid, now)) &&
            (command == GET_PROCEDURES ==> r == ProceduresReply(db, pid, now)) &&
            (command == CHECK_AVAILABLE_SLOTS ==> r == SlotsReply(db, pid, now, tomorrow, dayAfter)) &&
            (command == BOOK_APPOINTMENT ==> r == BookingReply(db, pid))
  {
    if context.None? then ErrorText(None)
    else
      match context.value.PatientId()
      case None => ErrorText(Some(PATIENT_INFO_MISSING))
      case Some(pid) =>
        match command
        case GET_RECORDS => RecordsReply(db, pid, now)
        case GET_MEDICATIONS => MedicationsReply(db, pid)
        case GET_APPOINTMENTS => AppointmentsReply(db, pid, now)
        case GET_PROCEDURES => ProceduresReply(db, pid, now)
        case CHECK_AVAILABLE_SLOTS => SlotsReply(db, pid, now, tomorrow, dayAfter)
        case BOOK_APPOINTMENT => BookingReply(db, pid)
        case _ => UNKNOWN_COMMAND_TEXT
  }

  /** `handle_command`: every path answers the sender with exactly one TEXT response. */
  method HandleCommand(command: Command, message: IMMessage, context: Option<UserContext>, db: Db, now: int,
                       tomorrow: string, dayAfter: string) returns (r: seq<IMResponse>)
    ensures SingleTextReply(r, message.senderId)
    ensures r == [TextTo(message.senderId, CommandReply(command, context, db, now, tomorrow, dayAfter))]
  {
    var phone := message.senderId;
    if context.None? {
      return [TextTo(phone, ErrorText(None))];
    }
    var pid := context.value.PatientId();
    if pid.None? {
      return [TextTo(phone, ErrorText(Some(PATIENT_INFO_MISSING)))];
    }
    var patientId := pid.value;
    match command {
      case GET_RECORDS => r := HandleGetRecords(phone, patientId, db, now);
      case GET_MEDICATIONS => r := HandleGetMedications(phone, patientId, db);
      case GET_APPOINTMENTS => r := HandleGetAppointments(phone, patientId, db, now);
      case GET_PROCEDURES => r := HandleGetProcedures(phone, patientId, db, now);
      case CHECK_AVAILABLE_SLOTS => r := HandleCheckAvailableSlots(phone, patientId, db, now, tomorrow, dayAfter);
      case BOOK_APPOINTMENT => r := HandleBookAppointment(phone, patientId, db);
      case _ => r := [UnknownCommandResponse(phone)];
    }
  }
}
