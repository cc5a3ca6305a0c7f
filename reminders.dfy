/**
 * The appointment reminder service: for an upcoming consultation it files a
 * "day before" and a "two hours before" WhatsApp notification, each only if its
 * time is still ahead, and a periodic scan files them for every upcoming
 * consultation that has none pending. Times are integer seconds; the
 * notification table is a sequence of rows the service appends to.
 */
module Reminders {
  import opened Wrappers
  import Text
  import Authentication

  const DAY: int := 86400
  const HOUR: int := 3600
  const REMINDER_TYPE: string := "appointment_reminder"
  const PENDING: string := "pending"
  const DAY_TITLE: string := "Appointment Reminder"
  const HOUR_TITLE: string := "Upcoming Appointment Alert"
  const UNKNOWN_FACILITY: string := "Unknown Facility"
  const ANY_DOCTOR: string := "your doctor"

  /** `_format_phone_number`: keep the digits; add "91" to a 10-digit number that does not start with it. */
  function FormatPhoneNumber(phone: string): (r: string)
    ensures Text.AllDigits(r)
    ensures var d := Text.Digits(phone);
            (r == "91" + d <==> |d| == 10 && !Text.StartsWith(d, "91")) &&
            (r == d <==> !(|d| == 10 && !Text.StartsWith(d, "91")))
  {
    var d := Text.Digits(phone);
    if !Text.StartsWith(d, "91") && |d| == 10 then "91" + d else d
  }

  /**
   * The reminder service and the sign-in code normalise numbers differently: a
   * 10-digit number that starts with 91 is kept as it is here, but prefixed
   * with another 91 by the authenticator.
   */
  lemma FormatDiffersFromAuthenticator(d: string)
    requires Text.AllDigits(d) && |d| == 10 && Text.StartsWith(d, "91")
    ensures FormatPhoneNumber(d) == d
    ensures Authentication.NormalizePhone(d) == "91" + d
    ensures FormatPhoneNumber(d) != Authentication.NormalizePhone(d)
  {
    Authentication.NormalizeDigitString(d);
  }

  /** On numbers that do not start with 91, both normalisations agree for 10 digits. */
  lemma FormatAgreesOnPlainTenDigits(d: string)
    requires Text.AllDigits(d) && |d| == 10 && !Text.StartsWith(d, "91")
    ensures FormatPhoneNumber(d) == Authentication.NormalizePhone(d)
  {
    Authentication.NormalizeDigitString(d);
  }

  // ---------------------------------------------------------------------------
  // Consultations and notifications

  datatype PatientRef = PatientRef(id: int, name: string, phone: Option<string>)

  datatype FacilityRef = FacilityRef(name: string, externalId: string)

  /** The treating physician's names; a missing name reads as "" (`first_name or ''`). */
  datatype Physician = Physician(firstName: string, lastName: string)

  /**
   * A consultation as the service reads it. `dateText` and `timeText` are the
   * `strftime` renderings of `encounterDate`, carried as given.
   */
  datatype Consultation = Consultation(
    externalId: string,
    patient: PatientRef,
    encounterDate: int,
    dateText: string,
    timeText: string,
    facility: Option<FacilityRef>,
    physician: Option<Physician>,
    dischargeDate: Option<int>)

  datatype ReminderKind = DayBefore | HoursBefore {
    /** The `reminder_type` string. */
    function Value(): string {
      match this
      case DayBefore => "day"
      case HoursBefore => "hour"
    }
  }

  /** A `WhatsAppNotification` row. */
  datatype Notification = Notification(
    phoneNumber: string,
    notificationType: string,
    title: string,
    message: string,
    status: string,
    patientId: int,
    scheduledAt: int,
    consultationId: string,
    reminderType: string,
    facilityId: Option<string>)

  /** Whether a phone number is set (`if not consultation.patient.phone_number`). */
  predicate HasPhone(c: Consultation) {
    c.patient.phone.Some? && c.patient.phone.value != ""
  }

  function FacilityName(c: Consultation): (r: string)
    ensures c.facility.None? ==> r == UNKNOWN_FACILITY
  {
    if c.facility.Some? then c.facility.value.name else UNKNOWN_FACILITY
  }

  function DoctorName(c: Consultation): (r: string)
    ensures c.physician.None? ==> r == ANY_DOCTOR
  {
    match c.physician
    case None => ANY_DOCTOR
    case Some(p) => Text.Strip("Dr. " + p.firstName + " " + p.lastName)
  }

  const DATE_LABEL: string := "\U{1F4C5} Date: "
  const TIME_LABEL: string := "\n\U{23F0} Time: "
  const DAY_OPENING: string := "This is a reminder that you have an appointment tomorrow with "
  const DAY_CLOSING: string := "Please arrive 15 minutes early. If you need to reschedule, please contact us as soon as possible.\n\n"
  const HOUR_OPENING: string := "Your appointment with "
  const HOUR_CLOSING: string := "We look forward to seeing you soon.\n\n"

  /**
   * The message text of `_create_reminder_notification`: it greets the patient,
   * names the doctor and the facility, gives the date and the time, and is
   * signed by the facility's team; the hour reminder also says how many hours
   * are left.
   */
  function ReminderMessage(c: Consultation, kind: ReminderKind, hoursBefore: nat): (r: string)
    ensures Text.StartsWith(r, "Hello " + c.patient.name + ",\n\n")
    ensures Text.EndsWith(r, "Thank you,\n" + FacilityName(c) + " Team")
    ensures Text.Contains(r, DoctorName(c) + " at " + FacilityName(c))
    ensures Text.Contains(r, DATE_LABEL + c.dateText + TIME_LABEL + c.timeText + "\n\n")
    ensures kind == HoursBefore ==> Text.Contains(r, " is in " + Text.NatToString(hoursBefore) + " hours.")
  {
    var greeting := "Hello " + c.patient.name + ",\n\n";
    var mention := DoctorName(c) + " at " + FacilityName(c);
    var hours := " is in " + Text.NatToString(hoursBefore) + " hours.";
    var schedule := DATE_LABEL + c.dateText + TIME_LABEL + c.timeText + "\n\n";
    var signOff := "Thank you,\n" + FacilityName(c) + " Team";
    match kind
    case DayBefore =>
      PartsMentioned(greeting, DAY_OPENING, mention, ".\n\n", schedule, DAY_CLOSING, signOff);
      greeting + (DAY_OPENING + mention + ".\n\n" + schedule + DAY_CLOSING) + signOff
    case HoursBefore =>
      var r := greeting + (HOUR_OPENING + mention + (hours + "\n\n") + schedule + HOUR_CLOSING) + signOff;
      PartsMentioned(greeting, HOUR_OPENING, mention, hours + "\n\n", schedule, HOUR_CLOSING, signOff);
      Text.ContainsPrefix(r, hours, "\n\n");
      r
  }

  /** A text built as greeting, lead, mention, rest, schedule, closing and sign-off holds each of its parts. */
  lemma PartsMentioned(greeting: string, lead: string, mention: string, rest: string, schedule: string,
                       closing: string, signOff: string)
    ensures var r := greeting + (lead + mention + rest + schedule + closing) + signOff;
            Text.StartsWith(r, greeting) && Text.EndsWith(r, signOff) &&
            Text.Contains(r, mention) && Text.Contains(r, rest) && Text.Contains(r, schedule)
  {
    Text.Framing(greeting, lead + mention + rest + schedule + closing, signOff);
    Text.ContainsSelf(mention);
    Text.ContainsAfter(lead, mention, mention);
    Text.ContainsBefore(lead + mention, rest, mention);
    Text.ContainsSelf(rest);
    Text.ContainsAfter(lead + mention, rest, rest);
    Text.ContainsBefore(lead + mention + rest, schedule, mention);
    Text.ContainsBefore(lead + mention + rest, schedule, rest);
    Text.ContainsSelf(schedule);
    Text.ContainsAfter(lead + mention + rest, schedule, schedule);
    InBody(greeting, lead + mention + rest + schedule, closing, signOff, mention);
    InBody(greeting, lead + mention + rest + schedule, closing, signOff, rest);
    InBody(greeting, lead + mention + rest + schedule, closing, signOff, schedule);
  }

  /** What the head of a message body holds, the whole message holds. */
  lemma InBody(greeting: string, head: string, closing: string, signOff: string, t: string)
    requires Text.Contains(head, t)
    ensures Text.Contains(greeting + (head + closing) + signOff, t)
  {
    Text.ContainsBefore(head, closing, t);
    Text.ContainsAfter(greeting, head + closing, t);
    Text.ContainsBefore(greeting + (head + closing), signOff, t);
  }

  /** The row `_create_reminder_notification` creates. */
  function NotificationFor(c: Consultation, phone: string, scheduledAt: int, kind: ReminderKind,
                           hoursBefore: nat): (n: Notification)
    ensures n.notificationType == REMINDER_TYPE && n.status == PENDING
    ensures n.title == (if kind == DayBefore then DAY_TITLE else HOUR_TITLE)
    ensures n.message == ReminderMessage(c, kind, hoursBefore)
    ensures n.consultationId == c.externalId && n.reminderType == kind.Value()
    ensures n.patientId == c.patient.id && n.phoneNumber == phone && n.scheduledAt == scheduledAt
    ensures n.facilityId == (if c.facility.Some? then Some(c.facility.value.externalId) else None)
  {
    ReminderRow(c, phone, scheduledAt, kind, ReminderMessage(c, kind, hoursBefore))
  }

  /** A reminder row for `c` carrying the text `message`. */
  function ReminderRow(c: Consultation, phone: string, scheduledAt: int, kind: ReminderKind,
                       message: string): (n: Notification)
    ensures n.notificationType == REMINDER_TYPE && n.status == PENDING && n.message == message
    ensures n.title == (if kind == DayBefore then DAY_TITLE else HOUR_TITLE)
    ensures n.consultationId == c.externalId && n.reminderType == kind.Value()
    ensures n.patientId == c.patient.id && n.phoneNumber == phone && n.scheduledAt == scheduledAt
    ensures n.facilityId == (if c.facility.Some? then Some(c.facility.value.externalId) else None)
  {
    Notification(
      phone, REMINDER_TYPE,
      if kind == DayBefore then DAY_TITLE else HOUR_TITLE,
      message,
      PENDING, c.patient.id, scheduledAt, c.externalId, kind.Value(),
      if c.facility.Some? then Some(c.facility.value.externalId) else None)
  }

  /**
   * The notifications one loop over the offsets `offsets` files: one per offset
   * whose reminder time, `unit * offset` seconds before the appointment, is after `now`.
   */
  function OffsetReminders(c: Consultation, phone: string, now: int, offsets: seq<nat>, unit: nat,
                           kind: ReminderKind, hoursBefore: nat): seq<Notification> {
    RemindersFor(c, phone, now, offsets, |offsets|, unit, kind, ReminderMessage(c, kind, hoursBefore))
  }

  /** The notifications, each with the text `message`, filed for the first `n` offsets. */
  function RemindersFor(c: Consultation, phone: string, now: int, offsets: seq<nat>, n: nat, unit: nat,
                        kind: ReminderKind, message: string): seq<Notification>
    requires n <= |offsets|
  {
    if n == 0 then []
    else
      var prev := RemindersFor(c, phone, now, offsets, n - 1, unit, kind, message);
      var at := c.encounterDate - unit * offsets[n - 1];
      if at > now then prev + [ReminderRow(c, phone, at, kind, message)] else prev
  }

  const REMINDER_DAYS: seq<nat> := [1]
  const REMINDER_HOURS: seq<nat> := [2]

  /** Everything `schedule_reminders_for_consultation` files for `c` at time `now`. */
  function Planned(c: Consultation, now: int): seq<Notification> {
    if !HasPhone(c) then []
    else
      var phone := FormatPhoneNumber(c.patient.phone.value);
      OffsetReminders(c, phone, now, REMINDER_DAYS, DAY, DayBefore, REMINDER_HOURS[0]) +
      OffsetReminders(c, phone, now, REMINDER_HOURS, HOUR, HoursBefore, REMINDER_HOURS[0])
  }

  /** A reminder row that belongs to `c` and is still pending (the duplicate check of the scan). */
  predicate PendingFor(n: Notification, c: Consultation) {
    n.patientId == c.patient.id && n.notificationType == REMINDER_TYPE && n.status == PENDING &&
    n.consultationId == c.externalId
  }

  /** Whether the table holds a pending reminder of `c` (the scan's `.exists()` query). */
  predicate HasPendingReminder(store: seq<Notification>, c: Consultation) {
    exists i {:trigger PendingFor(store[i], c)} :: 0 <= i < |store| && PendingFor(store[i], c)
  }

  /**
   * A consultation gets at most one day-before reminder, at the appointment
   * minus 24 hours, and at most one hours-before reminder, at the appointment
   * minus 2 hours, each only if that time is after now; every one is a pending
   * appointment reminder of that consultation, sent to its formatted number.
   */
  lemma PlannedReminders(c: Consultation, now: int)
    ensures var p := Planned(c, now);
            var t := c.encounterDate;
            |p| <= 2 &&
            (!HasPhone(c) ==> p == []) &&
            (HasPhone(c) ==>
              var phone := FormatPhoneNumber(c.patient.phone.value);
              p == (if t - DAY > now then [NotificationFor(c, phone, t - DAY, DayBefore, 2)] else []) +
                   (if t - 2 * HOUR > now then [NotificationFor(c, phone, t - 2 * HOUR, HoursBefore, 2)] else [])) &&
            (forall i :: 0 <= i < |p| ==> PendingFor(p[i], c) && p[i].scheduledAt > now)
  {
    if HasPhone(c) {
      PlannedShape(c, now);
    }
  }

  /** With a phone: the day-before reminder, then the hours-before one, each only when still ahead. */
  lemma PlannedShape(c: Consultation, now: int)
    requires HasPhone(c)
    ensures var t := c.encounterDate;
            var phone := FormatPhoneNumber(c.patient.phone.value);
            Planned(c, now) ==
              (if t - DAY > now then [NotificationFor(c, phone, t - DAY, DayBefore, 2)] else []) +
              (if t - 2 * HOUR > now then [NotificationFor(c, phone, t - 2 * HOUR, HoursBefore, 2)] else [])
  {
    var phone := FormatPhoneNumber(c.patient.phone.value);
    SingleOffset(c, phone, now, 1, DAY, DayBefore, 2);
    SingleOffset(c, phone, now, 2, HOUR, HoursBefore, 2);
  }

  /** Everything planned for a consultation is a pending reminder of it, timed after now. */
  lemma PlannedArePending(c: Consultation, now: int)
    ensures var p := Planned(c, now);
            |p| <= 2 && (forall i :: 0 <= i < |p| ==> PendingFor(p[i], c) && p[i].scheduledAt > now)
  {
    PlannedReminders(c, now);
  }

  /** A consultation gets some reminder exactly when it has a phone and the appointment is more than two hours away. */
  lemma PlannedNonEmpty(c: Consultation, now: int)
    ensures Planned(c, now) != [] <==> HasPhone(c) && c.encounterDate > now + 2 * HOUR
  {
    PlannedReminders(c, now);
  }

  /** One more offset files at most that offset's reminder. */
  lemma RemindersForStep(c: Consultation, phone: string, now: int, offsets: seq<nat>, i: nat, unit: nat,
                         kind: ReminderKind, message: string)
    requires i < |offsets|
    ensures var at := c.encounterDate - unit * offsets[i];
            var prev := RemindersFor(c, phone, now, offsets, i, unit, kind, message);
            RemindersFor(c, phone, now, offsets, i + 1, unit, kind, message) ==
              if at > now then prev + [ReminderRow(c, phone, at, kind, message)] else prev
  {
  }

  /** A loop over a single offset files at most that offset's reminder. */
  lemma SingleOffset(c: Consultation, phone: string, now: int, offset: nat, unit: nat, kind: ReminderKind,
                     hoursBefore: nat)
    ensures var at := c.encounterDate - unit * offset;
            OffsetReminders(c, phone, now, [offset], unit, kind, hoursBefore) ==
            if at > now then [NotificationFor(c, phone, at, kind, hoursBefore)] else []
  {
    SingleOffsetRow(c, phone, now, offset, unit, kind, ReminderMessage(c, kind, hoursBefore));
  }

  /** The same for any reminder text. */
  lemma SingleOffsetRow(c: Consultation, phone: string, now: int, offset: nat, unit: nat, kind: ReminderKind,
                        message: string)
    ensures var at := c.encounterDate - unit * offset;
            RemindersFor(c, phone, now, [offset], 1, unit, kind, message) ==
            if at > now then [ReminderRow(c, phone, at, kind, message)] else []
  {
    var row := ReminderRow(c, phone, c.encounterDate - unit * offset, kind, message);
    assert RemindersFor(c, phone, now, [offset], 0, unit, kind, message) == [];
    assert [] + [row] == [row];
  }

  /** An appointment less than two hours away gets no reminder at all. */
  lemma TooLateForReminders(c: Consultation, now: int)
    requires c.encounterDate <= now + 2 * HOUR
    ensures Planned(c, now) == []
  {
    PlannedReminders(c, now);
  }

  // ---------------------------------------------------------------------------
  // The periodic scan

  /** The consultations the scan's query returns: not discharged, from now to `daysAhead` days ahead. */
  function Upcoming(consultations: seq<Consultation>, now: int, daysAhead: int): (r: seq<Consultation>)
    ensures |r| <= |consultations|
    ensures forall i :: 0 <= i < |r| ==>
              r[i] in consultations && now <= r[i].encounterDate <= now + daysAhead * DAY && r[i].dischargeDate.None?
    ensures forall c :: c in r <==>
              c in consultations && now <= c.encounterDate <= now + daysAhead * DAY && c.dischargeDate.None?
  {
    if consultations == [] then []
    else
      var prev := Upcoming(consultations[..|consultations| - 1], now, daysAhead);
      var c := consultations[|consultations| - 1];
      assert consultations == consultations[..|consultations| - 1] + [c];
      if now <= c.encounterDate <= now + daysAhead * DAY && c.dischargeDate.None? then prev + [c] else prev
  }

  /** The notification table and the number of consultations scheduled so far. */
  datatype ScanState = ScanState(store: seq<Notification>, scheduled: nat)

  /**
   * The scan's loop over `cs`, starting from the table `store`: the table it
   * leaves and the number of consultations it scheduled.
   */
  function ScanFrom(store: seq<Notification>, cs: seq<Consultation>, now: int): ScanState {
    ScanPrefix(store, cs, |cs|, now)
  }

  /** The scan's loop after its first `n` turns. */
  function ScanPrefix(store: seq<Notification>, cs: seq<Consultation>, n: nat, now: int): ScanState
    requires n <= |cs|
  {
    if n == 0 then ScanState(store, 0) else ScanStep(ScanPrefix(store, cs, n - 1, now), cs[n - 1], now)
  }

  /** One turn of the scan's loop: skip `c` without a phone or with a pending reminder, else schedule it. */
  function ScanStep(prev: ScanState, c: Consultation, now: int): ScanState {
    if !HasPhone(c) || HasPendingReminder(prev.store, c) then prev
    else ScanState(prev.store + Planned(c, now), prev.scheduled + 1)
  }

  /**
   * The scan schedules at most one turn per consultation, only ever appends to
   * the table, and every row it appends is a pending reminder timed after now.
   */
  lemma ScanAppendsPendingReminders(store: seq<Notification>, cs: seq<Consultation>, now: int)
    ensures var r := ScanFrom(store, cs, now);
            r.scheduled <= |cs| && |store| <= |r.store| && r.store[..|store|] == store &&
            (forall i :: |store| <= i < |r.store| ==>
               r.store[i].notificationType == REMINDER_TYPE && r.store[i].status == PENDING &&
               r.store[i].scheduledAt > now)
  {
    AppendsAfterPrefix(store, cs, |cs|, now);
  }

  /** The same after the first `n` turns. */
  lemma {:induction false} AppendsAfterPrefix(store: seq<Notification>, cs: seq<Consultation>, n: nat, now: int)
    requires n <= |cs|
    ensures var r := ScanPrefix(store, cs, n, now);
            r.scheduled <= n && |store| <= |r.store| && r.store[..|store|] == store &&
            (forall i :: |store| <= i < |r.store| ==>
               r.store[i].notificationType == REMINDER_TYPE && r.store[i].status == PENDING &&
               r.store[i].scheduledAt > now)
  {
    if n > 0 {
      AppendsAfterPrefix(store, cs, n - 1, now);
      var prev := ScanPrefix(store, cs, n - 1, now);
      StepAppendsPending(prev, cs[n - 1], now);
      ExtensionsCompose(store, prev.store, ScanPrefix(store, cs, n, now).store, now);
    }
  }

  /** One turn of the scan appends only pending reminders timed after now. */
  lemma StepAppendsPending(prev: ScanState, c: Consultation, now: int)
    ensures var r := ScanStep(prev, c, now);
            r.scheduled <= prev.scheduled + 1 && |prev.store| <= |r.store| && r.store[..|prev.store|] == prev.store &&
            (forall i :: |prev.store| <= i < |r.store| ==>
               r.store[i].notificationType == REMINDER_TYPE && r.store[i].status == PENDING &&
               r.store[i].scheduledAt > now)
  {
    var s := prev.store;
    if HasPhone(c) && !HasPendingReminder(s, c) {
      PlannedArePending(c, now);
      var p := Planned(c, now);
      assert (s + p)[..|s|] == s;
      forall i | |s| <= i < |s + p|
        ensures (s + p)[i] == p[i - |s|]
      {
      }
    } else {
      assert s[..|s|] == s;
    }
  }

  /** Two appends of pending reminders timed after now make one. */
  lemma ExtensionsCompose(store: seq<Notification>, s: seq<Notification>, r: seq<Notification>, now: int)
    requires |store| <= |s| && s[..|store|] == store
    requires |s| <= |r| && r[..|s|] == s
    requires forall i :: |store| <= i < |s| ==>
               s[i].notificationType == REMINDER_TYPE && s[i].status == PENDING && s[i].scheduledAt > now
    requires forall i :: |s| <= i < |r| ==>
               r[i].notificationType == REMINDER_TYPE && r[i].status == PENDING && r[i].scheduledAt > now
    ensures |store| <= |r| && r[..|store|] == store
    ensures forall i :: |store| <= i < |r| ==>
              r[i].notificationType == REMINDER_TYPE && r[i].status == PENDING && r[i].scheduledAt > now
  {
    assert r[..|store|] == r[..|s|][..|store|];
    forall i | |store| <= i < |s|
      ensures r[i] == s[i]
    {
      assert r[..|s|][i] == r[i];
    }
  }

  /**
   * After the scan, every consultation it saw that has a phone and a reminder
   * time still ahead has a pending reminder in the table: running the scan
   * again does not schedule it twice.
   */
  lemma ScanLeavesPendingReminders(store: seq<Notification>, cs: seq<Consultation>, now: int, j: nat)
    requires j < |cs| && HasPhone(cs[j]) && cs[j].encounterDate > now + 2 * HOUR
    ensures HasPendingReminder(ScanFrom(store, cs, now).store, cs[j])
  {
    PendingAfterPrefix(store, cs, now, j, |cs|);
  }

  /** The same after the first `n` turns, for any `j` among them. */
  lemma {:induction false} PendingAfterPrefix(store: seq<Notification>, cs: seq<Consultation>, now: int, j: nat, n: nat)
    requires j < n <= |cs| && HasPhone(cs[j]) && cs[j].encounterDate > now + 2 * HOUR
    ensures HasPendingReminder(ScanPrefix(store, cs, n, now).store, cs[j])
  {
    var prev := ScanPrefix(store, cs, n - 1, now);
    if j < n - 1 {
      PendingAfterPrefix(store, cs, now, j, n - 1);
      StepKeepsPending(prev, cs[n - 1], now, cs[j]);
    } else {
      StepLeavesPending(prev, cs[n - 1], now);
    }
  }

  /** A turn of the scan never removes a pending reminder. */
  lemma StepKeepsPending(prev: ScanState, c: Consultation, now: int, d: Consultation)
    requires HasPendingReminder(prev.store, d)
    ensures HasPendingReminder(ScanStep(prev, c, now).store, d)
  {
    if HasPhone(c) && !HasPendingReminder(prev.store, c) {
      PendingKept(prev.store, Planned(c, now), d);
    }
  }

  /** After its own turn, a consultation with a reminder time ahead has a pending reminder. */
  lemma StepLeavesPending(prev: ScanState, c: Consultation, now: int)
    requires HasPhone(c) && c.encounterDate > now + 2 * HOUR
    ensures HasPendingReminder(ScanStep(prev, c, now).store, c)
  {
    if !HasPendingReminder(prev.store, c) {
      var s := prev.store;
      var p := Planned(c, now);
      PlannedNonEmpty(c, now);
      PlannedArePending(c, now);
      assert PendingFor(p[0], c);
      assert (s + p)[|s|] == p[0];
    }
  }

  lemma PendingKept(s: seq<Notification>, added: seq<Notification>, c: Consultation)
    requires HasPendingReminder(s, c)
    ensures HasPendingReminder(s + added, c)
  {
    var i :| 0 <= i < |s| && PendingFor(s[i], c);
    assert (s + added)[i] == s[i];
  }

  /**
   * The scan counts a consultation it schedules even when no reminder time is
   * ahead any more, so the count can exceed the consultations that got a reminder.
   */
  lemma CountsConsultationWithoutReminders(c: Consultation, now: int)
    requires HasPhone(c) && now <= c.encounterDate <= now + 2 * HOUR
    ensures ScanFrom([], [c], now) == ScanState([], 1)
  {
    TooLateForReminders(c, now);
    var cs := [c];
    assert ScanPrefix([], cs, 0, now) == ScanState([], 0);
    assert ScanFrom([], cs, now) == ScanStep(ScanState([], 0), c, now);
  }

  /** What `schedule_reminders_for_upcoming_consultations` returns. */
  datatype ScanResult = Success(totalConsultations: nat, scheduledReminders: nat) | Error

  // ---------------------------------------------------------------------------
  // The service over the notification table

  /**
   * `AppointmentReminderService`. `notifications` is the notification table;
   * `databaseUp` is false when every query and insert raises.
   */
  class AppointmentReminderService {
    var notifications: seq<Notification>
    const databaseUp: bool
    const reminderDays: seq<nat>
    const reminderHours: seq<nat>

    constructor(notifications: seq<Notification>, databaseUp: bool)
      ensures this.notifications == notifications && this.databaseUp == databaseUp
      ensures reminderDays == REMINDER_DAYS && reminderHours == REMINDER_HOURS
    {
      this.notifications := notifications;
      this.databaseUp := databaseUp;
      reminderDays := REMINDER_DAYS;
      reminderHours := REMINDER_HOURS;
    }

    /**
     * `_create_reminder_notification`: the new row, or None (and no row) when
     * the insert fails. `message` is the text `ReminderMessage` builds for the
     * consultation and the kind, which the caller passes in.
     */
    method CreateReminderNotification(c: Consultation, phone: string, scheduledAt: int, kind: ReminderKind,
                                      message: string)
      returns (n: Option<Notification>)
      modifies this
      ensures databaseUp ==> n == Some(ReminderRow(c, phone, scheduledAt, kind, message)) &&
                             notifications == old(notifications) + [n.value]
      ensures !databaseUp ==> n == None && notifications == old(notifications)
    {
      if !databaseUp {
        return None;
      }
      var notification := ReminderRow(c, phone, scheduledAt, kind, message);
      notifications := notifications + [notification];
      n := Some(notification);
    }

    /**
     * One loop of `schedule_reminders_for_consultation`, over the day or the
     * hour offsets; every reminder it files carries the text `message`.
     */
    method ScheduleOffsets(c: Consultation, phone: string, now: int, offsets: seq<nat>, unit: nat, kind: ReminderKind,
                           message: string)
      modifies this
      ensures notifications == old(notifications) +
                (if databaseUp then RemindersFor(c, phone, now, offsets, |offsets|, unit, kind, message) else [])
    {
      var i := 0;
      while i < |offsets|
        invariant i <= |offsets|
        invariant databaseUp ==> notifications == old(notifications) + RemindersFor(c, phone, now, offsets, i, unit, kind, message)
        invariant !databaseUp ==> notifications == old(notifications)
      {
        var reminderDate := c.encounterDate - unit * offsets[i];
        ghost var filed := RemindersFor(c, phone, now, offsets, i, unit, kind, message);
        RemindersForStep(c, phone, now, offsets, i, unit, kind, message);
        if reminderDate > now {
          ghost var row := ReminderRow(c, phone, reminderDate, kind, message);
          assert RemindersFor(c, phone, now, offsets, i + 1, unit, kind, message) == filed + [row];
          var n := CreateReminderNotification(c, phone, reminderDate, kind, message);
          if databaseUp {
            Text.AppendAssoc(old(notifications), filed, [row]);
          }
        } else {
          assert RemindersFor(c, phone, now, offsets, i + 1, unit, kind, message) == filed;
        }
        i := i + 1;
      }
      assert !databaseUp ==> old(notifications) + [] == old(notifications);
    }

    /** `schedule_reminders_for_consultation` */
    method ScheduleRemindersForConsultation(c: Consultation, now: int)
      requires reminderDays == REMINDER_DAYS && reminderHours == REMINDER_HOURS
      modifies this
      ensures notifications == old(notifications) + (if databaseUp then Planned(c, now) else [])
    {
      if c.patient.phone.None? || c.patient.phone.value == "" {
        return;
      }
      var phone := FormatPhoneNumber(c.patient.phone.value);
      ghost var day := OffsetReminders(c, phone, now, REMINDER_DAYS, DAY, DayBefore, 2);
      ghost var hour := OffsetReminders(c, phone, now, REMINDER_HOURS, HOUR, HoursBefore, 2);
      assert Planned(c, now) == day + hour;
      ScheduleOffsets(c, phone, now, reminderDays, DAY, DayBefore, ReminderMessage(c, DayBefore, reminderHours[0]));
      ScheduleOffsets(c, phone, now, reminderHours, HOUR, HoursBefore, ReminderMessage(c, HoursBefore, reminderHours[0]));
      if databaseUp {
        Text.AppendAssoc(old(notifications), day, hour);
      }
    }

    /** `schedule_reminders_for_upcoming_consultations(days_ahead)` over the consultation table. */
    method ScheduleRemindersForUpcomingConsultations(consultations: seq<Consultation>, daysAhead: int, now: int)
      returns (result: ScanResult)
      requires reminderDays == REMINDER_DAYS && reminderHours == REMINDER_HOURS
      modifies this
      ensures !databaseUp ==> result == Error && notifications == old(notifications)
      ensures databaseUp ==>
                var upcoming := Upcoming(consultations, now, daysAhead);
                var r := ScanFrom(old(notifications), upcoming, now);
                result == Success(|upcoming|, r.scheduled) && notifications == r.store
      ensures result.Success? ==> result.scheduledReminders <= result.totalConsultations
    {
      if !databaseUp {
        return Error;
      }
      var upcoming := Upcoming(consultations, now, daysAhead);
      var scheduledCount: nat := 0;
      var i := 0;
      while i < |upcoming|
        invariant i <= |upcoming|
        invariant ScanState(notifications, scheduledCount) == ScanPrefix(old(notifications), upcoming, i, now)
      {
        var c := upcoming[i];
        if c.patient.phone.Some? && c.patient.phone.value != "" {
          var existing := exists k :: 0 <= k < |notifications| && PendingFor(notifications[k], c);
          if !existing {
            ScheduleRemindersForConsultation(c, now);
            scheduledCount := scheduledCount + 1;
          }
        }
        i := i + 1;
      }
      ScanAppendsPendingReminders(old(notifications), upcoming, now);
      result := Success(|upcoming|, scheduledCount);
    }
  }
}
