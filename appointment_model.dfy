/** The `Appointment` record of appointments/models.py: its status and type
    codes, the time predicates `is_upcoming` and `can_be_cancelled`, which mails
    `save` dispatches, and the calendar link attached to confirmation mails. */
module AppointmentModel {
  import opened Common
  import opened Calendar

  // Status codes (a CharField with choices, so any string can be stored).
  const SCHEDULED := "SCHEDULED"
  const COMPLETED := "COMPLETED"
  const CANCELLED := "CANCELLED"
  const NO_SHOW := "NO_SHOW"

  predicate IsStatusChoice(s: string) {
    s == SCHEDULED || s == COMPLETED || s == CANCELLED || s == NO_SHOW
  }

  /** `get_status_display()`: the label of a declared choice, the raw value otherwise. */
  function StatusDisplay(s: string): (shown: string)
    ensures s == SCHEDULED ==> shown == "Scheduled"
    ensures s == COMPLETED ==> shown == "Completed"
    ensures s == CANCELLED ==> shown == "Cancelled"
    ensures s == NO_SHOW ==> shown == "No Show"
    ensures !IsStatusChoice(s) ==> shown == s
  {
    if s == SCHEDULED then "Scheduled"
    else if s == COMPLETED then "Completed"
    else if s == CANCELLED then "Cancelled"
    else if s == NO_SHOW then "No Show"
    else s
  }

  /** The display labels tell the declared statuses apart, and no label of a
      declared status is itself a declared code, so a label shows which
      status it came from. */
  lemma StatusLabelsDistinct(s: string, t: string)
    requires IsStatusChoice(s) && IsStatusChoice(t)
    ensures StatusDisplay(s) == StatusDisplay(t) <==> s == t
    ensures !IsStatusChoice(StatusDisplay(s))
  {
  }

  /** One row of the appointment table. `patient` is a user id, `provider` a
      provider-profile id; the primary key is the row's position in the store. */
  datatype Appointment = Appointment(
    patient: nat,
    provider: nat,
    date: Date,
    time: Time,
    status: string,
    appointmentType: string,
    reason: string,
    notes: Option<string>)

  /** A record as the booking form builds it: every new row starts SCHEDULED. */
  function NewAppointment(patient: nat, provider: nat, date: Date, time: Time,
                          appointmentType: string, reason: string, notes: Option<string>): (a: Appointment)
    ensures a.status == SCHEDULED && IsStatusChoice(a.status)
    ensures a.patient == patient && a.provider == provider && a.date == date && a.time == time
    ensures a.appointmentType == appointmentType && a.reason == reason && a.notes == notes
  {
    Appointment(patient, provider, date, time, SCHEDULED, appointmentType, reason, notes)
  }

  function Start(a: Appointment): int {
    Combine(a.date, a.time)
  }

  /** `is_upcoming`: the appointment's combined date and time lies strictly after `now`
      (`now` in whole minutes, rounded down, which decides the comparison exactly). */
  predicate IsUpcoming(a: Appointment, now: int) {
    Start(a) > now
  }

  /** `can_be_cancelled`: upcoming and still SCHEDULED. */
  predicate CanBeCancelled(a: Appointment, now: int) {
    IsUpcoming(a, now) && a.status == SCHEDULED
  }

  /** A completed, cancelled or missed appointment, or one that has started,
      is never cancellable; an upcoming scheduled one always is. */
  lemma CancellableExactly(a: Appointment, now: int)
    ensures CanBeCancelled(a, now) <==> a.status == SCHEDULED && Start(a) > now
    ensures a.status in {COMPLETED, CANCELLED, NO_SHOW} ==> !CanBeCancelled(a, now)
    ensures Start(a) <= now ==> !CanBeCancelled(a, now)
  {
  }

  /** Cancellability only gets lost as time passes. */
  lemma CancellableEarlier(a: Appointment, now: int, later: int)
    requires now <= later && CanBeCancelled(a, later)
    ensures CanBeCancelled(a, now)
  {
  }

  /** The store's booking invariant: at most one SCHEDULED appointment per
      (provider, date, time). */
  predicate NoDoubleBooking(records: seq<Appointment>) {
    forall i, j :: 0 <= i < j < |records| && records[i].status == SCHEDULED && records[j].status == SCHEDULED
      && records[i].provider == records[j].provider && records[i].date == records[j].date
      ==> records[i].time != records[j].time
  }

  /** Every stored status is one of the declared choices. */
  predicate StatusesDeclared(records: seq<Appointment>) {
    forall i :: 0 <= i < |records| ==> IsStatusChoice(records[i].status)
  }

  /** Who a mail goes to. */
  datatype Recipient = PatientEmail | ProviderEmail

  datatype Mail = Mail(to: seq<Recipient>, subject: string)

  /** What `send_confirmation_emails` sends: one mail to the patient, then one to
      the provider, both with the same subject. */
  function ConfirmationMails(): (ms: seq<Mail>)
    ensures |ms| == 2 && ms[0].to == [PatientEmail] && ms[1].to == [ProviderEmail]
    ensures ms[0].subject == ms[1].subject == "Appointment Confirmation"
  {
    [Mail([PatientEmail], "Appointment Confirmation"), Mail([ProviderEmail], "Appointment Confirmation")]
  }

  /** What `send_status_update_emails` sends: a single mail addressed to both parties. */
  function StatusUpdateMail(status: string): (m: Mail)
    ensures m.to == [PatientEmail, ProviderEmail]
    ensures m.subject == "Appointment Status Update: " + StatusDisplay(status)
  {
    Mail([PatientEmail, ProviderEmail], "Appointment Status Update: " + StatusDisplay(status))
  }

  /** The mails `save` decides on. */
  datatype SaveMail = Confirmation | StatusUpdate(status: string)

  /** The decision in `save`: `stored` is the status read back from the table
      before writing (None for a record without a primary key yet). A new record
      gets confirmation mails and never a status update; an existing one gets a
      status update exactly when the stored status differs from the new one. */
  function SaveMails(stored: Option<string>, newStatus: string): (ms: seq<SaveMail>)
    ensures stored.None? ==> ms == [Confirmation]
    ensures stored.Some? && stored.value != newStatus ==> ms == [StatusUpdate(newStatus)]
    ensures stored.Some? && stored.value == newStatus ==> ms == []
    ensures stored.Some? ==> forall m | m in ms :: m.StatusUpdate?
    ensures forall m | m in ms :: m.StatusUpdate? ==> m.status == newStatus && stored.Some?
    ensures |ms| <= 1
  {
    match stored
    case None => [Confirmation]
    case Some(prior) => if prior != newStatus then [StatusUpdate(newStatus)] else []
  }

  /** Re-saving a record whose status did not change sends nothing. */
  lemma ResaveIsSilent(status: string)
    ensures SaveMails(Some(status), status) == []
  {
  }

  /** A calendar entry: start and end in minutes since the ordinal epoch. */
  datatype CalendarEvent = CalendarEvent(start: int, end: int, location: string)

  datatype AttributeError = MissingOfficeAddress

  /** `get_calendar_link` AS WRITTEN: it reads `provider.office_address`
      unconditionally. `officeAddress` is None when the provider object has no
      such attribute, which is always the case for the ProviderProfile model
      declared in accounts/models.py; the read then raises. */
  function CalendarLinkAsWritten(a: Appointment, officeAddress: Option<string>): (r: Result<CalendarEvent, AttributeError>)
    ensures r.Failure? <==> officeAddress.None?
    ensures r.Success? ==> r.value.end == r.value.start + 30 && r.value.start == Start(a)
  {
    match officeAddress
    case None => Failure(MissingOfficeAddress)
    case Some(addr) => Success(CalendarEvent(Start(a), Start(a) + 30, addr))
  }

  /** For the repository's ProviderProfile (no office address), building the
      link of any appointment raises, so `send_confirmation_emails` fails after
      the row has been written. */
  lemma CalendarLinkAsWrittenRaises(a: Appointment)
    ensures CalendarLinkAsWritten(a, None) == Failure(MissingOfficeAddress)
  {
  }

  /** `get_calendar_link` corrected: the location falls back to "TBD" as the
      iCal builder in appointments/utils.py does. The entry lasts exactly 30
      minutes from the appointment's start and never fails. */
  function CalendarLink(a: Appointment, officeAddress: Option<string>): (e: CalendarEvent)
    ensures e.start == Start(a) && e.end - e.start == 30
    ensures officeAddress.None? ==> e.location == "TBD"
    ensures officeAddress.Some? ==> CalendarLinkAsWritten(a, officeAddress) == Success(e)
  {
    CalendarEvent(Start(a), Start(a) + 30, match officeAddress case Some(addr) => addr case None => "TBD")
  }
}
