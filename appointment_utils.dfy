/** appointments/utils.py: the notification mails per notification type, the
    iCal entry of an appointment, and the availability check run before booking. */
module AppointmentUtils {
  import opened Calendar
  import opened Common
  import opened AppointmentModel

  predicate IsNotificationKind(kind: string) {
    kind == "confirmation" || kind == "reminder" || kind == "cancellation" || kind == "rescheduled"
  }

  function NotificationSubject(kind: string): (subject: Option<string>)
    ensures subject.Some? <==> IsNotificationKind(kind)
    ensures kind == "confirmation" ==> subject == Some("Appointment Confirmation")
    ensures kind == "reminder" ==> subject == Some("Appointment Reminder")
    ensures kind == "cancellation" ==> subject == Some("Appointment Cancellation")
    ensures kind == "rescheduled" ==> subject == Some("Appointment Rescheduled")
  {
    if kind == "confirmation" then Some("Appointment Confirmation")
    else if kind == "reminder" then Some("Appointment Reminder")
    else if kind == "cancellation" then Some("Appointment Cancellation")
    else if kind == "rescheduled" then Some("Appointment Rescheduled")
    else None
  }

  /** `send_appointment_notification`: nothing for an unknown type; otherwise one
      mail to the patient and then one to the provider, whose subject is the
      patient's prefixed with "Provider: ". */
  function NotificationMails(kind: string): (ms: seq<Mail>)
    ensures !IsNotificationKind(kind) ==> ms == []
    ensures IsNotificationKind(kind) ==>
              |ms| == 2 && ms[0].to == [PatientEmail] && ms[1].to == [ProviderEmail]
              && ms[1].subject == "Provider: " + ms[0].subject
              && NotificationSubject(kind) == Some(ms[0].subject)
  {
    match NotificationSubject(kind)
    case None => []
    case Some(subject) => [Mail([PatientEmail], subject), Mail([ProviderEmail], "Provider: " + subject)]
  }

  /** Different notification types are told apart by their subjects. */
  lemma NotificationSubjectsDistinct(k1: string, k2: string)
    requires IsNotificationKind(k1) && IsNotificationKind(k2) && k1 != k2
    ensures NotificationMails(k1)[0].subject != NotificationMails(k2)[0].subject
  {
  }

  /** `generate_ical_event`: DTSTART is the appointment's start, DTEND 30 minutes
      later; LOCATION is the provider's office address when the provider has
      one and "TBD" otherwise. */
  function ICalEvent(a: Appointment, officeAddress: Option<string>): (e: CalendarEvent)
    ensures e.start == Start(a) && e.end == e.start + 30
    ensures e.location == (if officeAddress.Some? then officeAddress.value else "TBD")
  {
    CalendarEvent(Start(a), Start(a) + 30, if officeAddress.Some? then officeAddress.value else "TBD")
  }

  /** The result of `check_appointment_availability`, one value per return. */
  datatype Availability = Available | InPast | OutsideWorkingHours | SlotTaken

  /** The `(is_available, message)` pair the source returns. */
  function AvailabilityReply(v: Availability): (reply: (bool, string))
    ensures reply.0 <==> v == Available
    ensures v == Available ==> reply == (true, "Time slot is available")
    ensures v == InPast ==> reply == (false, "Cannot book appointments in the past")
    ensures v == OutsideWorkingHours ==> reply == (false, "Appointments are only available between 9 AM and 5 PM")
    ensures v == SlotTaken ==> reply == (false, "This time slot is already booked")
  {
    match v
    case Available => (true, "Time slot is available")
    case InPast => (false, "Cannot book appointments in the past")
    case OutsideWorkingHours => (false, "Appointments are only available between 9 AM and 5 PM")
    case SlotTaken => (false, "This time slot is already booked")
  }

  /** Each outcome has its own message. */
  lemma AvailabilityRepliesDistinct(v: Availability, w: Availability)
    requires v != w
    ensures AvailabilityReply(v).1 != AvailabilityReply(w).1
  {
  }

  predicate BlocksSlot(a: Appointment, provider: nat, date: Date, time: Time) {
    a.provider == provider && a.date == date && a.time == time && a.status == SCHEDULED
  }

  /** The `filter(date=..., time=..., status='SCHEDULED').exists()` query over the
      provider's appointments. */
  function SlotBooked(records: seq<Appointment>, provider: nat, date: Date, time: Time): (b: bool)
    ensures b <==> exists i :: 0 <= i < |records| && BlocksSlot(records[i], provider, date, time)
  {
    if records == [] then false
    else
      var last := |records| - 1;
      BlocksSlot(records[last], provider, date, time) || SlotBooked(records[..last], provider, date, time)
  }

  /** Working hours: the hour alone decides, from 9 up to but excluding 17. */
  predicate InWorkingHours(time: Time) {
    !(time.hour < 9 || time.hour >= 17)
  }

  /** `check_appointment_availability`, reading the store and changing nothing.
      The rules run in order (past, working hours, slot taken) and the first one
      that fails is reported. */
  function CheckAvailability(records: seq<Appointment>, provider: nat, date: Date, time: Time, now: int): (v: Availability)
    ensures v == InPast <==> Combine(date, time) <= now
    ensures v == OutsideWorkingHours <==> Combine(date, time) > now && !InWorkingHours(time)
    ensures v == SlotTaken <==>
              Combine(date, time) > now && InWorkingHours(time)
              && exists i :: 0 <= i < |records| && BlocksSlot(records[i], provider, date, time)
    ensures v == Available <==>
              Combine(date, time) > now && 9 <= time.hour < 17
              && forall i :: 0 <= i < |records| ==> !BlocksSlot(records[i], provider, date, time)
  {
    if Combine(date, time) <= now then InPast
    else if time.hour < 9 || time.hour >= 17 then OutsideWorkingHours
    else if SlotBooked(records, provider, date, time) then SlotTaken
    else Available
  }
  /** The reply `check_appointment_availability` gives names the first rule
      the slot fails, in the order past, working hours, taken. */
  lemma ReplyNamesFirstFailingRule(records: seq<Appointment>, provider: nat, date: Date, time: Time, now: int)
    ensures var reply := AvailabilityReply(CheckAvailability(records, provider, date, time, now));
            (reply == (false, "Cannot book appointments in the past") <==> Combine(date, time) <= now)
            && (reply == (false, "Appointments are only available between 9 AM and 5 PM") <==>
                  Combine(date, time) > now && !InWorkingHours(time))
            && (reply == (false, "This time slot is already booked") <==>
                  Combine(date, time) > now && InWorkingHours(time)
                  && exists i :: 0 <= i < |records| && BlocksSlot(records[i], provider, date, time))
  {
    var v := CheckAvailability(records, provider, date, time, now);
    forall w | w != v
      ensures AvailabilityReply(w) != AvailabilityReply(v)
    {
      AvailabilityRepliesDistinct(w, v);
    }
  }


  /** Minutes do not matter: 16:59 is inside working hours, 17:00 and 8:59 are not. */
  lemma WorkingHoursEdges()
    ensures InWorkingHours(HourMinute(16, 59)) && InWorkingHours(HourMinute(9, 0))
    ensures !InWorkingHours(HourMinute(17, 0)) && !InWorkingHours(HourMinute(8, 59))
  {
  }

  /** Only SCHEDULED rows occupy a slot: adding a COMPLETED, CANCELLED or
      NO_SHOW row, or a row for another slot, never changes the answer. */
  lemma NonBlockingRowIgnored(records: seq<Appointment>, a: Appointment, provider: nat, date: Date, time: Time, now: int)
    requires !BlocksSlot(a, provider, date, time)
    ensures CheckAvailability(records + [a], provider, date, time, now) == CheckAvailability(records, provider, date, time, now)
  {
    var extended := records + [a];
    if SlotBooked(extended, provider, date, time) {
      var i :| 0 <= i < |extended| && BlocksSlot(extended[i], provider, date, time);
      assert i < |records| && records[i] == extended[i];
    }
    if SlotBooked(records, provider, date, time) {
      var i :| 0 <= i < |records| && BlocksSlot(records[i], provider, date, time);
      assert extended[i] == records[i];
    }
  }

  /** Appending the booked record after a successful check keeps at most one
      SCHEDULED appointment per (provider, date, time). */
  lemma BookingKeepsSlotsUnique(records: seq<Appointment>, a: Appointment, now: int)
    requires NoDoubleBooking(records)
    requires CheckAvailability(records, a.provider, a.date, a.time, now) == Available
    ensures NoDoubleBooking(records + [a])
  {
    var extended := records + [a];
    forall i, j | 0 <= i < j < |extended| && extended[i].status == SCHEDULED && extended[j].status == SCHEDULED
      && extended[i].provider == extended[j].provider && extended[i].date == extended[j].date
      ensures extended[i].time != extended[j].time
    {
      if j == |records| {
        assert !BlocksSlot(records[i], a.provider, a.date, a.time);
      } else {
        assert extended[i] == records[i] && extended[j] == records[j];
      }
    }
  }

  /** A slot the check admits starts after `now`, and its 30-minute calendar
      entry ends on the same day, by 17:29. */
  lemma AdmittedSlotFitsTheDay(records: seq<Appointment>, a: Appointment, officeAddress: Option<string>, now: int)
    requires CheckAvailability(records, a.provider, a.date, a.time, now) == Available
    ensures ICalEvent(a, officeAddress).start > now
    ensures ICalEvent(a, officeAddress).end <= Combine(a.date, HourMinute(17, 29))
  {
  }
}
