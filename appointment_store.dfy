/** The appointment table and the notifications dispatched about it, as one
    object. Its methods are the operations that write the table:
    `Appointment.save` (appointments/models.py, with the post-save receiver of
    appointments/signals.py when it is connected), `book_appointment` and
    `cancel_appointment` (appointments/views.py), the two bulk admin actions
    (appointments/admin.py) and the reminder job
    (appointments/management/commands/send_appointment_reminders.py).
    Requests run one after another. */
module AppointmentStore {
  import opened Calendar
  import opened Common
  import opened AppointmentModel
  import opened AppointmentUtils
  import opened AppointmentSignals
  import opened AppointmentAdmin
  import opened AppointmentViews
  import opened ReminderCommand

  /** One dispatch of mail, in the order it happened. */
  datatype Event =
    | Notify(id: nat, kind: string)                       // send_appointment_notification
    | ConfirmationEmails(id: nat, link: CalendarEvent)    // Appointment.send_confirmation_emails
    | StatusUpdateEmail(id: nat, status: string)          // Appointment.send_status_update_emails

  /** The mails an event puts on the wire. */
  function EventMails(e: Event): (ms: seq<Mail>)
    ensures e.Notify? ==> ms == NotificationMails(e.kind)
    ensures e.ConfirmationEmails? ==> ms == ConfirmationMails()
    ensures e.StatusUpdateEmail? ==> ms == [StatusUpdateMail(e.status)]
  {
    match e
    case Notify(_, kind) => NotificationMails(kind)
    case ConfirmationEmails(_, _) => ConfirmationMails()
    case StatusUpdateEmail(_, status) => [StatusUpdateMail(status)]
  }

  /** What one `save` of row `id` logs. `stored` is the status read before
      writing (None for a new row). The post-save receiver, when connected,
      runs right after the write and reads the row back, so it sees the new
      status; `save` then sends its own mails. */
  function SaveEvents(id: nat, a: Appointment, stored: Option<string>, signalConnected: bool): (events: seq<Event>)
    ensures |events| <= 2 && forall e | e in events :: e.id == id
    ensures !signalConnected ==> |events| <= 1
  {
    var received := if signalConnected then ReceiverNotification(stored.None?, Some(a.status), a.status) else None;
    var mails := SaveMails(stored, a.status);
    (if received.Some? then [Notify(id, received.value)] else [])
    + (if mails == [] then []
       else if mails[0].Confirmation? then [ConfirmationEmails(id, CalendarLink(a, None))]
       else [StatusUpdateEmail(id, mails[0].status)])
  }

  /** A new row is confirmed by `save` (and by the receiver when connected) and
      gets no status update; an existing row gets one status-update mail
      exactly when its status changed, and the receiver adds nothing. */
  lemma SaveEventsExplained(id: nat, a: Appointment, stored: Option<string>, signalConnected: bool)
    ensures stored.None? ==>
              SaveEvents(id, a, stored, signalConnected)
              == (if signalConnected then [Notify(id, "confirmation")] else []) + [ConfirmationEmails(id, CalendarLink(a, None))]
    ensures stored.Some? && stored.value != a.status ==> SaveEvents(id, a, stored, signalConnected) == [StatusUpdateEmail(id, a.status)]
    ensures stored.Some? && stored.value == a.status ==> SaveEvents(id, a, stored, signalConnected) == []
  {
    UpdateIsSilentAfterSave(a.status);
  }

  datatype BookingForm = BookingForm(provider: nat, date: Date, time: Time, appointmentType: string,
                                     reason: string, notes: Option<string>)

  /** The row `book_appointment` writes: the form's fields, the requesting
      user as patient, status SCHEDULED. */
  function BookedRecord(user: nat, f: BookingForm): (a: Appointment)
    ensures a.patient == user && a.status == SCHEDULED
    ensures a.provider == f.provider && a.date == f.date && a.time == f.time && a.reason == f.reason
  {
    NewAppointment(user, f.provider, f.date, f.time, f.appointmentType, f.reason, f.notes)
  }

  datatype BookResult = FormShown | Unavailable(reason: Availability) | Booked(id: nat)

  /** `book_appointment`'s outcome: the form again for a GET or an invalid form
      (None), the first failing availability rule, or the new row's key. */
  function BookOutcome(records: seq<Appointment>, form: Option<BookingForm>, now: int): (r: BookResult)
    ensures r == FormShown <==> form.None?
    ensures form.Some? ==>
              (r.Booked? <==> CheckAvailability(records, form.value.provider, form.value.date, form.value.time, now) == Available)
    ensures r.Unavailable? ==>
              form.Some? && r.reason != Available
              && r.reason == CheckAvailability(records, form.value.provider, form.value.date, form.value.time, now)
    ensures r.Booked? ==>
              r.id == |records| && form.Some?
              && CheckAvailability(records, form.value.provider, form.value.date, form.value.time, now) == Available
              && Combine(form.value.date, form.value.time) > now && 9 <= form.value.time.hour < 17
  {
    match form
    case None => FormShown
    case Some(f) =>
      var v := CheckAvailability(records, f.provider, f.date, f.time, now);
      if v != Available then Unavailable(v) else Booked(|records|)
  }

  /** The dispatches of one successful booking: the receiver's confirmation
      when connected, `save`'s confirmation mails, then the view's own
      confirmation. */
  function BookingEvents(id: nat, a: Appointment, signalConnected: bool): seq<Event> {
    SaveEvents(id, a, None, signalConnected) + [Notify(id, "confirmation")]
  }

  /** A booking dispatches two confirmations, or three with the receiver
      connected, and nothing else. */
  lemma BookingConfirmsTwoOrThreeTimes(id: nat, a: Appointment, signalConnected: bool)
    ensures |BookingEvents(id, a, signalConnected)| == (if signalConnected then 3 else 2)
    ensures forall e | e in BookingEvents(id, a, signalConnected) ::
              e.id == id && (e.ConfirmationEmails? || e == Notify(id, "confirmation"))
  {
    SaveEventsExplained(id, a, None, signalConnected);
  }

  /** The mails a sequence of dispatches puts on the wire, in order. */
  function MailsOf(events: seq<Event>): (ms: seq<Mail>)
    ensures events == [] ==> ms == []
    ensures |events| == 1 ==> ms == EventMails(events[0])
  {
    if events == [] then [] else EventMails(events[0]) + MailsOf(events[1..])
  }

  lemma MailsOfCons(e: Event, rest: seq<Event>)
    ensures MailsOf([e] + rest) == EventMails(e) + MailsOf(rest)
  {
    assert ([e] + rest)[1..] == rest;
  }

  /** Every mail is a confirmation, to the patient or to the provider. */
  predicate OnlyConfirmations(ms: seq<Mail>) {
    forall k :: 0 <= k < |ms| ==>
      ms[k].subject == "Appointment Confirmation" || ms[k].subject == "Provider: " + "Appointment Confirmation"
  }

  lemma OnlyConfirmationsAppend(a: seq<Mail>, b: seq<Mail>)
    requires OnlyConfirmations(a) && OnlyConfirmations(b)
    ensures OnlyConfirmations(a + b)
  {
    forall k | 0 <= k < |a + b|
      ensures (a + b)[k].subject == "Appointment Confirmation" || (a + b)[k].subject == "Provider: " + "Appointment Confirmation"
    {
      if k >= |a| {
        assert (a + b)[k] == b[k - |a|];
      }
    }
  }

  lemma NotifyConfirmationMails(id: nat)
    ensures |EventMails(Notify(id, "confirmation"))| == 2 && OnlyConfirmations(EventMails(Notify(id, "confirmation")))
  {
    var ms := NotificationMails("confirmation");
    assert NotificationSubject("confirmation") == Some("Appointment Confirmation");
    assert ms[0].subject == "Appointment Confirmation";
    assert ms[1].subject == "Provider: " + ms[0].subject;
  }

  lemma SaveConfirmationMails(id: nat, link: CalendarEvent)
    ensures |EventMails(ConfirmationEmails(id, link))| == 2 && OnlyConfirmations(EventMails(ConfirmationEmails(id, link)))
  {
  }

  /** A booking mails the patient and the provider two confirmations each,
      three each with the receiver connected, and nothing else. */
  lemma BookingMails(id: nat, a: Appointment, signalConnected: bool)
    ensures |MailsOf(BookingEvents(id, a, signalConnected))| == (if signalConnected then 6 else 4)
    ensures OnlyConfirmations(MailsOf(BookingEvents(id, a, signalConnected)))
  {
    SaveEventsExplained(id, a, None, signalConnected);
    var notify := Notify(id, "confirmation");
    var confirm := ConfirmationEmails(id, CalendarLink(a, None));
    NotifyConfirmationMails(id);
    SaveConfirmationMails(id, CalendarLink(a, None));
    MailsOfCons(confirm, [notify]);
    OnlyConfirmationsAppend(EventMails(confirm), EventMails(notify));
    if signalConnected {
      assert BookingEvents(id, a, signalConnected) == [notify] + [confirm, notify];
      MailsOfCons(notify, [confirm, notify]);
      OnlyConfirmationsAppend(EventMails(notify), MailsOf([confirm, notify]));
    } else {
      assert BookingEvents(id, a, signalConnected) == [confirm] + [notify];
    }
  }

  datatype CancelResult = CancelNotFound | CancelForbidden | CancelPage | NotCancellable | Cancelled

  /** `cancel_appointment`'s outcome, checks in the source's order: 404, the
      permission rule, the request method, then `can_be_cancelled`. */
  function CancelOutcome(records: seq<Appointment>, req: Requester, pk: nat, isPost: bool, now: int): (r: CancelResult)
    ensures r == CancelNotFound <==> pk >= |records|
    ensures pk < |records| ==> (r == CancelForbidden <==> !MayAccess(req, records[pk]))
    ensures r == Cancelled <==>
              pk < |records| && MayAccess(req, records[pk]) && isPost && CanBeCancelled(records[pk], now)
    ensures r == CancelPage ==> !isPost
  {
    if pk >= |records| then CancelNotFound
    else if !MayAccess(req, records[pk]) then CancelForbidden
    else if !isPost then CancelPage
    else if !CanBeCancelled(records[pk], now) then NotCancellable
    else Cancelled
  }

  /** Only the patient or the provider can cancel, only by POST, and a
      completed, cancelled, missed or already started appointment never. */
  lemma CancelRequiresOwnerPostAndCancellable(records: seq<Appointment>, req: Requester, pk: nat, isPost: bool, now: int)
    requires pk < |records|
    ensures !MayAccess(req, records[pk]) ==> CancelOutcome(records, req, pk, isPost, now) == CancelForbidden
    ensures MayAccess(req, records[pk]) && !isPost ==> CancelOutcome(records, req, pk, isPost, now) == CancelPage
    ensures records[pk].status in {COMPLETED, CANCELLED, NO_SHOW} || Start(records[pk]) <= now ==>
              CancelOutcome(records, req, pk, isPost, now) != Cancelled
  {
  }

  /** Overwriting one row's status with a declared status other than
      SCHEDULED keeps the store's invariant. */
  lemma SetStatusKeepsInvariant(records: seq<Appointment>, pk: nat, status: string)
    requires pk < |records| && NoDoubleBooking(records) && StatusesDeclared(records)
    requires IsStatusChoice(status) && status != SCHEDULED
    ensures records[pk := records[pk].(status := status)] == BulkSetStatus(records, {pk}, status)
    ensures NoDoubleBooking(records[pk := records[pk].(status := status)])
    ensures StatusesDeclared(records[pk := records[pk].(status := status)])
  {
    BulkUpdateKeepsInvariant(records, {pk}, status);
  }

  function ReminderEvents(ids: seq<nat>): (events: seq<Event>)
    ensures |events| == |ids| && forall k :: 0 <= k < |ids| ==> events[k] == Notify(ids[k], "reminder")
  {
    seq(|ids|, k requires 0 <= k < |ids| => Notify(ids[k], "reminder"))
  }

  /** What one more turn of the reminder loop adds. */
  lemma ReminderStep(due: seq<nat>, k: nat, failing: set<nat>)
    requires k < |due|
    ensures |Succeeded(due[..k + 1], failing)| == |Succeeded(due[..k], failing)| + (if due[k] in failing then 0 else 1)
    ensures ReminderEvents(Succeeded(due[..k + 1], failing))
            == ReminderEvents(Succeeded(due[..k], failing)) + (if due[k] in failing then [] else [Notify(due[k], "reminder")])
    ensures ProgressLines(due[..k + 1], failing)
            == ProgressLines(due[..k], failing) + [if due[k] in failing then FailedLine(due[k]) else SentLine(due[k])]
  {
    assert due[..k + 1][..k] == due[..k];
    var done := Succeeded(due[..k], failing);
    if due[k] in failing {
      assert Succeeded(due[..k + 1], failing) == done + [] == done;
    } else {
      assert Succeeded(due[..k + 1], failing) == done + [due[k]];
    }
  }

  class Store {
    var records: seq<Appointment>
    var log: seq<Event>
    /** Whether appointments/signals.py is imported at start-up, which connects its receiver. */
    const signalConnected: bool

    /** At most one SCHEDULED appointment per slot, and only declared statuses. */
    ghost predicate Valid()
      reads this
    {
      NoDoubleBooking(records) && StatusesDeclared(records)
    }

    constructor (signalConnected: bool)
      ensures Valid() && records == [] && log == [] && this.signalConnected == signalConnected
    {
      records := [];
      log := [];
      this.signalConnected := signalConnected;
    }

    /** `Appointment.save`: `pk` is None for a new record. The row is written
        first and the mails come after it; a mail failure is silent and never
        undoes the write. */
    method Save(pk: Option<nat>, a: Appointment) returns (id: nat)
      requires pk.Some? ==> pk.value < |records|
      modifies this
      ensures pk.None? ==> id == |old(records)| && records == old(records) + [a]
      ensures pk.Some? ==> id == pk.value && records == old(records)[id := a]
      ensures log == old(log) + SaveEvents(id, a, if pk.None? then None else Some(old(records)[id].status), signalConnected)
    {
      var stored: Option<string>;
      if pk.None? {
        stored := None;
        id := |records|;
        records := records + [a];
      } else {
        id := pk.value;
        stored := Some(records[id].status);
        records := records[id := a];
      }
      if signalConnected {
        var received := ReceiverNotification(stored.None?, Some(records[id].status), a.status);
        if received.Some? {
          log := log + [Notify(id, received.value)];
        }
      }
      var mails := SaveMails(stored, a.status);
      if mails != [] && mails[0].Confirmation? {
        log := log + [ConfirmationEmails(id, CalendarLink(a, None))];
      } else if mails != [] {
        log := log + [StatusUpdateEmail(id, mails[0].status)];
      }
    }

    /** `book_appointment`: a new SCHEDULED row for the requesting user only
        when the availability check passes; otherwise nothing changes. */
    method BookAppointment(user: nat, form: Option<BookingForm>, now: int) returns (r: BookResult)
      modifies this
      ensures old(Valid()) ==> Valid()
      ensures r == BookOutcome(old(records), form, now)
      ensures !r.Booked? ==> records == old(records) && log == old(log)
      ensures r.Booked? ==> records == old(records) + [BookedRecord(user, form.value)]
                            && log == old(log) + BookingEvents(r.id, BookedRecord(user, form.value), signalConnected)
    {
      r := BookOutcome(records, form, now);
      if r.Booked? {
        var a := BookedRecord(user, form.value);
        if NoDoubleBooking(records) {
          BookingKeepsSlotsUnique(records, a, now);
        }
        var id := Save(None, a);
        log := log + [Notify(id, "confirmation")];
      }
    }

    /** `cancel_appointment`: a POST by the patient or the provider of a
        cancellable appointment sets its status to CANCELLED and nothing else;
        every other request changes nothing. */
    method CancelAppointment(req: Requester, pk: nat, isPost: bool, now: int) returns (r: CancelResult)
      modifies this
      ensures old(Valid()) ==> Valid()
      ensures r == CancelOutcome(old(records), req, pk, isPost, now)
      ensures r != Cancelled ==> records == old(records) && log == old(log)
      ensures r == Cancelled ==>
                records == old(records)[pk := old(records)[pk].(status := CANCELLED)]
                && log == old(log) + [StatusUpdateEmail(pk, CANCELLED), Notify(pk, "cancellation")]
    {
      r := CancelOutcome(records, req, pk, isPost, now);
      if r == Cancelled {
        var a := records[pk].(status := CANCELLED);
        if Valid() {
          SetStatusKeepsInvariant(records, pk, CANCELLED);
        }
        SaveEventsExplained(pk, a, Some(records[pk].status), signalConnected);
        var id := Save(Some(pk), a);
        log := log + [Notify(id, "cancellation")];
      }
    }

    /** The admin's bulk update: every selected row gets `status`, the count
        is the number of rows selected, and no mail goes out because the bulk
        update bypasses `save`. */
    method BulkUpdate(selected: set<nat>, status: string) returns (updated: nat)
      requires IsStatusChoice(status) && status != SCHEDULED
      requires forall i | i in selected :: i < |records|
      modifies this`records
      ensures old(Valid()) ==> Valid()
      ensures records == BulkSetStatus(old(records), selected, status)
      ensures updated == |selected|
    {
      if Valid() {
        BulkUpdateKeepsInvariant(records, selected, status);
      }
      records := BulkSetStatus(records, selected, status);
      updated := |selected|;
    }

    /** `mark_as_completed`. */
    method MarkAsCompleted(selected: set<nat>) returns (updated: nat)
      requires forall i | i in selected :: i < |records|
      modifies this`records
      ensures old(Valid()) ==> Valid()
      ensures records == BulkSetStatus(old(records), selected, COMPLETED) && log == old(log)
      ensures updated == |selected|
    {
      updated := BulkUpdate(selected, COMPLETED);
    }

    /** `mark_as_no_show`. */
    method MarkAsNoShow(selected: set<nat>) returns (updated: nat)
      requires forall i | i in selected :: i < |records|
      modifies this`records
      ensures old(Valid()) ==> Valid()
      ensures records == BulkSetStatus(old(records), selected, NO_SHOW) && log == old(log)
      ensures updated == |selected|
    {
      updated := BulkUpdate(selected, NO_SHOW);
    }

    /** `Command.handle`: one reminder attempt per appointment due tomorrow. An
        attempt whose send raises (its id is in `failing`) is reported and
        skipped; the loop goes on with the rest. The count is the number of
        reminders that went out. Rows are never written. On `date.max` the
        computation of tomorrow raises and nothing is sent. */
    method SendReminders(today: Date, failing: set<nat>) returns (run: ReminderRun)
      modifies this`log
      ensures run == TomorrowOverflow <==> AddDaysOverflows(today, 1)
      ensures run == TomorrowOverflow ==> log == old(log)
      ensures run.Ran? ==>
                log == old(log) + ReminderEvents(Succeeded(ReminderSelection(records, today), failing))
                && run.sent == |Succeeded(ReminderSelection(records, today), failing)|
                && run.sent <= |ReminderSelection(records, today)|
                && run.output == ProgressLines(ReminderSelection(records, today), failing) + [SummaryLine(run.sent)]
    {
      if AddDaysOverflows(today, 1) {
        return TomorrowOverflow;
      }
      var due := ReminderSelection(records, today);
      var sent, output := RemindEach(due, failing);
      run := Ran(sent, output + [SummaryLine(sent)]);
    }

    /** The loop of `Command.handle` over the selected rows. */
    method RemindEach(due: seq<nat>, failing: set<nat>) returns (sent: nat, output: seq<OutputLine>)
      modifies this`log
      ensures log == old(log) + ReminderEvents(Succeeded(due, failing))
      ensures sent == |Succeeded(due, failing)|
      ensures output == ProgressLines(due, failing)
    {
      sent := 0;
      output := [];
      for k := 0 to |due|
        invariant log == old(log) + ReminderEvents(Succeeded(due[..k], failing))
        invariant sent == |Succeeded(due[..k], failing)|
        invariant output == ProgressLines(due[..k], failing)
      {
        ReminderStep(due, k, failing);
        if due[k] !in failing {
          log := log + [Notify(due[k], "reminder")];
          sent := sent + 1;
          output := output + [SentLine(due[k])];
        } else {
          output := output + [FailedLine(due[k])];
        }
      }
      assert due[..|due|] == due;
    }
  }
}
