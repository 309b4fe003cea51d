/** appointments/management/commands/send_appointment_reminders.py: which
    appointments the daily job reminds, and what it reports. The loop itself
    is `AppointmentStore.Store.SendReminders`. */
module ReminderCommand {
  import opened Calendar
  import opened Common
  import opened AppointmentModel
  import opened AppointmentViews

  /** Dated tomorrow (`today + timedelta(days=1)`) and still SCHEDULED. */
  predicate DueTomorrow(today: Date, a: Appointment) {
    DaysAfter(a.date, today, 1) && a.status == SCHEDULED
  }

  /** The job's query, in primary-key order. */
  function ReminderSelection(records: seq<Appointment>, today: Date): (ids: seq<nat>)
    ensures forall i :: i in ids <==> 0 <= i < |records| && DueTomorrow(today, records[i])
    ensures forall k, l :: 0 <= k < l < |ids| ==> ids[k] < ids[l]
  {
    IdsWhere(records, a => DueTomorrow(today, a))
  }

  /** The selected rows whose send did not raise, in processing order. */
  function Succeeded(ids: seq<nat>, failing: set<nat>): (sent: seq<nat>)
    ensures |sent| <= |ids|
  {
    if ids == [] then []
    else
      var last := |ids| - 1;
      Succeeded(ids[..last], failing) + (if ids[last] in failing then [] else [ids[last]])
  }

  /** The reminded rows are exactly the selected rows whose send did not raise. */
  lemma {:induction false} SucceededMembers(ids: seq<nat>, failing: set<nat>)
    ensures forall i :: i in Succeeded(ids, failing) <==> i in ids && i !in failing
  {
    if ids != [] {
      var last := |ids| - 1;
      SucceededMembers(ids[..last], failing);
      assert ids == ids[..last] + [ids[last]];
    }
  }

  /** One console line per processed appointment, then the total. */
  datatype OutputLine = SentLine(id: nat) | FailedLine(id: nat) | SummaryLine(count: nat)

  /** How a run of the job ends: `today + timedelta(days=1)` raised before
      anything was selected, or the loop ran with this count and output. */
  datatype ReminderRun = TomorrowOverflow | Ran(sent: nat, output: seq<OutputLine>)

  function ProgressLines(ids: seq<nat>, failing: set<nat>): (lines: seq<OutputLine>)
    ensures |lines| == |ids|
    ensures forall k :: 0 <= k < |ids| ==>
              lines[k] == (if ids[k] in failing then FailedLine(ids[k]) else SentLine(ids[k]))
  {
    if ids == [] then []
    else
      var last := |ids| - 1;
      ProgressLines(ids[..last], failing) + [if ids[last] in failing then FailedLine(ids[last]) else SentLine(ids[last])]
  }

  /** When nothing fails, every selected appointment is reminded. */
  lemma {:induction false} NothingFailsAllSent(ids: seq<nat>, failing: set<nat>)
    requires forall k :: 0 <= k < |ids| ==> ids[k] !in failing
    ensures Succeeded(ids, failing) == ids
  {
    if ids != [] {
      var last := |ids| - 1;
      NothingFailsAllSent(ids[..last], failing);
      assert ids == ids[..last] + [ids[last]];
    }
  }
}
