/** appointments/admin.py: the status badge of the admin list and the two bulk
    actions that overwrite the status of the selected rows. */
module AppointmentAdmin {
  import opened Common
  import opened AppointmentModel

  /** `status_badge`: the badge colour of a status, "secondary" for anything
      outside the declared choices. */
  function StatusBadge(status: string): (badge: string)
    ensures badge == "secondary" <==> !IsStatusChoice(status)
    ensures IsStatusChoice(status) ==> BadgeStatus(badge) == status
  {
    if status == SCHEDULED then "success"
    else if status == COMPLETED then "info"
    else if status == CANCELLED then "danger"
    else if status == NO_SHOW then "warning"
    else "secondary"
  }

  /** Reads a badge colour back as the status it stands for. */
  function BadgeStatus(badge: string): string {
    if badge == "success" then SCHEDULED
    else if badge == "info" then COMPLETED
    else if badge == "danger" then CANCELLED
    else if badge == "warning" then NO_SHOW
    else ""
  }

  /** Distinct declared statuses never share a badge. */
  lemma BadgesDistinct(s1: string, s2: string)
    requires IsStatusChoice(s1) && IsStatusChoice(s2) && s1 != s2
    ensures StatusBadge(s1) != StatusBadge(s2)
  {
    assert BadgeStatus(StatusBadge(s1)) == s1 && BadgeStatus(StatusBadge(s2)) == s2;
  }

  /** `queryset.update(status=...)`: every selected row gets the new status,
      whatever it had; nothing else changes. */
  function BulkSetStatus(records: seq<Appointment>, selected: set<nat>, status: string): (r: seq<Appointment>)
    ensures |r| == |records|
    ensures forall i :: 0 <= i < |records| ==>
              r[i] == (if i in selected then records[i].(status := status) else records[i])
  {
    seq(|records|, i requires 0 <= i < |records| => if i in selected then records[i].(status := status) else records[i])
  }

  /** Moving rows to a status other than SCHEDULED keeps slots unique, and a
      declared target status keeps every status declared. */
  lemma BulkUpdateKeepsInvariant(records: seq<Appointment>, selected: set<nat>, status: string)
    requires NoDoubleBooking(records) && StatusesDeclared(records)
    requires IsStatusChoice(status) && status != SCHEDULED
    ensures NoDoubleBooking(BulkSetStatus(records, selected, status))
    ensures StatusesDeclared(BulkSetStatus(records, selected, status))
  {
    var r := BulkSetStatus(records, selected, status);
    forall i, j | 0 <= i < j < |r| && r[i].status == SCHEDULED && r[j].status == SCHEDULED
      && r[i].provider == r[j].provider && r[i].date == r[j].date
      ensures r[i].time != r[j].time
    {
      assert r[i] == records[i] && r[j] == records[j];
    }
  }

  /** Running the same action twice is the same as running it once. */
  lemma BulkSetStatusIdempotent(records: seq<Appointment>, selected: set<nat>, status: string)
    ensures BulkSetStatus(BulkSetStatus(records, selected, status), selected, status) == BulkSetStatus(records, selected, status)
  {
  }
}
