/** appointments/signals.py: the post-save receiver that picks a notification
    type for a saved appointment. */
module AppointmentSignals {
  import opened Common
  import opened AppointmentModel

  /** `appointment_notification`. `stored` is the status the receiver reads
      back from the table (None when the row is missing, the `DoesNotExist`
      branch). A created row gets a confirmation; an updated row gets a
      notification only when the stored status differs from the instance's and
      the instance is CANCELLED or RESCHEDULED. */
  function ReceiverNotification(created: bool, stored: Option<string>, instanceStatus: string): (kind: Option<string>)
    ensures created ==> kind == Some("confirmation")
    ensures !created && (stored.None? || stored == Some(instanceStatus)) ==> kind == None
    ensures !created && stored.Some? && stored.value != instanceStatus ==>
              (kind == Some("cancellation") <==> instanceStatus == CANCELLED)
              && (kind == Some("rescheduled") <==> instanceStatus == "RESCHEDULED")
              && (kind.Some? <==> instanceStatus == CANCELLED || instanceStatus == "RESCHEDULED")
  {
    if created then Some("confirmation")
    else match stored
      case None => None
      case Some(s) =>
        if s != instanceStatus then
          if instanceStatus == CANCELLED then Some("cancellation")
          else if instanceStatus == "RESCHEDULED" then Some("rescheduled")
          else None
        else None
  }

  /** The receiver runs after the row is written, so the status it reads back
      is the instance's own: on update it never sends anything. */
  lemma UpdateIsSilentAfterSave(status: string)
    ensures ReceiverNotification(false, Some(status), status) == None
  {
  }

  /** RESCHEDULED is not a declared status, so a record with a declared status
      never yields a "rescheduled" notification; COMPLETED and NO_SHOW yield none. */
  lemma RescheduledUnreachable(created: bool, stored: Option<string>, status: string)
    requires IsStatusChoice(status)
    ensures ReceiverNotification(created, stored, status) != Some("rescheduled")
    ensures !created && (status == COMPLETED || status == NO_SHOW) ==> ReceiverNotification(created, stored, status) == None
  {
  }
}
