/** The read-only views of appointments/views.py: the permission rule shared
    by the detail and cancel views, the detail view, the patient's or
    provider's appointment list, and the provider's weekly schedule. Each
    listing is a filter over the store followed by a sort on (date, time).
    Booking and cancelling change the store and are methods of
    `AppointmentStore.Store`. */
module AppointmentViews {
  import opened Calendar
  import opened Common
  import opened AppointmentModel
  import opened AppointmentUtils

  /** The logged-in user of a request: a user id and, when the user has one,
      the id of their provider profile. */
  datatype Requester = Requester(user: nat, providerProfile: Option<nat>)

  /** The permission rule of `appointment_detail` and `cancel_appointment`: the
      user is the appointment's patient, or the user's provider profile is the
      appointment's provider. */
  predicate MayAccess(req: Requester, a: Appointment) {
    req.user == a.patient || (req.providerProfile.Some? && req.providerProfile.value == a.provider)
  }

  datatype DetailResult = DetailNotFound | DetailForbidden | DetailPage(shown: Appointment) | ICalDownload(event: CalendarEvent)

  /** `appointment_detail`: 404 for an unknown key, a refusal for a user who is
      neither patient nor provider, otherwise the page or, when asked, the
      iCal file. */
  function AppointmentDetail(records: seq<Appointment>, req: Requester, pk: nat, downloadIcal: bool,
                             officeAddress: Option<string>): (r: DetailResult)
    ensures pk >= |records| <==> r == DetailNotFound
    ensures pk < |records| ==> (r == DetailForbidden <==> !MayAccess(req, records[pk]))
    ensures r.DetailPage? ==> pk < |records| && r.shown == records[pk] && !downloadIcal
    ensures r.ICalDownload? ==> pk < |records| && downloadIcal && r.event == ICalEvent(records[pk], officeAddress)
  {
    if pk >= |records| then DetailNotFound
    else if !MayAccess(req, records[pk]) then DetailForbidden
    else if downloadIcal then ICalDownload(ICalEvent(records[pk], officeAddress))
    else DetailPage(records[pk])
  }

  predicate InRange(records: seq<Appointment>, ids: seq<nat>) {
    forall k :: 0 <= k < |ids| ==> ids[k] < |records|
  }

  /** The primary keys of the rows satisfying `p`, in increasing order. */
  function IdsWhere(records: seq<Appointment>, p: Appointment -> bool): (ids: seq<nat>)
    ensures InRange(records, ids)
    ensures forall k :: 0 <= k < |ids| ==> p(records[ids[k]])
    ensures forall i :: 0 <= i < |records| && p(records[i]) ==> i in ids
    ensures forall k, l :: 0 <= k < l < |ids| ==> ids[k] < ids[l]
  {
    if records == [] then []
    else
      var last := |records| - 1;
      var front := IdsWhere(records[..last], p);
      assert forall k :: 0 <= k < |front| ==> records[front[k]] == records[..last][front[k]];
      front + (if p(records[last]) then [last] else [])
  }

  /** A strictly increasing sequence holds each value at most once. */
  lemma {:induction false} IncreasingHasNoRepeats(s: seq<nat>)
    requires forall k, l :: 0 <= k < l < |s| ==> s[k] < s[l]
    ensures forall x :: multiset(s)[x] <= 1
  {
    if s != [] {
      IncreasingHasNoRepeats(s[1..]);
      assert s == [s[0]] + s[1..];
      assert s[0] !in s[1..];
    }
  }

  /** The sort key of every row: its start, date first and time second. */
  function StartKeys(records: seq<Appointment>): (keys: seq<int>)
    ensures |keys| == |records| && forall i :: 0 <= i < |records| ==> keys[i] == Start(records[i])
  {
    seq(|records|, i requires 0 <= i < |records| => Start(records[i]))
  }

  predicate Ascending(keys: seq<int>, ids: seq<nat>) {
    (forall k :: 0 <= k < |ids| ==> ids[k] < |keys|)
    && forall k, l :: 0 <= k < l < |ids| ==> keys[ids[k]] <= keys[ids[l]]
  }

  predicate Descending(keys: seq<int>, ids: seq<nat>) {
    (forall k :: 0 <= k < |ids| ==> ids[k] < |keys|)
    && forall k, l :: 0 <= k < l < |ids| ==> keys[ids[k]] >= keys[ids[l]]
  }

  /** Putting in front a key no larger than any other keeps the order. */
  lemma ConsAscending(keys: seq<int>, h: nat, rest: seq<nat>)
    requires h < |keys| && Ascending(keys, rest)
    requires forall k :: 0 <= k < |rest| ==> keys[h] <= keys[rest[k]]
    ensures Ascending(keys, [h] + rest)
  {
    var r := [h] + rest;
    forall k, l | 0 <= k < l < |r|
      ensures keys[r[k]] <= keys[r[l]]
    {
      assert r[l] == rest[l - 1];
      if k > 0 {
        assert r[k] == rest[k - 1];
      }
    }
  }

  /** A bound on the keys of a collection carries over to any sequence with
      the same elements. */
  lemma KeysBoundedBelow(keys: seq<int>, low: int, tail: seq<nat>, x: nat, rest: seq<nat>)
    requires multiset(rest) == multiset(tail) + multiset{x}
    requires x < |keys| && low <= keys[x]
    requires forall k :: 0 <= k < |tail| ==> tail[k] < |keys| && low <= keys[tail[k]]
    ensures forall k :: 0 <= k < |rest| ==> rest[k] < |keys| && low <= keys[rest[k]]
  {
    forall k | 0 <= k < |rest|
      ensures rest[k] < |keys| && low <= keys[rest[k]]
    {
      assert rest[k] in multiset(rest);
      if rest[k] != x {
        assert rest[k] in multiset(tail);
        var m :| 0 <= m < |tail| && tail[m] == rest[k];
      }
    }
  }

  function InsertByKey(keys: seq<int>, x: nat, sorted: seq<nat>): (r: seq<nat>)
    requires x < |keys| && Ascending(keys, sorted)
    ensures multiset(r) == multiset(sorted) + multiset{x}
    ensures Ascending(keys, r)
  {
    if sorted == [] || keys[x] <= keys[sorted[0]] then
      ConsAscending(keys, x, sorted);
      [x] + sorted
    else
      var tail := sorted[1..];
      var rest := InsertByKey(keys, x, tail);
      assert sorted == [sorted[0]] + tail;
      KeysBoundedBelow(keys, keys[sorted[0]], tail, x, rest);
      ConsAscending(keys, sorted[0], rest);
      [sorted[0]] + rest
  }

  /** Sorting by key, smallest first; the order among equal keys is left open,
      as the database leaves it. */
  function SortByKey(keys: seq<int>, ids: seq<nat>): (r: seq<nat>)
    requires forall k :: 0 <= k < |ids| ==> ids[k] < |keys|
    ensures multiset(r) == multiset(ids)
    ensures Ascending(keys, r)
  {
    if ids == [] then []
    else
      assert ids == [ids[0]] + ids[1..];
      InsertByKey(keys, ids[0], SortByKey(keys, ids[1..]))
  }

  function Reverse(s: seq<nat>): (r: seq<nat>)
    ensures |r| == |s| && multiset(r) == multiset(s)
    ensures forall k :: 0 <= k < |s| ==> r[k] == s[|s| - 1 - k]
  {
    if s == [] then []
    else
      assert s == [s[0]] + s[1..];
      Reverse(s[1..]) + [s[0]]
  }

  /** Sorting by key, largest first. */
  function SortByKeyDescending(keys: seq<int>, ids: seq<nat>): (r: seq<nat>)
    requires forall k :: 0 <= k < |ids| ==> ids[k] < |keys|
    ensures multiset(r) == multiset(ids)
    ensures Descending(keys, r)
  {
    var up := SortByKey(keys, ids);
    var r := Reverse(up);
    assert forall k :: 0 <= k < |r| ==> r[k] == up[|up| - 1 - k];
    r
  }

  /** Any reordering of a selection lists exactly the selected rows, once each. */
  lemma ReorderedSelection(records: seq<Appointment>, p: Appointment -> bool, listed: seq<nat>)
    requires multiset(listed) == multiset(IdsWhere(records, p))
    ensures forall i :: i in listed <==> 0 <= i < |records| && p(records[i])
    ensures forall i :: multiset(listed)[i] <= 1
  {
    var ids := IdsWhere(records, p);
    IncreasingHasNoRepeats(ids);
    forall i ensures i in listed <==> i in ids {
      assert i in listed <==> i in multiset(listed);
      assert i in ids <==> i in multiset(ids);
    }
  }

  /** Whose appointments a user sees: a provider those booked with their
      profile, anyone else those where they are the patient. */
  predicate Owns(req: Requester, a: Appointment) {
    if req.providerProfile.Some? then a.provider == req.providerProfile.value else a.patient == req.user
  }

  predicate ListedUpcoming(req: Requester, today: Date, a: Appointment) {
    Owns(req, a) && !Before(a.date, today) && a.status == SCHEDULED
  }

  predicate ListedPast(req: Requester, today: Date, a: Appointment) {
    Owns(req, a) && Before(a.date, today)
  }

  /** `appointment_list`: "upcoming" holds the user's SCHEDULED appointments
      dated today or later, earliest first; "past" holds the user's
      appointments dated before today whatever their status, latest first.
      Each row is listed at most once, and never in both lists. */
  function AppointmentList(records: seq<Appointment>, req: Requester, today: Date): (lists: (seq<nat>, seq<nat>))
    ensures forall i :: i in lists.0 <==> 0 <= i < |records| && ListedUpcoming(req, today, records[i])
    ensures forall i :: i in lists.1 <==> 0 <= i < |records| && ListedPast(req, today, records[i])
    ensures Ascending(StartKeys(records), lists.0) && Descending(StartKeys(records), lists.1)
    ensures forall i :: multiset(lists.0)[i] <= 1 && multiset(lists.1)[i] <= 1
    ensures forall i :: !(i in lists.0 && i in lists.1)
  {
    var keys := StartKeys(records);
    var upcoming := a => ListedUpcoming(req, today, a);
    var past := a => ListedPast(req, today, a);
    var lists := (SortByKey(keys, IdsWhere(records, upcoming)), SortByKeyDescending(keys, IdsWhere(records, past)));
    ReorderedSelection(records, upcoming, lists.0);
    ReorderedSelection(records, past, lists.1);
    lists
  }

  predicate InScheduleWindow(profile: nat, start: Date, a: Appointment) {
    a.provider == profile && Ordinal(start) <= Ordinal(a.date) <= Ordinal(start) + 7 && a.status == SCHEDULED
  }

  datatype ScheduleResult =
    | NotAProvider
    | EndDateOverflow                 // `start_date + timedelta(days=7)` raised
    | Schedule(appointments: seq<nat>, start: Date, endOrdinal: int)

  /** `provider_schedule`: refused for a user without a provider profile; an
      OverflowError when the end of the window would pass `date.max`;
      otherwise the provider's SCHEDULED appointments from the start date (the
      requested one, or today) to seven days later, both ends included,
      earliest first. */
  function ProviderSchedule(records: seq<Appointment>, req: Requester, today: Date, startDate: Option<Date>): (r: ScheduleResult)
    ensures r == NotAProvider <==> req.providerProfile.None?
    ensures r == EndDateOverflow <==>
              req.providerProfile.Some? && AddDaysOverflows(if startDate.Some? then startDate.value else today, 7)
    ensures r.Schedule? ==>
              r.start == (if startDate.Some? then startDate.value else today)
              && r.endOrdinal == Ordinal(r.start) + 7 && r.endOrdinal <= MAX_ORDINAL
              && (forall i :: i in r.appointments <==>
                    0 <= i < |records| && InScheduleWindow(req.providerProfile.value, r.start, records[i]))
              && Ascending(StartKeys(records), r.appointments)
              && forall i :: multiset(r.appointments)[i] <= 1
  {
    match req.providerProfile
    case None => NotAProvider
    case Some(profile) =>
      var start := if startDate.Some? then startDate.value else today;
      if AddDaysOverflows(start, 7) then EndDateOverflow
      else
        var inWindow := a => InScheduleWindow(profile, start, a);
        var sorted := SortByKey(StartKeys(records), IdsWhere(records, inWindow));
        ReorderedSelection(records, inWindow, sorted);
        Schedule(sorted, start, Ordinal(start) + 7)
  }
}
