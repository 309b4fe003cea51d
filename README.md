# MediConnect (Healthcore) in Dafny

A model of the behaviour at the centre of the Healthcore Django project: the
appointment lifecycle and the small accounts and patients cores around it.

- **Appointments.** The appointment store is the class
  `AppointmentStore.Store`. It holds the appointment table as a sequence,
  where a row's primary key is its position, and an append-only log of
  mail dispatches. Its methods are the operations that write the table:
  - `Appointment.save`, with the post-save receiver when it is connected;
  - booking and cancelling;
  - the two bulk admin actions;
  - the daily reminder job.

  Two invariants describe a sound table. There is at most one SCHEDULED
  appointment per (provider, date, time), and every stored status is a
  declared choice. `save` itself, like the source's, does not enforce them:
  it writes whatever row it is given, and the admin's change form reaches it.
  Booking, cancelling and the bulk admin actions therefore run on any table,
  and keep both invariants whenever they held before.
  The read-only parts are functions, each proved against its rule: the
  availability check, the permission rule, the detail view, the list and
  schedule filters with their orderings, the status badge, the notification
  subjects and recipients, and the signal receiver's decision.
- **Accounts.** The class `AccountsViews.Directory` holds the users and the
  verification mails sent. Registration stores a token, following the mailed
  link verifies the user and clears the token, and login is refused until
  then. The role decorators and the dashboard routing are functions over
  `user_type`. The registration form's e-mail check and its `save` are in
  `AccountsForms`. `full_name` and `age` are in `AccountsModel`.
- **Patients.** The class `PatientsViews.Registry` holds the patient
  records, at most one per user. The admin writes that table without the
  form's height and weight rules, so the two views run on any table with
  one record per user, and keep every record valid when they all were
  before. The record's choices, `get_age` and the
  phone-number validator are in `PatientsModel`. The form rules are in
  `PatientsForms`.

Dates are (year, month, day) triples compared as Python compares `date`
objects. Day arithmetic goes through Python's `toordinal`. Times are kept to
the minute. "Now" is a count of whole minutes and is passed in as a
parameter, like "today".

`get_calendar_link` (appointments/models.py:118) reads
`provider.office_address`, which `ProviderProfile` (accounts/models.py:74-85)
does not declare; see Findings.

## Model

| member | source | states |
|---|---|---|
| AppointmentModel.StatusDisplay | Healthcore/appointments/models.py:10-15 | SCHEDULED, COMPLETED, CANCELLED and NO_SHOW are shown as "Scheduled", "Completed", "Cancelled" and "No Show"; an undeclared code is shown as it is |
| AppointmentModel.StatusLabelsDistinct | Healthcore/appointments/models.py:10-15 | distinct declared statuses have distinct labels, and no label is itself a declared code |
| AppointmentModel.IsUpcoming | Healthcore/appointments/models.py:124-130 | the combination of the appointment's date and time lies strictly after now |
| AppointmentModel.CanBeCancelled | Healthcore/appointments/models.py:132-134 | upcoming and still SCHEDULED (its consequences are CancellableExactly and CancellableEarlier) |
| AppointmentModel.NewAppointment | Healthcore/appointments/models.py:24-31 | a new record starts SCHEDULED (a declared status) and carries the given patient, provider, date, time, type, reason and notes |
| AppointmentModel.CancellableExactly | Healthcore/appointments/models.py:124-134 | cancellable iff SCHEDULED and starting strictly after now; COMPLETED, CANCELLED, NO_SHOW or already-started appointments never are |
| AppointmentModel.CancellableEarlier | Healthcore/appointments/models.py:124-134 | an appointment cancellable at some moment was cancellable at every earlier moment |
| AppointmentModel.ConfirmationMails | Healthcore/appointments/models.py:59-85 | two mails with subject "Appointment Confirmation", the first to the patient, the second to the provider |
| AppointmentModel.StatusUpdateMail | Healthcore/appointments/models.py:87-100 | one mail addressed to both patient and provider, its subject naming the display label of the new status |
| AppointmentModel.SaveMails | Healthcore/appointments/models.py:41-57 | a new record gets exactly the confirmation; an existing one never gets a confirmation, gets exactly one status update carrying the new status when the stored status differs, and nothing when it is the same |
| AppointmentModel.ResaveIsSilent | Healthcore/appointments/models.py:44-57 | re-saving with an unchanged status decides on no mail |
| AppointmentModel.CalendarLinkAsWritten | Healthcore/appointments/models.py:102-122 | fails with an attribute error iff the provider has no office address; otherwise the entry starts at the appointment and ends 30 minutes later |
| AppointmentModel.CalendarLinkAsWrittenRaises | Healthcore/appointments/models.py:118 | for a provider without an office address (every ProviderProfile), building the link raises |
| AppointmentModel.CalendarLink | Healthcore/appointments/models.py:102-122 | never fails; 30 minutes from the start; "TBD" without an address; agrees with the as-written link whenever that one succeeds |
| AppointmentUtils.NotificationSubject | Healthcore/appointments/utils.py:22-35 | a subject exists iff the type is confirmation, reminder, cancellation or rescheduled; each of the four gets its own subject, "Appointment Confirmation", "Appointment Reminder", "Appointment Cancellation" or "Appointment Rescheduled" |
| AppointmentUtils.NotificationMails | Healthcore/appointments/utils.py:8-58 | an unknown type sends nothing; a known type sends exactly two mails, patient first, then provider, whose subject is the patient's prefixed "Provider: " |
| AppointmentUtils.NotificationSubjectsDistinct | Healthcore/appointments/utils.py:22-33 | different notification types have different subjects |
| AppointmentUtils.ICalEvent | Healthcore/appointments/utils.py:60-89 | DTEND is DTSTART plus 30 minutes; LOCATION is the office address or "TBD" |
| AppointmentUtils.AvailabilityReply | Healthcore/appointments/utils.py:91-117 | the reply's flag is true iff the outcome is Available; each outcome carries its own message (available, past, outside 9 AM to 5 PM, already booked) |
| AppointmentUtils.AvailabilityRepliesDistinct | Healthcore/appointments/utils.py:100-117 | each outcome has its own message |
| AppointmentUtils.SlotBooked | Healthcore/appointments/utils.py:107-112 | true iff some row is SCHEDULED for the same provider, date and exact time |
| AppointmentUtils.ReplyNamesFirstFailingRule | Healthcore/appointments/utils.py:91-117 | the past-booking message comes back iff the start is at or before now; the working-hours message iff not past and outside hours; the already-booked message iff neither and a SCHEDULED row holds the slot |
| AppointmentUtils.CheckAvailability | Healthcore/appointments/utils.py:91-117 | InPast iff the start is at or before now; OutsideWorkingHours iff not past and hour outside 9..16; SlotTaken iff neither and a SCHEDULED row holds the slot; Available iff all three checks pass |
| AppointmentUtils.WorkingHoursEdges | Healthcore/appointments/utils.py:103-105 | minutes are ignored: 9:00 and 16:59 pass, 8:59 and 17:00 fail |
| AppointmentUtils.NonBlockingRowIgnored | Healthcore/appointments/utils.py:107-112 | adding a row that is not SCHEDULED for that slot never changes the answer |
| AppointmentUtils.BookingKeepsSlotsUnique | Healthcore/appointments/utils.py:107-117 | appending a record the check admitted keeps at most one SCHEDULED appointment per (provider, date, time) |
| AppointmentUtils.AdmittedSlotFitsTheDay | Healthcore/appointments/utils.py:96-105 | an admitted slot starts after now and its 30-minute entry ends on the same day by 17:29 |
| AppointmentSignals.ReceiverNotification | Healthcore/appointments/signals.py:6-23 | created gives confirmation; a missing or unchanged row gives nothing; a changed row gives cancellation iff CANCELLED, rescheduled iff RESCHEDULED, and nothing otherwise |
| AppointmentSignals.UpdateIsSilentAfterSave | Healthcore/appointments/signals.py:14-17 | reading back the row just written, the receiver sends nothing on update |
| AppointmentSignals.RescheduledUnreachable | Healthcore/appointments/signals.py:18-21 | a declared status never yields "rescheduled"; COMPLETED and NO_SHOW updates yield nothing |
| AppointmentAdmin.StatusBadge | Healthcore/appointments/admin.py:26-37 | "secondary" iff the status is undeclared; on declared statuses the colour map is inverted by BadgeStatus |
| AppointmentAdmin.BadgesDistinct | Healthcore/appointments/admin.py:27-32 | distinct declared statuses get distinct badges |
| AppointmentAdmin.BulkSetStatus | Healthcore/appointments/admin.py:43-51 | every selected row gets the new status whatever it had; unselected rows and all other fields are unchanged |
| AppointmentAdmin.BulkUpdateKeepsInvariant | Healthcore/appointments/admin.py:43-51 | moving rows to COMPLETED, CANCELLED or NO_SHOW keeps slots unique and statuses declared |
| AppointmentAdmin.BulkSetStatusIdempotent | Healthcore/appointments/admin.py:44 | running an action twice equals running it once |
| AppointmentViews.MayAccess | Healthcore/appointments/views.py:82 | the user is the appointment's patient, or has a provider profile that is the appointment's provider |
| AppointmentViews.AppointmentDetail | Healthcore/appointments/views.py:79-95 | not found iff the key is unknown; forbidden iff the user is neither patient nor provider; the page shows the row; the download is its iCal entry |
| AppointmentViews.IdsWhere | Healthcore/appointments/views.py:17-20 | the keys of exactly the rows satisfying the filter, in increasing order |
| AppointmentViews.SortByKey | Healthcore/appointments/views.py:21 | a permutation of the selection ordered by (date, time) ascending |
| AppointmentViews.SortByKeyDescending | Healthcore/appointments/views.py:25 | a permutation of the selection ordered by (date, time) descending |
| AppointmentViews.AppointmentList | Healthcore/appointments/views.py:13-40 | upcoming holds exactly the user's SCHEDULED rows dated today or later, ascending; past holds exactly the user's rows dated before today, descending; no row twice, none in both |
| AppointmentViews.ProviderSchedule | Healthcore/appointments/views.py:122-145 | refused iff the user has no provider profile; an overflow iff the start date plus seven days passes 9999-12-31; otherwise exactly the provider's SCHEDULED rows from the start date to seven days later inclusive, ascending, once each |
| Calendar.NextDayOverflowsOnlyAtMax | Healthcore/appointments/management/commands/send_appointment_reminders.py:12 | computing tomorrow overflows exactly on 9999-12-31 |
| ReminderCommand.ReminderSelection | Healthcore/appointments/management/commands/send_appointment_reminders.py:12-16 | exactly the rows dated tomorrow and SCHEDULED |
| ReminderCommand.Succeeded | Healthcore/appointments/management/commands/send_appointment_reminders.py:18-33 | never more rows are reminded than were selected |
| ReminderCommand.SucceededMembers | Healthcore/appointments/management/commands/send_appointment_reminders.py:18-33 | the reminded rows are exactly the selected rows whose send did not raise |
| ReminderCommand.ProgressLines | Healthcore/appointments/management/commands/send_appointment_reminders.py:23-33 | one line per selected row, success or failure according to its send |
| ReminderCommand.NothingFailsAllSent | Healthcore/appointments/management/commands/send_appointment_reminders.py:19-23 | when no send raises, every selected row is reminded |
| AppointmentStore.SaveEvents | Healthcore/appointments/models.py:41-57 | one save logs at most two dispatches, at most one without the receiver, all about the saved row |
| AppointmentStore.SaveEventsExplained | Healthcore/appointments/models.py:41-57 | a new row logs the receiver's confirmation (if connected) then the confirmation mails; an existing row logs one status update iff its status changed, and the receiver adds nothing |
| AppointmentStore.BookedRecord | Healthcore/appointments/views.py:61-63 | the booked row has the requesting user as patient, status SCHEDULED, and the form's provider, date, time and reason |
| AppointmentStore.BookOutcome | Healthcore/appointments/views.py:42-77 | the form is shown again exactly when there is no valid form; a present form is booked iff the availability check passes, as the next key; otherwise the refusal carries the check's own first failing rule |
| AppointmentStore.BookingMails | Healthcore/appointments/views.py:61-66 | a booking mails four confirmations (six with the receiver connected), to patient and provider, with no other subject |
| AppointmentStore.BookingConfirmsTwoOrThreeTimes | Healthcore/appointments/views.py:61-66 | a booking dispatches two confirmations, three with the receiver connected, and nothing else |
| AppointmentStore.CancelOutcome | Healthcore/appointments/views.py:97-120 | not found iff unknown key; forbidden iff neither patient nor provider; cancelled iff permitted, POST and cancellable; a non-POST only shows the page |
| AppointmentStore.CancelRequiresOwnerPostAndCancellable | Healthcore/appointments/views.py:100-107 | strangers are refused, GET only shows the page, terminal or started appointments are never cancelled |
| AppointmentStore.SetStatusKeepsInvariant | Healthcore/appointments/views.py:109-110 | cancelling one row is the one-row bulk update and keeps slots unique and statuses declared |
| AppointmentStore.Store.Save | Healthcore/appointments/models.py:41-57 | a new row is appended, an existing one overwritten, and only then are the decided mails logged |
| AppointmentStore.Store.BookAppointment | Healthcore/appointments/views.py:42-77 | appends the booked row and its confirmations only when the check passes, else changes nothing; keeps the store invariants when they held before |
| AppointmentStore.Store.CancelAppointment | Healthcore/appointments/views.py:97-120 | on success only the row's status becomes CANCELLED and a status update and a cancellation are logged; otherwise nothing changes |
| AppointmentStore.Store.BulkUpdate | Healthcore/appointments/admin.py:43-51 | the table becomes the bulk update of the selection, the count is the number selected, and the invariants are kept when they held before |
| AppointmentStore.Store.MarkAsCompleted | Healthcore/appointments/admin.py:43-46 | selected rows become COMPLETED, the count is the number selected, no mail is logged |
| AppointmentStore.Store.MarkAsNoShow | Healthcore/appointments/admin.py:48-51 | selected rows become NO_SHOW, the count is the number selected, no mail is logged |
| AppointmentStore.Store.SendReminders | Healthcore/appointments/management/commands/send_appointment_reminders.py:10-39 | raises iff today is 9999-12-31, sending nothing; otherwise one reminder per due row whose send succeeds, the count of those (at most the number due), one line per row then the total; the table is never written |
| AppointmentStore.Store.RemindEach | Healthcore/appointments/management/commands/send_appointment_reminders.py:19-33 | a failing send is reported and skipped and the loop goes on; log, count and lines match the specification functions |
| AccountsModel.NewUser | Healthcore/accounts/models.py:15-21 | a new user is unverified with an empty token and carries the given fields |
| AccountsModel.Strip | Healthcore/accounts/models.py:50 | the result is the input with leading and trailing whitespace removed, and neither ends in whitespace |
| AccountsModel.StripIdempotent | Healthcore/accounts/models.py:50 | stripping twice equals stripping once |
| AccountsModel.FullName | Healthcore/accounts/models.py:48-50 | the result is "first last" with exactly its leading and trailing whitespace removed: a contiguous piece of it, with only whitespace cut on either side and none left at either end |
| AccountsModel.FullNameOfEmptyNames | Healthcore/accounts/models.py:48-50 | two empty names give "" |
| AccountsModel.FullNameOfCleanNames | Healthcore/accounts/models.py:48-50 | clean first and last names give "first last" |
| AccountsModel.FullNameOfLastNameOnly | Healthcore/accounts/models.py:48-50 | an empty first name gives the last name alone, without the leading space |
| AccountsModel.Age | Healthcore/accounts/models.py:52-57 | None iff no date of birth; otherwise the whole-day difference floor-divided by 365 |
| AccountsModel.AgeNonNegative | Healthcore/accounts/models.py:55-56 | non-negative when the birth is not after today |
| AccountsModel.AgeMonotone | Healthcore/accounts/models.py:55-56 | never decreases as today advances |
| AccountsForms.EmailTaken | Healthcore/accounts/forms.py:25 | true iff some user already has the e-mail |
| AccountsForms.CleanEmail | Healthcore/accounts/forms.py:23-27 | refused iff some user has the e-mail; otherwise the e-mail unchanged |
| AccountsForms.ValidateRegistration | Healthcore/accounts/forms.py:8-27 | accepted iff the e-mail is fresh, the user type declared, both names 1 to 30 characters and the phone at most 15; the data comes back unchanged |
| AccountsForms.FormUser | Healthcore/accounts/forms.py:30-42 | the user carries the form's e-mail, names, user type, phone and date of birth, unverified and without a token |
| AccountsForms.AcceptedEmailIsFresh | Healthcore/accounts/forms.py:23-27 | an accepted registration never duplicates an existing e-mail |
| AccountsViews.SuccessRoute | Healthcore/accounts/views.py:31-37 | patient to the patient dashboard, provider to the provider dashboard, any other type to the admin dashboard (the same dispatch as dashboard_view, lines 161-166) |
| AccountsViews.RoleGate | Healthcore/accounts/views.py:85-107 | access granted iff the user type equals the decorator's role exactly |
| AccountsViews.DashboardRole | Healthcore/accounts/views.py:205-220 | the patient, provider and admin dashboards are guarded by exactly the role whose success route they are |
| AccountsViews.RoutedDashboardAdmits | Healthcore/accounts/views.py:31-37 | the dashboard a user is routed to admits them iff their user type is declared |
| AccountsViews.LoginOutcome | Healthcore/accounts/views.py:24-37 | back to login iff the e-mail is unverified; otherwise the success route |
| AccountsViews.ProfileSaves | Healthcore/accounts/views.py:124-139 | something is saved iff POST with valid user and profile forms (and a valid provider form for providers); then both, plus the provider form for providers |
| AccountsViews.Registered | Healthcore/accounts/views.py:46-52 | the stored user is the form's user carrying the token, unverified |
| AccountsViews.NewUserCannotLogIn | Healthcore/accounts/views.py:24-28 | a freshly registered user is sent back to login |
| AccountsViews.TokenHolders | Healthcore/accounts/views.py:172 | the ids of exactly the users holding the token, increasing; empty iff nobody holds it |
| AccountsViews.VerifyOutcome | Healthcore/accounts/views.py:169-180 | invalid iff nobody holds the token; verified iff exactly one user holds it, naming that user; several matches iff two or more users hold it |
| AccountsViews.SoleHolderVerified | Healthcore/accounts/views.py:169-175 | a token held by exactly one user verifies that user |
| AccountsViews.AfterVerify | Healthcore/accounts/views.py:172-180 | the only holder becomes verified with an empty token; any other outcome changes nothing |
| AccountsViews.TokenIsOneShot | Healthcore/accounts/views.py:172-174 | a non-empty token that verified its holder verifies nobody afterwards |
| AccountsViews.VerifiedUserCanLogIn | Healthcore/accounts/views.py:173-175 | after verification the holder logs in and is routed by user type |
| AccountsViews.RegisterThenVerify | Healthcore/accounts/views.py:46-58 | registering with a token nobody holds and following the link verifies exactly the new user |
| AccountsViews.Directory.SaveUserForm | Healthcore/accounts/forms.py:30-42 | returns the form's user and stores it iff commit |
| AccountsViews.Directory.Register | Healthcore/accounts/views.py:46-83 | an invalid form changes nothing; a valid one appends the user with the 32-character token and logs the verification mail with the link |
| AccountsViews.Directory.VerifyEmail | Healthcore/accounts/views.py:169-180 | answers the outcome and leaves the users as AfterVerify says |
| PatientsModel.GetAge | Healthcore/patients/models.py:71-78 | None iff no date of birth; otherwise the number n with the n-th birthday reached and the (n+1)-th not yet |
| PatientsModel.AgeIsBirthdayCount | Healthcore/patients/models.py:74-77 | the age is n iff the n-th birthday is reached and the (n+1)-th is not |
| PatientsModel.CalendarAgeNonNegative | Healthcore/patients/models.py:75-77 | non-negative when the birth is not after today |
| PatientsModel.CalendarAgeMonotone | Healthcore/patients/models.py:75-77 | never decreases as today advances |
| PatientsModel.AgeStepsOnBirthday | Healthcore/patients/models.py:75-77 | on a birthday the age is the year difference, and one less on any earlier day of that year |
| PatientsModel.UserAgeAtLeastCalendarAge | Healthcore/accounts/models.py:52-57 | User.age is never below the calendar age |
| PatientsModel.UserAgeOvercounts | Healthcore/accounts/models.py:56 | born 2000-01-01, on 2003-12-31 User.age is 4 while the calendar age is 3 |
| PatientsModel.PhoneRegexMatches | Healthcore/patients/models.py:34-37 | `^\+?1?\d{9,15}$` under `re.search`: an optional "+", an optional "1", then 9 to 15 digits, then the end or one final newline (its characterisation is PhoneRegexIsShape) |
| PatientsModel.PhoneRegexIsShape | Healthcore/patients/models.py:34-37 | the validator accepts exactly an optional "+" then 9 to 15 digits or 16 digits starting with 1, optionally followed by one newline |
| PatientsModel.PhoneFitsField | Healthcore/patients/models.py:34-41 | an accepted number has at most 18 characters, and at most 17 unless it ends in a newline |
| PatientsForms.CleanHeight | Healthcore/patients/forms.py:70-74 | refused iff negative; missing, zero and positive heights come back unchanged |
| PatientsForms.CleanWeight | Healthcore/patients/forms.py:76-80 | refused iff negative; missing, zero and positive weights come back unchanged |
| PatientsForms.ValidatePatientForm | Healthcore/patients/forms.py:4-84 | accepted iff gender and blood type are choices, phones are valid, the emergency contact name and insurance provider have at most 100 characters and the policy number at most 50, decimals fit and pass the height and weight checks; shared by the update form; the data comes back unchanged |
| PatientsForms.StrippedPhoneFitsField | Healthcore/patients/models.py:34-41 | a stripped number the pattern accepts also fits the 17-character field |
| PatientsViews.PatientIndex | Healthcore/patients/views.py:35 | absent iff the user has no record; otherwise an index of the user's record |
| PatientsViews.IndexIsTheRecord | Healthcore/patients/views.py:35 | with one record per user, the record found is that user's only one |
| PatientsViews.Registration | Healthcore/patients/views.py:8-30 | already registered iff the user has a record; created iff no record, POST and a valid form, appending exactly one record bound to the user; otherwise unchanged |
| PatientsViews.RegistrationKeepsOnePerUser | Healthcore/patients/views.py:12-21 | registration keeps at most one record per user, whatever the fields of the stored records |
| PatientsViews.RegistrationKeepsStoreValid | Healthcore/patients/views.py:12-21 | registration keeps one record per user, each one valid |
| PatientsViews.SecondRegistrationCreatesNothing | Healthcore/patients/views.py:12-14 | after a registration, registering again creates nothing |
| PatientsViews.ProfileUpdate | Healthcore/patients/views.py:32-52 | not found iff no record; updated iff POST with a valid form, replacing only the user's record and keeping its user; the page shows the record's get_age |
| PatientsViews.ProfileUpdateKeepsOnePerUser | Healthcore/patients/views.py:35-40 | an update keeps at most one record per user and leaves other users' records alone |
| PatientsViews.ProfileUpdateKeepsStoreValid | Healthcore/patients/views.py:35-40 | an update keeps one record per user, each valid |
| PatientsViews.Registry.RegisterPatient | Healthcore/patients/views.py:8-30 | outcome and new store as Registration says, on any table with one record per user; one record per user is kept, and so is validity of every record when it held before |
| PatientsViews.Registry.UpdateProfile | Healthcore/patients/views.py:32-52 | outcome and new store as ProfileUpdate says, on any table with one record per user; one record per user is kept, and so is validity of every record when it held before |

## Left out

- Mail sending, template rendering, flash messages and redirects. A dispatch is an event appended to a log, and a mail is its recipients and subject.
- Time zones and `strftime` formatting in the iCal and calendar-link code. A start is a count of minutes, and only the +30-minute end is modelled.
- The comparison of a naive date-time with `timezone.now()` in the availability check can raise under time-zone support. `now` is an abstract minute count here, and that exception is not modelled.
- Seconds and microseconds of times and of `now`. Both are whole minutes; `now` is rounded down, which decides every comparison the same way.
- Concurrency: the double-booking race between the availability check and the insert. Requests run one after another.
- appointments/forms.py is not part of this model. The booking form is taken as already cleaned (a `BookingForm`, or None when it is absent or invalid).
- `start_date` parsing in the provider schedule. A malformed value raises in the source; here the date arrives already parsed or absent.
- AppointmentStore.Store.SendReminders: rows are processed in primary-key order, not the model's default ordering `-date, -time`.
- Whether appointments/signals.py is imported at start-up (apps.py is not part of this model). The receiver's connection is a constant of the store.
- AppointmentStore.Store.Save: the mail failures that `fail_silently=True` swallows are not modelled. The write always precedes the mails.
- AppointmentModel.CalendarLink: `save` with the corrected link always sends the confirmation mails; the as-written link raises there, as Findings shows.
- AccountsForms.ValidateRegistration: the username and password checks of Django's `UserCreationForm`, the e-mail format check of `EmailField`, and whitespace stripping of field values are not modelled; the data is taken as cleaned.
- The login form's authentication (e-mail and password) and sessions. LoginOutcome starts from the authenticated user.
- AccountsViews.Directory.Register: the token is an input (random generation is left out), and a failing verification mail (`fail_silently=False`) is not modelled.
- AccountsViews.ProfileSaves: `profile_view`'s `get_or_create` of the profile rows and the contents of the three forms. Only which forms are saved is modelled.
- Password reset, logout, and both admin registrations. They are framework configuration.
- Profile-picture resizing (PIL and file I/O) and `get_bmi` (decimal division with rounding).
- PatientsModel.PhoneRegexMatches: `\d` is taken as ASCII digits; Python also accepts other Unicode decimal digits.
- PatientsForms.ValidatePatientForm: decimals are whole hundredths, so input with more than two decimal places is not represented. Form-level stripping of text fields happens before the model sees the data (StrippedPhoneFitsField states what it implies for phones).
- `patient_medical_history` only renders a page.

## Findings

| source | as written | input that shows it | evidently intended | confidence | as-written member | corrected member |
|---|---|---|---|---|---|---|
| Healthcore/appointments/models.py:118 | `get_calendar_link` reads `self.provider.office_address`, but `ProviderProfile` (Healthcore/accounts/models.py:74-85) declares no such attribute. The read raises after the row is written, inside `send_confirmation_emails`. | saving any new appointment, e.g. a valid booking | fall back to "TBD" when the provider has no office address, as `generate_ical_event` does (Healthcore/appointments/utils.py:84) | high; not executed | AppointmentModel.CalendarLinkAsWrittenRaises | AppointmentModel.CalendarLink |
| Healthcore/accounts/models.py:56 | `User.age` floor-divides the day count by 365, which ignores leap days | born 2000-01-01, today 2003-12-31: 1460 days give 4, but the fourth birthday is a day away | the calendar age that `Patient.get_age` computes (Healthcore/patients/models.py:74-77) | high; not executed | PatientsModel.UserAgeOvercounts | PatientsModel.GetAge |
