/** patients/views.py: registering a patient record for the requesting user
    and updating it from the profile page. */
module PatientsViews {
  import opened Common
  import opened Calendar
  import opened PatientsModel
  import opened PatientsForms

  /** `Patient.objects.filter(user=user).exists()`. */
  predicate HasPatient(patients: seq<Patient>, user: nat) {
    exists i | 0 <= i < |patients| :: patients[i].user == user
  }

  /** The `OneToOneField`: no user has two patient records. */
  predicate OnePerUser(patients: seq<Patient>) {
    forall i, j :: 0 <= i < j < |patients| ==> patients[i].user != patients[j].user
  }

  /** What the store keeps: one record per user, each one the forms
      accepted. */
  predicate StoreValid(patients: seq<Patient>) {
    OnePerUser(patients) && forall i :: 0 <= i < |patients| ==> FieldsValid(patients[i].data)
  }

  /** The index of `user`'s record (`get_object_or_404(Patient, user=user)`). */
  function PatientIndex(patients: seq<Patient>, user: nat): (r: Option<nat>)
    ensures r.None? <==> !HasPatient(patients, user)
    ensures r.Some? ==> r.value < |patients| && patients[r.value].user == user
  {
    if patients == [] then None
    else if patients[|patients| - 1].user == user then Some(|patients| - 1)
    else
      var r := PatientIndex(patients[..|patients| - 1], user);
      assert !HasPatient(patients[..|patients| - 1], user) ==> !HasPatient(patients, user) by {
        if HasPatient(patients, user) {
          var i :| 0 <= i < |patients| && patients[i].user == user;
          assert i < |patients| - 1;
          assert patients[..|patients| - 1][i] == patients[i];
        }
      }
      r
  }

  /** With one record per user, the record found is the user's only one. */
  lemma {:induction false} IndexIsTheRecord(patients: seq<Patient>, user: nat, i: nat)
    requires OnePerUser(patients)
    requires i < |patients| && patients[i].user == user
    ensures PatientIndex(patients, user) == Some(i)
  {
    var k := PatientIndex(patients, user).value;
    assert patients[k].user == patients[i].user;
  }

  /** What `patient_registration` answers. */
  datatype RegistrationResult = AlreadyRegistered | RegistrationForm | RegistrationErrors(error: string) | Created(id: nat)

  /** `patient_registration` on the store `patients`: the outcome and the new
      store. */
  function Registration(patients: seq<Patient>, user: nat, isPost: bool, data: PatientData): (out: (RegistrationResult, seq<Patient>))
    ensures out.0.Created? <==> !HasPatient(patients, user) && isPost && ValidatePatientForm(data).Success?
    ensures out.0.Created? ==> out.0.id == |patients| && out.1 == patients + [Patient(user, data)]
    ensures !out.0.Created? ==> out.1 == patients
    ensures out.0 == AlreadyRegistered <==> HasPatient(patients, user)
  {
    if HasPatient(patients, user) then (AlreadyRegistered, patients)
    else if !isPost then (RegistrationForm, patients)
    else match ValidatePatientForm(data)
      case Failure(e) => (RegistrationErrors(e), patients)
      case Success(d) => (Created(|patients|), patients + [Patient(user, d)])
  }

  /** Registration keeps one record per user. */
  lemma {:induction false} RegistrationKeepsOnePerUser(patients: seq<Patient>, user: nat, isPost: bool, data: PatientData)
    requires OnePerUser(patients)
    ensures OnePerUser(Registration(patients, user, isPost, data).1)
  {
    var out := Registration(patients, user, isPost, data);
    if out.0.Created? {
      var after := out.1;
      forall i, j | 0 <= i < j < |after|
        ensures after[i].user != after[j].user
      {
        if j == |patients| {
          assert after[i] == patients[i];
        }
      }
    }
  }

  /** Registration keeps one record per user, each valid. */
  lemma RegistrationKeepsStoreValid(patients: seq<Patient>, user: nat, isPost: bool, data: PatientData)
    requires StoreValid(patients)
    ensures StoreValid(Registration(patients, user, isPost, data).1)
  {
    RegistrationKeepsOnePerUser(patients, user, isPost, data);
  }

  /** Once a user has registered, registering again creates nothing. */
  lemma SecondRegistrationCreatesNothing(patients: seq<Patient>, user: nat, data: PatientData, again: PatientData)
    requires Registration(patients, user, true, data).0.Created?
    ensures Registration(Registration(patients, user, true, data).1, user, true, again)
            == (AlreadyRegistered, Registration(patients, user, true, data).1)
  {
    var after := Registration(patients, user, true, data).1;
    assert after[|patients|].user == user;
  }

  /** What `patient_profile` answers; the page shows the record with its
      `get_age()`. */
  datatype ProfileResult = NotFound | ProfilePage(id: nat, age: Option<int>) | ProfileErrors(error: string) | Updated(id: nat)

  /** `patient_profile` on the store `patients`: the outcome and the new
      store. */
  function ProfileUpdate(patients: seq<Patient>, user: nat, isPost: bool, data: PatientData, today: Date): (out: (ProfileResult, seq<Patient>))
    ensures |out.1| == |patients|
    ensures out.0 == NotFound <==> !HasPatient(patients, user)
    ensures out.0.Updated? <==> HasPatient(patients, user) && isPost && ValidatePatientForm(data).Success?
    ensures out.0.Updated? ==>
              out.0.id < |patients| && patients[out.0.id].user == user
              && out.1 == patients[out.0.id := Patient(user, data)]
    ensures !out.0.Updated? ==> out.1 == patients
    ensures out.0.ProfilePage? ==>
              out.0.id < |patients| && out.0.age == GetAge(patients[out.0.id].data.dateOfBirth, today)
  {
    match PatientIndex(patients, user)
    case None => (NotFound, patients)
    case Some(i) =>
      if !isPost then (ProfilePage(i, GetAge(patients[i].data.dateOfBirth, today)), patients)
      else match ValidatePatientForm(data)
        case Failure(e) => (ProfileErrors(e), patients)
        case Success(d) => (Updated(i), patients[i := patients[i].(data := d)])
  }

  /** A profile update keeps one record per user and touches no other
      user's record. */
  lemma {:induction false} ProfileUpdateKeepsOnePerUser(patients: seq<Patient>, user: nat, isPost: bool, data: PatientData, today: Date)
    requires OnePerUser(patients)
    ensures OnePerUser(ProfileUpdate(patients, user, isPost, data, today).1)
    ensures forall i :: 0 <= i < |patients| && patients[i].user != user ==>
              ProfileUpdate(patients, user, isPost, data, today).1[i] == patients[i]
  {
    var out := ProfileUpdate(patients, user, isPost, data, today);
    if out.0.Updated? {
      var after := out.1;
      forall i, j | 0 <= i < j < |after|
        ensures after[i].user != after[j].user
      {
        assert after[i].user == patients[i].user && after[j].user == patients[j].user;
      }
    }
  }

  /** A profile update keeps one record per user, each valid. */
  lemma ProfileUpdateKeepsStoreValid(patients: seq<Patient>, user: nat, isPost: bool, data: PatientData, today: Date)
    requires StoreValid(patients)
    ensures StoreValid(ProfileUpdate(patients, user, isPost, data, today).1)
  {
    ProfileUpdateKeepsOnePerUser(patients, user, isPost, data, today);
  }

  /** The patient records. The one-to-one constraint on `user` holds of every
      table; the field rules hold of records the forms wrote, but the admin
      can store others (a negative height, say), so the views run on any
      table and keep `Valid` only when it held before. */
  class Registry {
    var patients: seq<Patient>

    predicate Valid()
      reads this
    {
      StoreValid(patients)
    }

    constructor ()
      ensures patients == [] && Valid()
    {
      patients := [];
    }

    /** `patient_registration`. */
    method RegisterPatient(user: nat, isPost: bool, data: PatientData) returns (r: RegistrationResult)
      requires OnePerUser(patients)
      modifies this
      ensures OnePerUser(patients) && (old(Valid()) ==> Valid())
      ensures (r, patients) == Registration(old(patients), user, isPost, data)
    {
      RegistrationKeepsOnePerUser(patients, user, isPost, data);
      if Valid() {
        RegistrationKeepsStoreValid(patients, user, isPost, data);
      }
      if HasPatient(patients, user) {
        return AlreadyRegistered;
      }
      if !isPost {
        return RegistrationForm;
      }
      var valid := ValidatePatientForm(data);
      if valid.Failure? {
        return RegistrationErrors(valid.error);
      }
      r := Created(|patients|);
      patients := patients + [Patient(user, valid.value)];
    }

    /** `patient_profile`. */
    method UpdateProfile(user: nat, isPost: bool, data: PatientData, today: Date) returns (r: ProfileResult)
      requires OnePerUser(patients)
      modifies this
      ensures OnePerUser(patients) && (old(Valid()) ==> Valid())
      ensures (r, patients) == ProfileUpdate(old(patients), user, isPost, data, today)
    {
      ProfileUpdateKeepsOnePerUser(patients, user, isPost, data, today);
      if Valid() {
        ProfileUpdateKeepsStoreValid(patients, user, isPost, data, today);
      }
      var found := PatientIndex(patients, user);
      if found.None? {
        return NotFound;
      }
      var i := found.value;
      if !isPost {
        return ProfilePage(i, GetAge(patients[i].data.dateOfBirth, today));
      }
      var valid := ValidatePatientForm(data);
      if valid.Failure? {
        return ProfileErrors(valid.error);
      }
      patients := patients[i := patients[i].(data := valid.value)];
      r := Updated(i);
    }
  }
}
