/** accounts/views.py: login gating and role routing, registration with an
    e-mail verification token, `verify_email`, the role decorators and the
    save gating of `profile_view`. */
module AccountsViews {
  import opened Common
  import opened Calendar
  import opened AccountsModel
  import opened AccountsForms

  /** Where a view redirects. */
  datatype Route = PatientDashboard | ProviderDashboard | AdminDashboard | LoginPage

  /** `get_success_url` and `dashboard_view`: patients and providers go to their
      own dashboards, and every other user type to the admin dashboard. */
  function SuccessRoute(userType: string): (r: Route)
    ensures r != LoginPage
    ensures r == PatientDashboard <==> userType == PATIENT
    ensures r == ProviderDashboard <==> userType == PROVIDER
    ensures r == AdminDashboard <==> userType != PATIENT && userType != PROVIDER
  {
    if userType == PATIENT then PatientDashboard
    else if userType == PROVIDER then ProviderDashboard
    else AdminDashboard
  }

  /** What a role decorator answers. */
  datatype Access = Granted | Forbidden(message: string)

  /** `patient_required`, `provider_required` and `admin_required`: the view
      runs only for a user whose type is exactly the decorator's role. */
  function RoleGate(role: string, userType: string): (a: Access)
    ensures a.Granted? <==> userType == role
    ensures a.Forbidden? ==> a.message == "You do not have permission to access this page."
  {
    if userType != role then Forbidden("You do not have permission to access this page.") else Granted
  }

  /** The role each dashboard view is decorated with. */
  function DashboardRole(r: Route): (role: Option<string>)
    ensures role.Some? <==> r != LoginPage
    ensures role.Some? ==> IsUserType(role.value) && SuccessRoute(role.value) == r
  {
    match r
    case PatientDashboard => Some(PATIENT)
    case ProviderDashboard => Some(PROVIDER)
    case AdminDashboard => Some(ADMIN)
    case LoginPage => None
  }

  /** The dashboard a user is routed to lets them in exactly when their user
      type is one of the declared ones; any other type lands on the admin
      dashboard and is forbidden there. */
  lemma RoutedDashboardAdmits(userType: string)
    ensures DashboardRole(SuccessRoute(userType)).Some?
    ensures RoleGate(DashboardRole(SuccessRoute(userType)).value, userType).Granted? <==> IsUserType(userType)
  {
  }

  /** `CustomLoginView.form_valid` for an authenticated user: an unverified
      e-mail sends the user back to the login page, otherwise to the success
      route. */
  function LoginOutcome(u: User): (r: Route)
    ensures r == LoginPage <==> !u.isEmailVerified
    ensures u.isEmailVerified ==> r == SuccessRoute(u.userType)
  {
    if !u.isEmailVerified then LoginPage else SuccessRoute(u.userType)
  }

  /** The forms `profile_view` saves. */
  datatype ProfilePart = UserForm | ProfileForm | ProviderForm

  /** `profile_view` on one request: nothing is saved unless the request is a
      POST and the user and profile forms are valid, and for a provider the
      provider form too; then all bound forms are saved together. */
  function ProfileSaves(isPost: bool, userType: string, userValid: bool, profileValid: bool,
                        providerValid: bool): (saved: set<ProfilePart>)
    ensures saved != {} <==>
              isPost && userValid && profileValid && (userType == PROVIDER ==> providerValid)
    ensures saved != {} ==> UserForm in saved && ProfileForm in saved
    ensures ProviderForm in saved <==> saved != {} && userType == PROVIDER
  {
    if isPost && userValid && profileValid && (userType != PROVIDER || providerValid) then
      if userType == PROVIDER then {UserForm, ProfileForm, ProviderForm} else {UserForm, ProfileForm}
    else {}
  }

  /** The user `RegisterView.form_valid` stores: the form's user, carrying the
      freshly drawn token. */
  function Registered(data: RegistrationData, token: string): (u: User)
    ensures u == FormUser(data).(emailVerificationToken := token)
    ensures !u.isEmailVerified && u.email == data.email
  {
    FormUser(data).(emailVerificationToken := token)
  }

  /** A user who has just registered cannot log in. */
  lemma NewUserCannotLogIn(data: RegistrationData, token: string)
    ensures LoginOutcome(Registered(data, token)) == LoginPage
  {
  }

  /** `ids` lists exactly the users holding `token`, in increasing order. */
  predicate ListsHolders(users: seq<User>, token: string, ids: seq<nat>) {
    (forall i :: 0 <= i < |users| ==> (i in ids <==> users[i].emailVerificationToken == token))
    && (forall k :: 0 <= k < |ids| ==> ids[k] < |users|)
    && (forall k, l :: 0 <= k < l < |ids| ==> ids[k] < ids[l])
  }

  /** Looking at one more user extends the list by that user when it holds
      the token. */
  lemma ListsHoldersStep(users: seq<User>, token: string, prior: seq<nat>)
    requires users != [] && ListsHolders(users[..|users| - 1], token, prior)
    ensures var last := |users| - 1;
            ListsHolders(users, token, if users[last].emailVerificationToken == token then prior + [last] else prior)
  {
    var last := |users| - 1;
    var ids := if users[last].emailVerificationToken == token then prior + [last] else prior;
    forall i | 0 <= i < |users|
      ensures i in ids <==> users[i].emailVerificationToken == token
    {
      if i < last {
        assert users[..last][i] == users[i];
      }
    }
  }

  /** The ids of the users holding `token`, in increasing order. */
  function TokenHolders(users: seq<User>, token: string): (ids: seq<nat>)
    ensures forall i :: 0 <= i < |users| ==> (i in ids <==> users[i].emailVerificationToken == token)
    ensures forall k :: 0 <= k < |ids| ==> ids[k] < |users|
    ensures ids == [] <==> forall i :: 0 <= i < |users| ==> users[i].emailVerificationToken != token
    ensures forall k, l :: 0 <= k < l < |ids| ==> ids[k] < ids[l]
  {
    if users == [] then []
    else
      var prior := TokenHolders(users[..|users| - 1], token);
      ListsHoldersStep(users, token, prior);
      var ids := if users[|users| - 1].emailVerificationToken == token then prior + [|users| - 1] else prior;
      assert ids != [] ==> ids[0] in ids;
      ids
  }

  /** What `verify_email` answers: `User.objects.get` finds nobody, exactly one
      user, or several (which it raises on and which nothing catches). */
  datatype VerifyResult = Verified(id: nat) | InvalidToken | MultipleMatches

  function VerifyOutcome(users: seq<User>, token: string): (r: VerifyResult)
    ensures r == InvalidToken <==> forall i :: 0 <= i < |users| ==> users[i].emailVerificationToken != token
    ensures r.Verified? ==> r.id < |users| && users[r.id].emailVerificationToken == token
    ensures r.Verified? ==> forall i :: 0 <= i < |users| && i != r.id ==> users[i].emailVerificationToken != token
    ensures r.Verified? <==> |TokenHolders(users, token)| == 1
    ensures r == MultipleMatches <==> |TokenHolders(users, token)| >= 2
    ensures r == MultipleMatches ==>
              var h := TokenHolders(users, token);
              h[0] != h[1] && users[h[0]].emailVerificationToken == token && users[h[1]].emailVerificationToken == token
  {
    var holders := TokenHolders(users, token);
    if |holders| == 0 then InvalidToken
    else if |holders| == 1 then
      assert forall i :: i in holders ==> i == holders[0];
      Verified(holders[0])
    else
      assert holders[0] in holders;
      MultipleMatches
  }

  /** The users after `verify_email`: the one holder of the token is verified
      and its token cleared; in every other case nothing changes. */
  function AfterVerify(users: seq<User>, token: string): (after: seq<User>)
    ensures |after| == |users|
    ensures !VerifyOutcome(users, token).Verified? ==> after == users
    ensures VerifyOutcome(users, token).Verified? ==>
              var id := VerifyOutcome(users, token).id;
              after == users[id := users[id].(isEmailVerified := true, emailVerificationToken := "")]
  {
    match VerifyOutcome(users, token)
    case Verified(id) => users[id := users[id].(isEmailVerified := true, emailVerificationToken := "")]
    case _ => users
  }

  /** A token held by exactly one user verifies that user. */
  lemma SoleHolderVerified(users: seq<User>, token: string, id: nat)
    requires id < |users| && users[id].emailVerificationToken == token
    requires forall i :: 0 <= i < |users| && i != id ==> users[i].emailVerificationToken != token
    ensures VerifyOutcome(users, token) == Verified(id)
  {
    var h := TokenHolders(users, token);
    assert id in h;
    forall k | 0 <= k < |h|
      ensures h[k] == id
    {
      assert h[k] in h;
    }
  }

  /** A token is one-shot: once it has verified its holder, it verifies
      nobody. */
  lemma {:induction false} TokenIsOneShot(users: seq<User>, token: string)
    requires token != ""
    requires VerifyOutcome(users, token).Verified?
    ensures VerifyOutcome(AfterVerify(users, token), token) == InvalidToken
  {
    var after := AfterVerify(users, token);
    var id := VerifyOutcome(users, token).id;
    forall i | 0 <= i < |after|
      ensures after[i].emailVerificationToken != token
    {
      if i == id {
        assert after[i].emailVerificationToken == "";
      } else {
        assert after[i] == users[i];
      }
    }
  }

  /** After verification the holder logs in and is routed by user type. */
  lemma VerifiedUserCanLogIn(users: seq<User>, token: string)
    requires VerifyOutcome(users, token).Verified?
    ensures var id := VerifyOutcome(users, token).id;
            LoginOutcome(AfterVerify(users, token)[id]) == SuccessRoute(users[id].userType)
  {
  }

  /** Registering with a token nobody holds and then following the mailed
      link verifies exactly the new user. */
  lemma {:induction false} RegisterThenVerify(users: seq<User>, data: RegistrationData, token: string)
    requires forall i :: 0 <= i < |users| ==> users[i].emailVerificationToken != token
    ensures VerifyOutcome(users + [Registered(data, token)], token) == Verified(|users|)
  {
    var all := users + [Registered(data, token)];
    assert all[..|all| - 1] == users;
    assert TokenHolders(all, token) == TokenHolders(users, token) + [|users|];
  }

  /** The verification mail `send_verification_email` sends. */
  datatype VerificationMail = VerificationMail(to: string, firstName: string, link: string)

  /** The link the mail carries, relative to the site root. */
  function VerificationLink(token: string): string
  {
    "/accounts/verify/" + token + "/"
  }

  /** The users and the verification mails sent to them. The id of a user is
      its index in `users`. */
  class Directory {
    var users: seq<User>
    var mails: seq<VerificationMail>

    constructor ()
      ensures users == [] && mails == []
    {
      users := [];
      mails := [];
    }

    /** `UserRegistrationForm.save`: builds the user from the form and stores
        it only when `commit` is set. */
    method SaveUserForm(data: RegistrationData, commit: bool) returns (u: User)
      modifies this`users
      ensures u == FormUser(data)
      ensures users == if commit then old(users) + [u] else old(users)
    {
      u := FormUser(data);
      if commit {
        users := users + [u];
      }
    }

    /** `RegisterView`: an invalid form changes nothing; a valid one stores the
        new user with the given 32-character token and mails the link. */
    method Register(data: RegistrationData, token: string) returns (r: Result<nat, string>)
      requires |token| == 32
      modifies this
      ensures ValidateRegistration(old(users), data).Failure? ==>
                r == Failure(ValidateRegistration(old(users), data).error)
                && users == old(users) && mails == old(mails)
      ensures ValidateRegistration(old(users), data).Success? ==>
                r == Success(|old(users)|)
                && users == old(users) + [Registered(data, token)]
                && mails == old(mails) + [VerificationMail(data.email, data.firstName, VerificationLink(token))]
    {
      var valid := ValidateRegistration(users, data);
      if valid.Failure? {
        return Failure(valid.error);
      }
      var u := SaveUserForm(data, true);
      var id := |users| - 1;
      users := users[id := u.(emailVerificationToken := token)];
      mails := mails + [VerificationMail(u.email, u.firstName, VerificationLink(token))];
      r := Success(id);
    }

    /** `verify_email`. */
    method VerifyEmail(token: string) returns (r: VerifyResult)
      modifies this`users
      ensures r == VerifyOutcome(old(users), token)
      ensures users == AfterVerify(old(users), token)
    {
      r := VerifyOutcome(users, token);
      if r.Verified? {
        users := users[r.id := users[r.id].(isEmailVerified := true, emailVerificationToken := "")];
      }
    }
  }
}
