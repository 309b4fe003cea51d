/** accounts/forms.py: the registration form's e-mail check, its field rules
    and what its `save` copies onto the new user. */
module AccountsForms {
  import opened Common
  import opened Calendar
  import opened AccountsModel

  /** The cleaned data of `UserRegistrationForm`. */
  datatype RegistrationData = RegistrationData(
    username: string,
    email: string,
    firstName: string,
    lastName: string,
    userType: string,
    phoneNumber: string,
    dateOfBirth: Option<Date>)

  /** `User.objects.filter(email=email).exists()`. */
  function EmailTaken(users: seq<User>, email: string): (taken: bool)
    ensures taken <==> exists i :: 0 <= i < |users| && users[i].email == email
  {
    if users == [] then false
    else users[|users| - 1].email == email || EmailTaken(users[..|users| - 1], email)
  }

  /** `clean_email`: refuses an e-mail some user already has, and otherwise
      returns it unchanged. */
  function CleanEmail(users: seq<User>, email: string): (r: Result<string, string>)
    ensures r.Failure? <==> exists i :: 0 <= i < |users| && users[i].email == email
    ensures r.Success? ==> r.value == email
  {
    if EmailTaken(users, email) then Failure("A user with this email already exists.") else Success(email)
  }

  /** The field rules of the form: required first and last names of at most
      30 characters, a user type among the declared choices, a phone number of
      at most 15 characters, and an e-mail no user has yet. */
  function ValidateRegistration(users: seq<User>, data: RegistrationData): (r: Result<RegistrationData, string>)
    ensures r.Success? ==> r.value == data
    ensures r.Success? <==>
              CleanEmail(users, data.email).Success? && IsUserType(data.userType)
              && 0 < |data.firstName| <= 30 && 0 < |data.lastName| <= 30 && |data.phoneNumber| <= 15
  {
    if !(0 < |data.firstName| <= 30) then Failure("first_name")
    else if !(0 < |data.lastName| <= 30) then Failure("last_name")
    else if !IsUserType(data.userType) then Failure("user_type")
    else if |data.phoneNumber| > 15 then Failure("phone_number")
    else match CleanEmail(users, data.email)
      case Failure(e) => Failure(e)
      case Success(_) => Success(data)
  }

  /** `save`: the new user carries the form's e-mail, names, user type, phone
      and date of birth, and starts unverified without a token. */
  function FormUser(data: RegistrationData): (u: User)
    ensures u.username == data.username && u.email == data.email
    ensures u.firstName == data.firstName && u.lastName == data.lastName && u.userType == data.userType
    ensures u.phoneNumber == data.phoneNumber && u.dateOfBirth == data.dateOfBirth
    ensures !u.isEmailVerified && u.emailVerificationToken == ""
  {
    NewUser(data.username, data.email, data.firstName, data.lastName, data.userType, data.phoneNumber, data.dateOfBirth)
  }

  /** A registration the form accepts never duplicates an e-mail. */
  lemma AcceptedEmailIsFresh(users: seq<User>, data: RegistrationData)
    requires ValidateRegistration(users, data).Success?
    ensures forall i :: 0 <= i < |users| ==> users[i].email != FormUser(data).email
  {
  }
}
