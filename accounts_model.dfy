/** accounts/models.py: the custom `User` with its user types, the email
    verification fields and their defaults, `full_name` and `age`. */
module AccountsModel {
  import opened Common
  import opened Calendar

  const PATIENT := "patient"
  const PROVIDER := "provider"
  const ADMIN := "admin"

  /** The declared `USER_TYPES` choices. */
  predicate IsUserType(t: string) {
    t == PATIENT || t == PROVIDER || t == ADMIN
  }

  datatype User = User(
    username: string,
    email: string,
    firstName: string,
    lastName: string,
    userType: string,
    phoneNumber: string,
    dateOfBirth: Option<Date>,
    isEmailVerified: bool,
    emailVerificationToken: string)

  /** A user row as first written: not verified, no token. */
  function NewUser(username: string, email: string, firstName: string, lastName: string, userType: string,
                   phoneNumber: string, dateOfBirth: Option<Date>): (u: User)
    ensures !u.isEmailVerified && u.emailVerificationToken == ""
    ensures u.username == username && u.email == email && u.firstName == firstName && u.lastName == lastName
    ensures u.userType == userType && u.phoneNumber == phoneNumber && u.dateOfBirth == dateOfBirth
  {
    User(username, email, firstName, lastName, userType, phoneNumber, dateOfBirth, false, "")
  }

  /** The characters Python's `str.isspace` accepts. */
  predicate IsSpace(c: char) {
    ('\t' <= c <= '\r') || ('\U{1c}' <= c <= '\U{1f}') || c == ' ' || c == '\U{85}' || c == '\U{a0}'
    || c == '\U{1680}' || ('\U{2000}' <= c <= '\U{200a}') || c == '\U{2028}' || c == '\U{2029}'
    || c == '\U{202f}' || c == '\U{205f}' || c == '\U{3000}'
  }

  /** `s.lstrip()`: the longest suffix of `s` that does not start with whitespace. */
  function TrimStart(s: string): (r: string)
    ensures |r| <= |s| && r == s[|s| - |r|..]
    ensures forall i :: 0 <= i < |s| - |r| ==> IsSpace(s[i])
    ensures r != [] ==> !IsSpace(r[0])
  {
    if s != [] && IsSpace(s[0]) then TrimStart(s[1..]) else s
  }

  /** `s.rstrip()`: the longest prefix of `s` that does not end with whitespace. */
  function TrimEnd(s: string): (r: string)
    ensures |r| <= |s| && r == s[..|r|]
    ensures forall i :: |r| <= i < |s| ==> IsSpace(s[i])
    ensures r != [] ==> !IsSpace(r[|r| - 1])
  {
    if s != [] && IsSpace(s[|s| - 1]) then TrimEnd(s[..|s| - 1]) else s
  }

  /** `r` is `s[lead..]` cut short, with only whitespace cut off on either side. */
  predicate IsTrimmedInfix(r: string, s: string, lead: nat) {
    lead + |r| <= |s| && r == s[lead..lead + |r|]
    && (forall i :: 0 <= i < lead ==> IsSpace(s[i]))
    && (forall i :: lead + |r| <= i < |s| ==> IsSpace(s[i]))
  }

  /** Cutting whitespace off the end of a suffix that only lost whitespace
      leaves a trimmed infix. */
  lemma InfixOfSuffix(s: string, t: string, r: string)
    requires |t| <= |s| && t == s[|s| - |t|..]
    requires |r| <= |t| && r == t[..|r|]
    requires forall i :: 0 <= i < |s| - |t| ==> IsSpace(s[i])
    requires forall i :: |r| <= i < |t| ==> IsSpace(t[i])
    ensures IsTrimmedInfix(r, s, |s| - |t|)
  {
    var lead := |s| - |t|;
    assert r == s[lead..lead + |r|];
    forall i | lead + |r| <= i < |s|
      ensures IsSpace(s[i])
    {
      assert s[i] == t[i - lead];
    }
  }

  /** A non-empty prefix starts where the whole string does. */
  lemma PrefixKeepsStart(t: string, r: string)
    requires |r| <= |t| && r == t[..|r|]
    requires t != [] ==> !IsSpace(t[0])
    ensures r != [] ==> !IsSpace(r[0])
  {
    if r != [] {
      assert r[0] == t[0];
    }
  }

  /** `s.strip()`: `s` without its leading and trailing whitespace. */
  function Strip(s: string): (r: string)
    ensures r != [] ==> !IsSpace(r[0]) && !IsSpace(r[|r| - 1])
    ensures IsTrimmedInfix(r, s, |s| - |TrimStart(s)|)
  {
    var t := TrimStart(s);
    var r := TrimEnd(t);
    InfixOfSuffix(s, t, r);
    PrefixKeepsStart(t, r);
    r
  }

  /** A string with no outer whitespace is its own strip. */
  lemma StripClean(s: string)
    requires s == [] || (!IsSpace(s[0]) && !IsSpace(s[|s| - 1]))
    ensures Strip(s) == s
  {
  }

  /** Stripping twice is stripping once. */
  lemma StripIdempotent(s: string)
    ensures Strip(Strip(s)) == Strip(s)
  {
    StripClean(Strip(s));
  }

  /** `full_name`: first and last name joined by a space, outer whitespace removed. */
  function FullName(u: User): (name: string)
    ensures var joined := u.firstName + " " + u.lastName;
            IsTrimmedInfix(name, joined, |joined| - |TrimStart(joined)|)
    ensures name != [] ==> !IsSpace(name[0]) && !IsSpace(name[|name| - 1])
    ensures |name| <= |u.firstName| + 1 + |u.lastName|
  {
    Strip(u.firstName + " " + u.lastName)
  }

  /** Two empty names give the empty string. */
  lemma FullNameOfEmptyNames(u: User)
    requires u.firstName == "" && u.lastName == ""
    ensures FullName(u) == ""
  {
    var joined := u.firstName + " " + u.lastName;
    assert joined == " ";
    assert TrimStart(joined) == TrimStart(joined[1..]);
  }

  /** Two non-empty names without outer whitespace are joined by exactly one space. */
  lemma FullNameOfCleanNames(u: User)
    requires u.firstName != "" && u.lastName != ""
    requires !IsSpace(u.firstName[0]) && !IsSpace(u.lastName[|u.lastName| - 1])
    ensures FullName(u) == u.firstName + " " + u.lastName
  {
    StripClean(u.firstName + " " + u.lastName);
  }

  /** Without a first name, the separating space is stripped away. */
  lemma FullNameOfLastNameOnly(u: User)
    requires u.firstName == "" && u.lastName != ""
    requires !IsSpace(u.lastName[0]) && !IsSpace(u.lastName[|u.lastName| - 1])
    ensures FullName(u) == u.lastName
  {
    var joined := u.firstName + " " + u.lastName;
    assert joined == " " + u.lastName && joined[1..] == u.lastName;
    assert TrimStart(joined) == TrimStart(u.lastName) == u.lastName;
    StripClean(u.lastName);
  }

  /** `age`: None without a date of birth, otherwise the whole days from the
      date of birth to today floor-divided by 365. */
  function Age(dob: Option<Date>, today: Date): (age: Option<int>)
    ensures age.None? <==> dob.None?
    ensures age.Some? ==> 365 * age.value <= Ordinal(today) - Ordinal(dob.value) < 365 * (age.value + 1)
  {
    match dob
    case None => None
    case Some(d) => Some((Ordinal(today) - Ordinal(d)) / 365)
  }

  /** A date of birth not after today gives a non-negative age. */
  lemma AgeNonNegative(dob: Date, today: Date)
    requires AtOrBefore(dob, today)
    ensures Age(Some(dob), today).value >= 0
  {
    OrdinalOrder(dob, today);
  }

  /** The age never goes down as today advances. */
  lemma AgeMonotone(dob: Date, today: Date, later: Date)
    requires AtOrBefore(today, later)
    ensures Age(Some(dob), today).value <= Age(Some(dob), later).value
  {
    OrdinalOrder(today, later);
  }
}
