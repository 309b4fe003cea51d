/** patients/models.py: the choices a patient record declares, `get_age` and
    the phone-number validator. */
module PatientsModel {
  import opened Common
  import opened Calendar
  import AccountsModel

  /** `GENDER_CHOICES`: the field is required, so blank is not among them. */
  predicate IsGender(g: string) {
    g == "M" || g == "F" || g == "O"
  }

  /** `BLOOD_TYPES`; the field itself may also be left blank. */
  predicate IsBloodType(b: string) {
    b in {"A+", "A-", "B+", "B-", "AB+", "AB-", "O+", "O-"}
  }

  predicate IsBloodTypeOrBlank(b: string) {
    b == "" || IsBloodType(b)
  }

  /** The editable fields of a patient record. Heights (centimetres) and
      weights (kilograms) are decimals with two places, kept here in
      hundredths. */
  datatype PatientData = PatientData(
    dateOfBirth: Option<Date>,
    gender: string,
    height: Option<int>,
    weight: Option<int>,
    address: string,
    phoneNumber: string,
    emergencyContactName: string,
    emergencyContactPhone: string,
    bloodType: string,
    allergies: string,
    medicalConditions: string,
    currentMedications: string,
    medicalHistory: string,
    insuranceProvider: string,
    insurancePolicyNumber: string)

  /** A patient record, bound one-to-one to the user with id `user`. */
  datatype Patient = Patient(user: nat, data: PatientData)

  // ---------------------------------------------------------------- get_age

  /** The tuple comparison `(today.month, today.day) < (dob.month, dob.day)`. */
  predicate EarlierInYear(a: YMD, b: YMD) {
    a.month < b.month || (a.month == b.month && a.day < b.day)
  }

  /** The birthday `years` years after `dob`, as a triple (February 29th of a
      year that is not leap is not a real date, but still compares). */
  function Anniversary(dob: YMD, years: int): YMD {
    YMD(dob.year + years, dob.month, dob.day)
  }

  /** `Patient.get_age`: the number of birthdays that have come by `today`. */
  function GetAge(dob: Option<Date>, today: Date): (age: Option<int>)
    ensures age.None? <==> dob.None?
    ensures age.Some? ==>
              AtOrBefore(Anniversary(dob.value, age.value), today)
              && Before(today, Anniversary(dob.value, age.value + 1))
  {
    match dob
    case None => None
    case Some(b) => Some(today.year - b.year - (if EarlierInYear(today, b) then 1 else 0))
  }

  /** Only one count of birthdays fits between two anniversaries, so the age
      is exactly the number of anniversaries reached. */
  lemma AgeIsBirthdayCount(dob: Date, today: Date, n: int)
    ensures GetAge(Some(dob), today) == Some(n) <==>
              AtOrBefore(Anniversary(dob, n), today) && Before(today, Anniversary(dob, n + 1))
  {
    var a := GetAge(Some(dob), today).value;
    if AtOrBefore(Anniversary(dob, n), today) && Before(today, Anniversary(dob, n + 1)) {
      assert n <= a;
      assert a <= n;
    }
  }

  lemma CalendarAgeNonNegative(dob: Date, today: Date)
    requires AtOrBefore(dob, today)
    ensures GetAge(Some(dob), today).value >= 0
  {
  }

  lemma CalendarAgeMonotone(dob: Date, today: Date, later: Date)
    requires AtOrBefore(today, later)
    ensures GetAge(Some(dob), today).value <= GetAge(Some(dob), later).value
  {
  }

  /** On each birthday the age is the number of years since the birth year,
      and on any day of that year before the birthday it is one less. */
  lemma AgeStepsOnBirthday(dob: Date, birthday: Date, earlier: Date)
    requires birthday.month == dob.month && birthday.day == dob.day
    requires earlier.year == birthday.year && Before(earlier, birthday)
    ensures GetAge(Some(dob), birthday) == Some(birthday.year - dob.year)
    ensures GetAge(Some(dob), earlier) == Some(birthday.year - dob.year - 1)
  {
  }

  // ------------------------------------------------- User.age versus get_age

  /** The `n`-th birthday, moved back to February 28th when it would fall on a
      February 29th that does not exist. */
  function BirthdayDate(dob: Date, n: nat): (d: Date)
    requires dob.year + n <= 9999
    ensures d.year == dob.year + n && d.month == dob.month
    ensures AtOrBefore(d, Anniversary(dob, n))
  {
    var y := dob.year + n;
    YMD(y, dob.month, if dob.day <= DaysInMonth(y, dob.month) then dob.day else DaysInMonth(y, dob.month))
  }

  /** The `n`-th birthday is at least `365 * n` days after the birth. */
  lemma BirthdayDaysApart(dob: Date, n: nat)
    requires dob.year + n <= 9999
    ensures Ordinal(BirthdayDate(dob, n)) - Ordinal(dob) >= 365 * n
  {
    var b := BirthdayDate(dob, n);
    YearsSpan(dob.year, b.year);
    if n > 0 && IsLeap(dob.year) && !IsLeap(b.year) {
      assert DayOfYear(b) >= DayOfYear(dob) - 1;
    } else if n > 0 {
      assert DayOfYear(b) >= DayOfYear(dob);
    }
  }

  /** `User.age` never gives less than the calendar age. */
  lemma {:induction false} UserAgeAtLeastCalendarAge(dob: Date, today: Date)
    requires AtOrBefore(dob, today)
    ensures AccountsModel.Age(Some(dob), today).value >= GetAge(Some(dob), today).value
  {
    var a := GetAge(Some(dob), today).value;
    AccountsModel.AgeNonNegative(dob, today);
    if a > 0 {
      var b := BirthdayDate(dob, a);
      BirthdayDaysApart(dob, a);
      assert AtOrBefore(b, today);
      AccountsModel.AgeMonotone(dob, b, today);
    }
  }

  /** ... and it gives more: one day short of the fourth birthday,
      `User.age` already says 4. */
  lemma UserAgeOvercounts()
    ensures AccountsModel.Age(Some(YMD(2000, 1, 1)), YMD(2003, 12, 31)) == Some(4)
    ensures GetAge(Some(YMD(2000, 1, 1)), YMD(2003, 12, 31)) == Some(3)
  {
    assert Ordinal(YMD(2003, 12, 31)) - Ordinal(YMD(2000, 1, 1)) == 1460;
  }

  // ------------------------------------------------------------ phone_regex

  predicate IsDigit(c: char) {
    '0' <= c <= '9'
  }

  /** The characters of `s` from `lo` up to `hi` are all digits. */
  predicate DigitsBetween(s: string, lo: int, hi: int) {
    forall i :: lo <= i < hi && 0 <= i < |s| ==> IsDigit(s[i])
  }

  /** Where Python's `$` matches: at the end, or just before a final
      newline. */
  predicate AtEnd(s: string, k: int) {
    k == |s| || (k == |s| - 1 && 0 <= k && s[k] == '\n')
  }

  /** One way `^\+?1?\d{9,15}$` can match `s`: whether `\+?` and `1?` each
      take a character, and how many characters `\d{9,15}` takes. */
  predicate MatchesWith(s: string, plus: bool, one: bool, digits: int) {
    var k := (if plus then 1 else 0) + (if one then 1 else 0);
    9 <= digits <= 15 && k + digits <= |s|
    && (plus ==> s[0] == '+')
    && (one ==> s[k - 1] == '1')
    && DigitsBetween(s, k, k + digits)
    && AtEnd(s, k + digits)
  }

  /** The `phone_regex` validator (the search is anchored by `^`). */
  predicate PhoneRegexMatches(s: string) {
    exists plus: bool, one: bool, digits | 9 <= digits <= 15 :: MatchesWith(s, plus, one, digits)
  }

  /** The length of `s` without one final newline. */
  function WithoutNewline(s: string): (n: nat)
    ensures n <= |s|
  {
    if s != [] && s[|s| - 1] == '\n' then |s| - 1 else |s|
  }

  /** The accepted shapes, read off directly: an optional `+`, then either 9
      to 15 digits or 16 digits starting with `1`, and possibly one final
      newline. */
  predicate PhoneShape(s: string) {
    var n := WithoutNewline(s);
    var p := if n > 0 && s[0] == '+' then 1 else 0;
    DigitsBetween(s, p, n) && (9 <= n - p <= 15 || (n - p == 16 && s[p] == '1'))
  }

  lemma {:induction false} MatchHasShape(s: string, plus: bool, one: bool, digits: int)
    requires MatchesWith(s, plus, one, digits)
    ensures PhoneShape(s)
  {
    var p := if plus then 1 else 0;
    var k := p + (if one then 1 else 0);
    assert IsDigit(s[k + digits - 1]);
    assert WithoutNewline(s) == k + digits;
    assert IsDigit(s[p]);
  }

  lemma {:induction false} ShapeHasMatch(s: string)
    requires PhoneShape(s)
    ensures PhoneRegexMatches(s)
  {
    var n := WithoutNewline(s);
    var plus := n > 0 && s[0] == '+';
    var p := if plus then 1 else 0;
    if n - p <= 15 {
      assert MatchesWith(s, plus, false, n - p);
    } else {
      assert MatchesWith(s, plus, true, 15);
    }
  }

  /** The validator accepts exactly the shapes above. */
  lemma PhoneRegexIsShape(s: string)
    ensures PhoneRegexMatches(s) <==> PhoneShape(s)
  {
    if PhoneRegexMatches(s) {
      var plus: bool, one: bool, digits :| 9 <= digits <= 15 && MatchesWith(s, plus, one, digits);
      MatchHasShape(s, plus, one, digits);
    }
    if PhoneShape(s) {
      ShapeHasMatch(s);
    }
  }

  /** A number the validator accepts is at most 18 characters long, and at
      most 17 -- the field's limit -- unless it ends in a newline. */
  lemma PhoneFitsField(s: string)
    requires PhoneRegexMatches(s)
    ensures |s| <= 18
    ensures |s| <= 17 || s[|s| - 1] == '\n'
  {
    PhoneRegexIsShape(s);
  }
}
