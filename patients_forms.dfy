/** patients/forms.py: `PatientRegistrationForm` and the update form that
    inherits it. Both validate the same way; the user and the timestamps are
    not among their fields. */
module PatientsForms {
  import opened Common
  import opened Calendar
  import opened PatientsModel
  import AccountsModel

  /** `clean_height`: a negative height is refused; a missing height, a height
      of exactly 0 (falsy, so the guard lets it through) and a positive height
      come back unchanged. */
  function CleanHeight(height: Option<int>): (r: Result<Option<int>, string>)
    ensures r.Failure? <==> height.Some? && height.value < 0
    ensures r.Success? ==> r.value == height
  {
    if height.Some? && height.value != 0 && height.value <= 0 then Failure("Height must be a positive number")
    else Success(height)
  }

  /** `clean_weight`, by the same three rules. */
  function CleanWeight(weight: Option<int>): (r: Result<Option<int>, string>)
    ensures r.Failure? <==> weight.Some? && weight.value < 0
    ensures r.Success? ==> r.value == weight
  {
    if weight.Some? && weight.value != 0 && weight.value <= 0 then Failure("Weight must be a positive number")
    else Success(weight)
  }

  /** `DecimalField(max_digits=5, decimal_places=2)` in hundredths. */
  predicate FitsDecimal(v: Option<int>) {
    v.None? || -99999 <= v.value <= 99999
  }

  /** A phone field: blank, or accepted by `phone_regex` within 17
      characters. */
  predicate PhoneFieldValid(s: string) {
    s == "" || (PhoneRegexMatches(s) && |s| <= 17)
  }

  /** The `max_length` of the bounded text fields. */
  const EMERGENCY_CONTACT_NAME_MAX := 100
  const INSURANCE_PROVIDER_MAX := 100
  const INSURANCE_POLICY_NUMBER_MAX := 50

  predicate LengthsValid(data: PatientData) {
    |data.emergencyContactName| <= EMERGENCY_CONTACT_NAME_MAX
    && |data.insuranceProvider| <= INSURANCE_PROVIDER_MAX
    && |data.insurancePolicyNumber| <= INSURANCE_POLICY_NUMBER_MAX
  }

  /** The record's field rules: a gender among the choices, a blood type among
      the choices or blank, valid phone fields, the bounded text fields within
      their maximum lengths, and heights and weights that fit their decimal
      fields and pass `clean_height`/`clean_weight`. */
  predicate FieldsValid(data: PatientData) {
    IsGender(data.gender) && IsBloodTypeOrBlank(data.bloodType)
    && PhoneFieldValid(data.phoneNumber) && PhoneFieldValid(data.emergencyContactPhone)
    && LengthsValid(data)
    && FitsDecimal(data.height) && FitsDecimal(data.weight)
    && CleanHeight(data.height).Success? && CleanWeight(data.weight).Success?
  }

  /** `is_valid()` of the registration form, and of the update form, which
      adds nothing to it. */
  function ValidatePatientForm(data: PatientData): (r: Result<PatientData, string>)
    ensures r.Success? <==> FieldsValid(data)
    ensures r.Success? ==> r.value == data
    ensures r.Success? ==> (data.height.None? || data.height.value >= 0) && (data.weight.None? || data.weight.value >= 0)
    ensures r.Success? ==> IsGender(r.value.gender) && IsBloodTypeOrBlank(r.value.bloodType)
    ensures r.Success? ==>
              |data.emergencyContactName| <= 100 && |data.insuranceProvider| <= 100
              && |data.insurancePolicyNumber| <= 50
  {
    if !IsGender(data.gender) then Failure("gender")
    else if !IsBloodTypeOrBlank(data.bloodType) then Failure("blood_type")
    else if !PhoneFieldValid(data.phoneNumber) then Failure("phone_number")
    else if !PhoneFieldValid(data.emergencyContactPhone) then Failure("emergency_contact_phone")
    else if |data.emergencyContactName| > EMERGENCY_CONTACT_NAME_MAX then Failure("emergency_contact_name")
    else if |data.insuranceProvider| > INSURANCE_PROVIDER_MAX then Failure("insurance_provider")
    else if |data.insurancePolicyNumber| > INSURANCE_POLICY_NUMBER_MAX then Failure("insurance_policy_number")
    else if !FitsDecimal(data.height) then Failure("height")
    else if !FitsDecimal(data.weight) then Failure("weight")
    else match CleanHeight(data.height)
      case Failure(e) => Failure(e)
      case Success(_) =>
        match CleanWeight(data.weight)
        case Failure(e) => Failure(e)
        case Success(_) => Success(data)
  }

  /** The form strips a phone number of surrounding whitespace before
      validating it, and a stripped number the pattern accepts already fits
      the 17-character limit. */
  lemma StrippedPhoneFitsField(raw: string)
    requires PhoneRegexMatches(AccountsModel.Strip(raw))
    ensures PhoneFieldValid(AccountsModel.Strip(raw))
  {
    var s := AccountsModel.Strip(raw);
    PhoneFitsField(s);
    assert AccountsModel.IsSpace('\n');
  }
}
