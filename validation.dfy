/**
 * lib/validation.ts: the three validator schemas. Each validator maps a field
 * value to `null` (here `None`) or a fixed message. The date of birth is
 * checked on calendar years only, so the current year and the birth year are
 * parameters.
 */
module Validation {
  import opened Wrappers
  import opened Text
  import opened Patterns

  // personalInfoSchema

  function FirstName(value: string): (r: Option<string>)
    ensures r.None? <==> !AllSpace(value) && |value| >= 2
    ensures AllSpace(value) ==> r == Some("First name is required")
    ensures !AllSpace(value) && |value| < 2 ==> r == Some("First name must be at least 2 characters")
  {
    if IsBlank(value) then Some("First name is required")
    else if |value| < 2 then Some("First name must be at least 2 characters")
    else None
  }

  function LastName(value: string): (r: Option<string>)
    ensures r.None? <==> !AllSpace(value) && |value| >= 2
    ensures AllSpace(value) ==> r == Some("Last name is required")
    ensures !AllSpace(value) && |value| < 2 ==> r == Some("Last name must be at least 2 characters")
  {
    if IsBlank(value) then Some("Last name is required")
    else if |value| < 2 then Some("Last name must be at least 2 characters")
    else None
  }

  /** The length test counts the untrimmed value: one letter after a space passes, one letter alone fails. */
  lemma LengthIsUntrimmed()
    ensures FirstName(" a") == None
    ensures FirstName("a") == Some("First name must be at least 2 characters")
  {
    assert !IsSpace(" a"[1]);
    assert !IsSpace("a"[0]);
  }

  function Email(value: string): (r: Option<string>)
    ensures r.None? <==> MatchesEmailRegex(value)
    ensures AllSpace(value) ==> r == Some("Email is required")
    ensures !AllSpace(value) && !MatchesEmailRegex(value) ==> r == Some("Please enter a valid email address")
  {
    EmailIsNotBlank(value);
    if IsBlank(value) then Some("Email is required")
    else if !IsEmailShape(value) then Some("Please enter a valid email address")
    else None
  }

  /** In this schema the work email is required, unlike in the contact step. */
  function WorkEmail(value: string): (r: Option<string>)
    ensures r.None? <==> MatchesEmailRegex(value)
    ensures AllSpace(value) ==> r == Some("Work email is required")
    ensures !AllSpace(value) && !MatchesEmailRegex(value) ==> r == Some("Please enter a valid work email address")
  {
    EmailIsNotBlank(value);
    if IsBlank(value) then Some("Work email is required")
    else if !IsEmailShape(value) then Some("Please enter a valid work email address")
    else None
  }

  /** Anything the email test accepts has a non-space character, so the "required" branch never hides a valid address. */
  lemma EmailIsNotBlank(value: string)
    ensures IsEmailShape(value) <==> MatchesEmailRegex(value)
    ensures IsEmailShape(value) ==> !AllSpace(value)
  {
    EmailShapeIsRegex(value);
    if IsEmailShape(value) {
      var at := IndexOf(value, '@');
      assert value[..at][0] == value[0];
      assert !IsSpace(value[0]);
    }
  }

  /** Library phone class: digits, whitespace, '-' and '$' after an optional '+'; parentheses fail. */
  function Phone(value: string): (r: Option<string>)
    ensures r.None? <==> !AllSpace(value) && MatchesPhoneRegex(LibClass, value)
    ensures AllSpace(value) ==> r == Some("Phone number is required")
    ensures !AllSpace(value) && !MatchesPhoneRegex(LibClass, value) ==> r == Some("Please enter a valid phone number")
  {
    PhoneShapeIsRegex(LibClass, value);
    if IsBlank(value) then Some("Phone number is required")
    else if !IsPhoneShape(LibClass, value) then Some("Please enter a valid phone number")
    else None
  }

  /** Age is `currentYear - birthYear`; only the empty string counts as missing (no trim). */
  function DateOfBirth(value: string, currentYear: int, birthYear: int): (r: Option<string>)
    ensures value == "" ==> r == Some("Date of birth is required")
    ensures value != "" ==> (r.None? <==> 18 <= currentYear - birthYear <= 100)
    ensures value != "" && currentYear - birthYear < 18 ==> r == Some("Teacher must be at least 18 years old")
    ensures value != "" && currentYear - birthYear > 100 ==> r == Some("Please enter a valid date of birth")
  {
    var age := currentYear - birthYear;
    if value == "" then Some("Date of birth is required")
    else if age < 18 then Some("Teacher must be at least 18 years old")
    else if age > 100 then Some("Please enter a valid date of birth")
    else None
  }

  function Gender(value: string): (r: Option<string>)
    ensures r.None? <==> value != ""
    ensures value == "" ==> r == Some("Please select a gender")
  {
    if value == "" then Some("Please select a gender") else None
  }

  /** A value that must not be blank after trimming. */
  function Required(value: string, message: string): (r: Option<string>)
    ensures r.None? <==> !AllSpace(value)
    ensures r.Some? ==> r.value == message
  {
    if IsBlank(value) then Some(message) else None
  }

  // addressInfoSchema: every field is only required

  function Street(value: string): (r: Option<string>)
    ensures r.None? <==> !AllSpace(value)
    ensures r.Some? ==> r.value == "Street address is required"
  {
    Required(value, "Street address is required")
  }

  function City(value: string): (r: Option<string>)
    ensures r.None? <==> !AllSpace(value)
    ensures r.Some? ==> r.value == "City is required"
  {
    Required(value, "City is required")
  }

  function State(value: string): (r: Option<string>)
    ensures r.None? <==> !AllSpace(value)
    ensures r.Some? ==> r.value == "State/Province is required"
  {
    Required(value, "State/Province is required")
  }

  function ZipCode(value: string): (r: Option<string>)
    ensures r.None? <==> !AllSpace(value)
    ensures r.Some? ==> r.value == "ZIP/Postal code is required"
  {
    Required(value, "ZIP/Postal code is required")
  }

  function Country(value: string): (r: Option<string>)
    ensures r.None? <==> !AllSpace(value)
    ensures r.Some? ==> r.value == "Country is required"
  {
    Required(value, "Country is required")
  }

  // emergencyContactSchema: no address validator

  function EmergencyName(value: string): (r: Option<string>)
    ensures r.None? <==> !AllSpace(value)
    ensures r.Some? ==> r.value == "Emergency contact name is required"
  {
    Required(value, "Emergency contact name is required")
  }

  function EmergencyRelationship(value: string): (r: Option<string>)
    ensures r.None? <==> !AllSpace(value)
    ensures r.Some? ==> r.value == "Relationship is required"
  {
    Required(value, "Relationship is required")
  }

  /** Same character rule as the personal phone; only the "required" message differs. */
  function EmergencyPhone(value: string): (r: Option<string>)
    ensures AllSpace(value) ==> r == Some("Emergency contact phone is required")
    ensures !AllSpace(value) ==> r == Phone(value)
  {
    if IsBlank(value) then Some("Emergency contact phone is required")
    else if !IsPhoneShape(LibClass, value) then Some("Please enter a valid phone number")
    else None
  }

  /** Same shape rule as the personal email; only the "required" message differs. */
  function EmergencyEmail(value: string): (r: Option<string>)
    ensures AllSpace(value) ==> r == Some("Emergency contact email is required")
    ensures !AllSpace(value) ==> r == Email(value)
  {
    if IsBlank(value) then Some("Emergency contact email is required")
    else if !IsEmailShape(value) then Some("Please enter a valid email address")
    else None
  }
}
