/**
 * components/aceternity-steps/personal-info-step.tsx: the step's own field
 * validator (a copy that differs from lib/validation.ts), the one-key patch
 * each input emits, the ledger update that follows it, and the image and bio
 * patches, which bypass the ledger.
 */
module PersonalStep {
  import opened Wrappers
  import opened Text
  import opened Patterns
  import opened FormData
  import opened Ledger
  import Validation

  datatype Field = FirstName | LastName | Email | Phone | DateOfBirth | Gender

  /** The ledger key of a field (`keyof PersonalInfo`). */
  function Key(f: Field): string {
    match f
    case FirstName => "firstName"
    case LastName => "lastName"
    case Email => "email"
    case Phone => "phone"
    case DateOfBirth => "dateOfBirth"
    case Gender => "gender"
  }

  lemma KeyInjective(f: Field, g: Field)
    ensures Key(f) == Key(g) <==> f == g
  {
  }

  function Get(d: PersonalInfo, f: Field): string {
    match f
    case FirstName => d.firstName
    case LastName => d.lastName
    case Email => d.email
    case Phone => d.phone
    case DateOfBirth => d.dateOfBirth
    case Gender => d.gender
  }

  /** `validateField` for the two name fields: the message names the field. */
  function ValidateName(f: Field, value: string): (error: string)
    requires f == FirstName || f == LastName
    ensures error == "" <==> !AllSpace(value) && |value| >= 2
    ensures f == FirstName && AllSpace(value) ==> error == "First name is required"
    ensures f == LastName && AllSpace(value) ==> error == "Last name is required"
    ensures f == FirstName && !AllSpace(value) && |value| < 2 ==> error == "First name must be at least 2 characters"
    ensures f == LastName && !AllSpace(value) && |value| < 2 ==> error == "Last name must be at least 2 characters"
  {
    if IsBlank(value) then
      if f == FirstName then "First name is required" else "Last name is required"
    else if |value| < 2 then
      if f == FirstName then "First name must be at least 2 characters" else "Last name must be at least 2 characters"
    else ""
  }

  function ValidateEmail(value: string): (error: string)
    ensures error == "" <==> MatchesEmailRegex(value)
    ensures AllSpace(value) ==> error == "Email is required"
    ensures !AllSpace(value) && !MatchesEmailRegex(value) ==> error == "Please enter a valid email address"
  {
    Validation.EmailIsNotBlank(value);
    if IsBlank(value) then "Email is required"
    else if !IsEmailShape(value) then "Please enter a valid email address"
    else ""
  }

  /** This copy's phone class: digits, whitespace, '-', '(' and ')' after an optional '+'. */
  function ValidatePhone(value: string): (error: string)
    ensures error == "" <==> !AllSpace(value) && MatchesPhoneRegex(StepClass, value)
    ensures AllSpace(value) ==> error == "Phone number is required"
    ensures !AllSpace(value) && !MatchesPhoneRegex(StepClass, value) ==> error == "Please enter a valid phone number"
  {
    PhoneShapeIsRegex(StepClass, value);
    if IsBlank(value) then "Phone number is required"
    else if !IsPhoneShape(StepClass, value) then "Please enter a valid phone number"
    else ""
  }

  /** Age is `currentYear - birthYear`; the two age checks are separate `if`s and cannot both hit. */
  function ValidateDateOfBirth(value: string, currentYear: int, birthYear: int): (error: string)
    ensures value == "" ==> error == "Date of birth is required"
    ensures value != "" ==> (error == "" <==> 18 <= currentYear - birthYear <= 100)
    ensures value != "" && currentYear - birthYear < 18 ==> error == "Must be at least 18 years old"
    ensures value != "" && currentYear - birthYear > 100 ==> error == "Please enter a valid date of birth"
  {
    if value == "" then "Date of birth is required"
    else
      var age := currentYear - birthYear;
      var afterFirst := if age < 18 then "Must be at least 18 years old" else "";
      if age > 100 then "Please enter a valid date of birth" else afterFirst
  }

  /** `validateField`: "" when the value passes. */
  function ValidateField(f: Field, value: string, currentYear: int, birthYear: int): (error: string)
    ensures (f == FirstName || f == LastName) ==> error == ValidateName(f, value)
    ensures f == Email ==> error == ValidateEmail(value)
    ensures f == Phone ==> error == ValidatePhone(value)
    ensures f == DateOfBirth ==> error == ValidateDateOfBirth(value, currentYear, birthYear)
    ensures f == Gender ==> (error == "" <==> value != "")
    ensures f == Gender && value == "" ==> error == "Please select a gender"
  {
    match f
    case FirstName => ValidateName(f, value)
    case LastName => ValidateName(f, value)
    case Email => ValidateEmail(value)
    case Phone => ValidatePhone(value)
    case DateOfBirth => ValidateDateOfBirth(value, currentYear, birthYear)
    case Gender => if value == "" then "Please select a gender" else ""
  }

  /** `{ [field]: value }` */
  function FieldPatch(f: Field, value: string): PersonalPatch {
    match f
    case FirstName => NoPersonalChange.(firstName := Some(value))
    case LastName => NoPersonalChange.(lastName := Some(value))
    case Email => NoPersonalChange.(email := Some(value))
    case Phone => NoPersonalChange.(phone := Some(value))
    case DateOfBirth => NoPersonalChange.(dateOfBirth := Some(value))
    case Gender => NoPersonalChange.(gender := Some(value))
  }

  /** What one input event produces: the section patch, then the replacement ledger. */
  datatype Edit = Edit(patch: PersonalPatch, errors: Errors)

  /** `handleInputChange(field, value)`: `onChange({ [field]: value })`, then `validateField(field, value)`. */
  function HandleInputChange(errors: Errors, f: Field, value: string, currentYear: int, birthYear: int): (e: Edit)
    ensures e.errors.Keys == errors.Keys + {Key(f)}
    ensures e.errors[Key(f)] == ValidateField(f, value, currentYear, birthYear)
    ensures forall k :: k in errors && k != Key(f) ==> e.errors[k] == errors[k]
    ensures forall d: PersonalInfo, g :: Get(MergePersonal(d, e.patch), g) == if g == f then value else Get(d, g)
    ensures forall d: PersonalInfo :: MergePersonal(d, e.patch).profileImage == d.profileImage
    ensures forall d: PersonalInfo :: MergePersonal(d, e.patch).bio == d.bio
  {
    forall d: PersonalInfo, g ensures Get(MergePersonal(d, FieldPatch(f, value)), g) == if g == f then value else Get(d, g) {
      InputPatchChangesOnlyItsField(d, f, value, g);
    }
    Edit(FieldPatch(f, value), Record(errors, Key(f), ValidateField(f, value, currentYear, birthYear)))
  }

  /** Merging the patch of one input changes that field to the typed value and nothing else. */
  lemma InputPatchChangesOnlyItsField(d: PersonalInfo, f: Field, value: string, g: Field)
    ensures Get(MergePersonal(d, FieldPatch(f, value)), g) == if g == f then value else Get(d, g)
    ensures MergePersonal(d, FieldPatch(f, value)).profileImage == d.profileImage
    ensures MergePersonal(d, FieldPatch(f, value)).bio == d.bio
  {
  }

  /** `handleFileChange`: a patch only when a file was picked. */
  function FileChange(picked: Option<FileRef>): (p: Option<PersonalPatch>)
    ensures p.Some? <==> picked.Some?
  {
    if picked.Some? then Some(NoPersonalChange.(profileImage := Some(picked)))
    else None
  }

  /** `removeImage` */
  function RemoveImage(): PersonalPatch {
    NoPersonalChange.(profileImage := Some(None))
  }

  /** The bio textarea: `onChange({ bio: value })`, with no validation and no ledger write. */
  function BioChange(value: string): PersonalPatch {
    NoPersonalChange.(bio := Some(value))
  }

  /** Picking a file stores it, removing stores null, the bio patch sets the bio; no other field moves. */
  lemma ImageAndBioPatches(d: PersonalInfo, file: FileRef, value: string)
    ensures MergePersonal(d, FileChange(Some(file)).value) == d.(profileImage := Some(file))
    ensures MergePersonal(d, RemoveImage()) == d.(profileImage := None)
    ensures MergePersonal(d, BioChange(value)) == d.(bio := value)
  {
  }

  /** The name, email and gender checks of this copy give the library's answer and message. */
  lemma NamesEmailGenderAgreeWithLibrary(value: string, currentYear: int, birthYear: int)
    ensures ValidateField(FirstName, value, currentYear, birthYear) == Validation.FirstName(value).GetOr("")
    ensures ValidateField(LastName, value, currentYear, birthYear) == Validation.LastName(value).GetOr("")
    ensures ValidateField(Email, value, currentYear, birthYear) == Validation.Email(value).GetOr("")
    ensures ValidateField(Gender, value, currentYear, birthYear) == Validation.Gender(value).GetOr("")
  {
  }

  /** The date checks pass and fail together, but the under-age message differs from the library's. */
  lemma DateOfBirthAgreesExceptUnderAgeMessage(value: string, currentYear: int, birthYear: int)
    ensures (ValidateDateOfBirth(value, currentYear, birthYear) == "") <==>
      Validation.DateOfBirth(value, currentYear, birthYear).None?
    ensures value != "" && currentYear - birthYear < 18 ==>
      ValidateDateOfBirth(value, currentYear, birthYear) != Validation.DateOfBirth(value, currentYear, birthYear).GetOr("")
  {
  }

  /** The two phone checks agree on every value without '(', ')' or '$'. */
  lemma PhoneAgreesWithoutSpecials(value: string)
    requires forall i :: 0 <= i < |value| ==> value[i] != '(' && value[i] != ')' && value[i] != '$'
    ensures ValidatePhone(value) == Validation.Phone(value).GetOr("")
  {
    ClassesAgreeWithoutSpecials(value);
  }
}
