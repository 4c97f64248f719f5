/**
 * components/aceternity-steps/emergency-contact-step.tsx: every field of the
 * emergency contact is required; the phone and email also have a shape.
 */
module EmergencyStep {
  import opened Wrappers
  import opened Text
  import opened Patterns
  import opened FormData
  import opened Ledger
  import Validation

  datatype Field = Name | Relationship | Phone | Email | Address

  /** The ledger key of a field (`keyof EmergencyContact`). */
  function Key(f: Field): string {
    match f
    case Name => "name"
    case Relationship => "relationship"
    case Phone => "phone"
    case Email => "email"
    case Address => "address"
  }

  lemma KeyInjective(f: Field, g: Field)
    ensures Key(f) == Key(g) <==> f == g
  {
  }

  function Get(d: EmergencyContact, f: Field): string {
    match f
    case Name => d.name
    case Relationship => d.relationship
    case Phone => d.phone
    case Email => d.email
    case Address => d.address
  }

  /** The "required" message of each field. */
  function RequiredMessage(f: Field): string {
    match f
    case Name => "Emergency contact name is required"
    case Relationship => "Relationship is required"
    case Phone => "Emergency contact phone is required"
    case Email => "Emergency contact email is required"
    case Address => "Emergency contact address is required"
  }

  /** `validateField` for name, relationship and address: present or not. */
  function ValidatePresent(f: Field, value: string): (error: string)
    requires f == Name || f == Relationship || f == Field.Address
    ensures error == "" <==> !AllSpace(value)
    ensures AllSpace(value) ==> error == RequiredMessage(f)
  {
    if IsBlank(value) then RequiredMessage(f) else ""
  }

  /** This copy's phone class: digits, whitespace, '-', '(' and ')' after an optional '+'. */
  function ValidatePhone(value: string): (error: string)
    ensures error == "" <==> !AllSpace(value) && MatchesPhoneRegex(StepClass, value)
    ensures AllSpace(value) ==> error == "Emergency contact phone is required"
    ensures !AllSpace(value) && !MatchesPhoneRegex(StepClass, value) ==> error == "Please enter a valid phone number"
  {
    PhoneShapeIsRegex(StepClass, value);
    if IsBlank(value) then "Emergency contact phone is required"
    else if !IsPhoneShape(StepClass, value) then "Please enter a valid phone number"
    else ""
  }

  function ValidateEmail(value: string): (error: string)
    ensures error == "" <==> MatchesEmailRegex(value)
    ensures AllSpace(value) ==> error == "Emergency contact email is required"
    ensures !AllSpace(value) && !MatchesEmailRegex(value) ==> error == "Please enter a valid email address"
  {
    Validation.EmailIsNotBlank(value);
    if IsBlank(value) then "Emergency contact email is required"
    else if !IsEmailShape(value) then "Please enter a valid email address"
    else ""
  }

  /** `validateField`: "" when the value passes. */
  function ValidateField(f: Field, value: string): (error: string)
    ensures (f == Name || f == Relationship || f == Field.Address) ==> error == ValidatePresent(f, value)
    ensures f == Phone ==> error == ValidatePhone(value)
    ensures f == Email ==> error == ValidateEmail(value)
  {
    match f
    case Phone => ValidatePhone(value)
    case Email => ValidateEmail(value)
    case _ => ValidatePresent(f, value)
  }

  /** `{ [field]: value }` */
  function FieldPatch(f: Field, value: string): EmergencyPatch {
    match f
    case Name => NoEmergencyChange.(name := Some(value))
    case Relationship => NoEmergencyChange.(relationship := Some(value))
    case Phone => NoEmergencyChange.(phone := Some(value))
    case Email => NoEmergencyChange.(email := Some(value))
    case Address => NoEmergencyChange.(address := Some(value))
  }

  datatype Edit = Edit(patch: EmergencyPatch, errors: Errors)

  /** `handleInputChange(field, value)`: `onChange({ [field]: value })`, then `validateField(field, value)`. */
  function HandleInputChange(errors: Errors, f: Field, value: string): (e: Edit)
    ensures e.errors.Keys == errors.Keys + {Key(f)}
    ensures e.errors[Key(f)] == ValidateField(f, value)
    ensures forall k :: k in errors && k != Key(f) ==> e.errors[k] == errors[k]
    ensures forall d: EmergencyContact, g :: Get(MergeEmergency(d, e.patch), g) == if g == f then value else Get(d, g)
  {
    forall d: EmergencyContact, g ensures Get(MergeEmergency(d, FieldPatch(f, value)), g) == if g == f then value else Get(d, g) {
      InputPatchChangesOnlyItsField(d, f, value, g);
    }
    Edit(FieldPatch(f, value), Record(errors, Key(f), ValidateField(f, value)))
  }

  /** Merging the patch of one input changes that field to the typed value and nothing else. */
  lemma InputPatchChangesOnlyItsField(d: EmergencyContact, f: Field, value: string, g: Field)
    ensures Get(MergeEmergency(d, FieldPatch(f, value)), g) == if g == f then value else Get(d, g)
  {
  }

  /**
   * Name, relationship and email give the library's answer and message; the
   * library has no address rule, which this step requires.
   */
  lemma AgreesWithLibrary(value: string)
    ensures ValidateField(Name, value) == Validation.EmergencyName(value).GetOr("")
    ensures ValidateField(Relationship, value) == Validation.EmergencyRelationship(value).GetOr("")
    ensures ValidateField(Email, value) == Validation.EmergencyEmail(value).GetOr("")
    ensures AllSpace(value) ==> ValidateField(Field.Address, value) == "Emergency contact address is required"
  {
  }

  /** The two phone checks agree on every value without '(', ')' or '$'. */
  lemma PhoneAgreesWithoutSpecials(value: string)
    requires forall i :: 0 <= i < |value| ==> value[i] != '(' && value[i] != ')' && value[i] != '$'
    ensures ValidateField(Phone, value) == Validation.EmergencyPhone(value).GetOr("")
  {
    ClassesAgreeWithoutSpecials(value);
  }
}
