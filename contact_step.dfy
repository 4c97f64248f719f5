/**
 * components/aceternity-steps/contact-info-step.tsx: the optional work-email
 * check, and the input handler that routes a dotted key ("address.city",
 * "socialMedia.twitter") to a merge into the nested sub-record and a plain
 * key to a one-key patch.
 */
module ContactStep {
  import opened Wrappers
  import opened Text
  import opened Patterns
  import opened FormData
  import opened Ledger
  import Validation

  datatype AddressPart = Street | City | State | ZipCode | Country
  datatype Network = Linkedin | Twitter | Website

  /** The inputs of the step; each input reports its own key to the handler. */
  datatype Field = WorkEmail | AlternatePhone | AddressField(part: AddressPart) | SocialField(network: Network)

  function AddressPartName(p: AddressPart): string {
    match p
    case Street => "street"
    case City => "city"
    case State => "state"
    case ZipCode => "zipCode"
    case Country => "country"
  }

  function NetworkName(n: Network): string {
    match n
    case Linkedin => "linkedin"
    case Twitter => "twitter"
    case Website => "website"
  }

  /** The key string each input passes to `handleInputChange`, which is also its ledger key. */
  function Key(f: Field): string {
    match f
    case WorkEmail => "workEmail"
    case AlternatePhone => "alternatePhone"
    case AddressField(p) => "address" + ['.'] + AddressPartName(p)
    case SocialField(n) => "socialMedia" + ['.'] + NetworkName(n)
  }

  lemma KeyInjective(f: Field, g: Field)
    ensures Key(f) == Key(g) <==> f == g
  {
    if f != g {
      if f.AddressField? && g.AddressField? {
        assert Key(f)[8..] == AddressPartName(f.part) != AddressPartName(g.part) == Key(g)[8..];
      } else if f.SocialField? && g.SocialField? {
        assert Key(f)[12..] == NetworkName(f.network) != NetworkName(g.network) == Key(g)[12..];
      } else {
        assert Key(f)[0] != Key(g)[0] || Key(f)[1] != Key(g)[1];
      }
    }
  }

  function GetAddress(a: Address, p: AddressPart): string {
    match p
    case Street => a.street
    case City => a.city
    case State => a.state
    case ZipCode => a.zipCode
    case Country => a.country
  }

  function GetNetwork(s: SocialMedia, n: Network): Option<string> {
    match n
    case Linkedin => s.linkedin
    case Twitter => s.twitter
    case Website => s.website
  }

  /** The current value of an input; an absent social link reads as "". */
  function Get(d: ContactInfo, f: Field): string {
    match f
    case WorkEmail => d.workEmail
    case AlternatePhone => d.alternatePhone
    case AddressField(p) => GetAddress(d.address, p)
    case SocialField(n) => GetNetwork(d.socialMedia, n).GetOr("")
  }

  /** `{ ...data.address, [subField]: value }` for a known sub-field name. */
  function SetAddress(a: Address, sub: string, value: string): Option<Address> {
    if sub == "street" then Some(a.(street := value))
    else if sub == "city" then Some(a.(city := value))
    else if sub == "state" then Some(a.(state := value))
    else if sub == "zipCode" then Some(a.(zipCode := value))
    else if sub == "country" then Some(a.(country := value))
    else None
  }

  /** `{ ...data.socialMedia, [subField]: value }` for a known sub-field name. */
  function SetNetwork(s: SocialMedia, sub: string, value: string): Option<SocialMedia> {
    if sub == "linkedin" then Some(s.(linkedin := Some(value)))
    else if sub == "twitter" then Some(s.(twitter := Some(value)))
    else if sub == "website" then Some(s.(website := Some(value)))
    else None
  }

  /**
   * `handleInputChange`'s patch for a key string: a key holding '.' is split,
   * its first part names the section and its second the sub-field, and the
   * section is sent whole with that one sub-field replaced; any other key is a
   * one-key patch. None for a key that names no field of ContactInfo.
   */
  function KeyPatch(data: ContactInfo, key: string, value: string): Option<ContactPatch> {
    if '.' in key then
      var parts := Split(key, '.');
      var section := parts[0];
      var sub := parts[1];
      if section == "address" then
        match SetAddress(data.address, sub, value)
        case Some(a) => Some(NoContactChange.(address := Some(a)))
        case None => None
      else if section == "socialMedia" then
        match SetNetwork(data.socialMedia, sub, value)
        case Some(s) => Some(NoContactChange.(socialMedia := Some(s)))
        case None => None
      else None
    else if key == "workEmail" then Some(NoContactChange.(workEmail := Some(value)))
    else if key == "alternatePhone" then Some(NoContactChange.(alternatePhone := Some(value)))
    else None
  }

  /** Splitting the key of a nested input on '.' gives back its section and its sub-field. */
  lemma {:induction false} SplitNestedKey(section: string, sub: string)
    requires '.' !in section && '.' !in sub
    ensures Split(section + ['.'] + sub, '.') == [section, sub]
  {
    SplitAtSeparator(section, sub, '.');
    SplitWithoutSeparator(sub, '.');
  }

  /** The patch each input is meant to emit, written per field. */
  function FieldPatch(data: ContactInfo, f: Field, value: string): ContactPatch {
    match f
    case WorkEmail => NoContactChange.(workEmail := Some(value))
    case AlternatePhone => NoContactChange.(alternatePhone := Some(value))
    case AddressField(p) => NoContactChange.(address := Some(SetAddressPart(data.address, p, value)))
    case SocialField(n) => NoContactChange.(socialMedia := Some(SetNetworkPart(data.socialMedia, n, value)))
  }

  function SetAddressPart(a: Address, p: AddressPart, value: string): Address {
    match p
    case Street => a.(street := value)
    case City => a.(city := value)
    case State => a.(state := value)
    case ZipCode => a.(zipCode := value)
    case Country => a.(country := value)
  }

  function SetNetworkPart(s: SocialMedia, n: Network, value: string): SocialMedia {
    match n
    case Linkedin => s.(linkedin := Some(value))
    case Twitter => s.(twitter := Some(value))
    case Website => s.(website := Some(value))
  }

  lemma SetAddressByName(a: Address, p: AddressPart, value: string)
    ensures SetAddress(a, AddressPartName(p), value) == Some(SetAddressPart(a, p, value))
  {
  }

  lemma SetNetworkByName(s: SocialMedia, n: Network, value: string)
    ensures SetNetwork(s, NetworkName(n), value) == Some(SetNetworkPart(s, n, value))
  {
  }

  /** The key-string handler emits, for every input's key, exactly that input's patch. */
  lemma {:induction false} KeyPatchOfEveryField(data: ContactInfo, f: Field, value: string)
    ensures KeyPatch(data, Key(f), value) == Some(FieldPatch(data, f, value))
  {
    match f
    case WorkEmail =>
    case AlternatePhone =>
    case AddressField(p) =>
      var key := "address" + ['.'] + AddressPartName(p);
      assert key == Key(f);
      assert key[7] == '.';
      SplitNestedKey("address", AddressPartName(p));
      SetAddressByName(data.address, p, value);
    case SocialField(n) =>
      var key := "socialMedia" + ['.'] + NetworkName(n);
      assert key == Key(f);
      assert key[11] == '.';
      SplitNestedKey("socialMedia", NetworkName(n));
      SetNetworkByName(data.socialMedia, n, value);
  }

  /**
   * Merging an input's patch sets that input to the typed value and keeps
   * every other input, in particular the sibling sub-fields of a nested one.
   */
  lemma InputPatchChangesOnlyItsField(d: ContactInfo, f: Field, value: string, g: Field)
    ensures Get(MergeContact(d, FieldPatch(d, f, value)), g) == if g == f then value else Get(d, g)
  {
  }

  /**
   * `validateField`: only a non-empty work email is checked, against the email
   * pattern; every other input, and an empty work email, records "".
   */
  function ValidateField(f: Field, value: string): (error: string)
    ensures error == "" <==> f != WorkEmail || value == "" || MatchesEmailRegex(value)
    ensures error != "" ==> error == "Please enter a valid work email address"
  {
    EmailShapeIsRegex(value);
    if f == WorkEmail && value != "" && !IsEmailShape(value) then "Please enter a valid work email address"
    else ""
  }

  datatype Edit = Edit(patch: ContactPatch, errors: Errors)

  /**
   * `handleInputChange(field, value)`: the patch the key string routes to,
   * then `validateField(field, value)` recorded under that same key.
   */
  function HandleInputChange(data: ContactInfo, errors: Errors, f: Field, value: string): (e: Edit)
    ensures e.errors.Keys == errors.Keys + {Key(f)}
    ensures e.errors[Key(f)] == ValidateField(f, value)
    ensures forall k :: k in errors && k != Key(f) ==> e.errors[k] == errors[k]
    ensures forall g :: Get(MergeContact(data, e.patch), g) == if g == f then value else Get(data, g)
  {
    KeyPatchOfEveryField(data, f, value);
    forall g ensures Get(MergeContact(data, FieldPatch(data, f, value)), g) == if g == f then value else Get(data, g) {
      InputPatchChangesOnlyItsField(data, f, value, g);
    }
    Edit(KeyPatch(data, Key(f), value).value, Record(errors, Key(f), ValidateField(f, value)))
  }

  /** Editing any input other than the work email keeps a clear ledger clear. */
  lemma OnlyWorkEmailCanBlock(data: ContactInfo, errors: Errors, f: Field, value: string)
    requires f != WorkEmail
    requires NoActiveErrors(errors)
    ensures NoActiveErrors(HandleInputChange(data, errors, f, value).errors)
  {
  }

  /**
   * The step treats the work email as optional where the library requires it,
   * and on a present value the two answer alike.
   */
  lemma WorkEmailOptionalHereRequiredInLibrary(value: string)
    ensures ValidateField(WorkEmail, "") == "" && Validation.WorkEmail("") == Some("Work email is required")
    ensures !AllSpace(value) ==> ValidateField(WorkEmail, value) == Validation.WorkEmail(value).GetOr("")
  {
    Validation.EmailIsNotBlank(value);
  }
}
