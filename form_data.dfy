/**
 * types/teacher-form.ts: the application document the wizard builds, the
 * `Partial<...>` patches the step editors emit, and the shallow merge
 * `{ ...prev[section], ...data }` the containers apply to one record section.
 */
module FormData {
  import opened Wrappers

  /** A selected image file; only its identity matters here. */
  datatype FileRef = FileRef(name: string)

  datatype PersonalInfo = PersonalInfo(
    firstName: string,
    lastName: string,
    email: string,
    phone: string,
    dateOfBirth: string,
    gender: string,
    profileImage: Option<FileRef>,
    bio: string)

  datatype Address = Address(street: string, city: string, state: string, zipCode: string, country: string)

  datatype SocialMedia = SocialMedia(linkedin: Option<string>, twitter: Option<string>, website: Option<string>)

  datatype ContactInfo = ContactInfo(
    workEmail: string,
    alternatePhone: string,
    address: Address,
    socialMedia: SocialMedia)

  datatype QualificationType = Private | Group

  datatype QualificationInfo = QualificationInfo(
    id: string,
    degree: string,
    institution: string,
    graduationYear: string,
    subject: string,
    level: string,
    certification: string,
    rate: real,
    kind: QualificationType,
    experience: int)

  datatype PreferredSchedule = FullTime | PartTime | Flexible

  datatype TimeSlot = TimeSlot(day: string, startTime: string, endTime: string, available: bool)

  datatype AvailabilityInfo = AvailabilityInfo(
    preferredSchedule: PreferredSchedule,
    timeSlots: seq<TimeSlot>,
    timezone: string,
    maxStudentsPerClass: int,
    teachingMethods: seq<string>)

  datatype EmergencyContact = EmergencyContact(
    name: string,
    relationship: string,
    phone: string,
    email: string,
    address: string)

  datatype TeacherFormData = TeacherFormData(
    personalInfo: PersonalInfo,
    contactInfo: ContactInfo,
    qualifications: seq<QualificationInfo>,
    availability: AvailabilityInfo,
    emergencyContact: EmergencyContact)

  // Partial<...> of each record section: `None` is a key the patch does not carry.

  datatype PersonalPatch = PersonalPatch(
    firstName: Option<string>,
    lastName: Option<string>,
    email: Option<string>,
    phone: Option<string>,
    dateOfBirth: Option<string>,
    gender: Option<string>,
    profileImage: Option<Option<FileRef>>,
    bio: Option<string>)

  datatype ContactPatch = ContactPatch(
    workEmail: Option<string>,
    alternatePhone: Option<string>,
    address: Option<Address>,
    socialMedia: Option<SocialMedia>)

  datatype AvailabilityPatch = AvailabilityPatch(
    preferredSchedule: Option<PreferredSchedule>,
    timeSlots: Option<seq<TimeSlot>>,
    timezone: Option<string>,
    maxStudentsPerClass: Option<int>,
    teachingMethods: Option<seq<string>>)

  datatype EmergencyPatch = EmergencyPatch(
    name: Option<string>,
    relationship: Option<string>,
    phone: Option<string>,
    email: Option<string>,
    address: Option<string>)

  const NoPersonalChange := PersonalPatch(None, None, None, None, None, None, None, None)
  const NoContactChange := ContactPatch(None, None, None, None)
  const NoAvailabilityChange := AvailabilityPatch(None, None, None, None, None)
  const NoEmergencyChange := EmergencyPatch(None, None, None, None, None)

  /** `{ ...prev, ...data }` on the personal section: a key the patch carries overrides, the rest stay. */
  function MergePersonal(prev: PersonalInfo, data: PersonalPatch): PersonalInfo {
    PersonalInfo(
      data.firstName.GetOr(prev.firstName),
      data.lastName.GetOr(prev.lastName),
      data.email.GetOr(prev.email),
      data.phone.GetOr(prev.phone),
      data.dateOfBirth.GetOr(prev.dateOfBirth),
      data.gender.GetOr(prev.gender),
      data.profileImage.GetOr(prev.profileImage),
      data.bio.GetOr(prev.bio))
  }

  function MergeContact(prev: ContactInfo, data: ContactPatch): ContactInfo {
    ContactInfo(
      data.workEmail.GetOr(prev.workEmail),
      data.alternatePhone.GetOr(prev.alternatePhone),
      data.address.GetOr(prev.address),
      data.socialMedia.GetOr(prev.socialMedia))
  }

  function MergeAvailability(prev: AvailabilityInfo, data: AvailabilityPatch): AvailabilityInfo {
    AvailabilityInfo(
      data.preferredSchedule.GetOr(prev.preferredSchedule),
      data.timeSlots.GetOr(prev.timeSlots),
      data.timezone.GetOr(prev.timezone),
      data.maxStudentsPerClass.GetOr(prev.maxStudentsPerClass),
      data.teachingMethods.GetOr(prev.teachingMethods))
  }

  function MergeEmergency(prev: EmergencyContact, data: EmergencyPatch): EmergencyContact {
    EmergencyContact(
      data.name.GetOr(prev.name),
      data.relationship.GetOr(prev.relationship),
      data.phone.GetOr(prev.phone),
      data.email.GetOr(prev.email),
      data.address.GetOr(prev.address))
  }

  /** `{ ...p, ...q }` of two personal patches: the later key wins. */
  function CombinePersonal(p: PersonalPatch, q: PersonalPatch): PersonalPatch {
    PersonalPatch(
      if q.firstName.Some? then q.firstName else p.firstName,
      if q.lastName.Some? then q.lastName else p.lastName,
      if q.email.Some? then q.email else p.email,
      if q.phone.Some? then q.phone else p.phone,
      if q.dateOfBirth.Some? then q.dateOfBirth else p.dateOfBirth,
      if q.gender.Some? then q.gender else p.gender,
      if q.profileImage.Some? then q.profileImage else p.profileImage,
      if q.bio.Some? then q.bio else p.bio)
  }

  /**
   * Shallow merge laws: the empty patch changes nothing, merging the same patch
   * twice is merging it once, and two merges in a row are one merge of the
   * combined patch.
   */
  lemma PersonalMergeLaws(prev: PersonalInfo, p: PersonalPatch, q: PersonalPatch)
    ensures MergePersonal(prev, NoPersonalChange) == prev
    ensures MergePersonal(MergePersonal(prev, p), p) == MergePersonal(prev, p)
    ensures MergePersonal(MergePersonal(prev, p), q) == MergePersonal(prev, CombinePersonal(p, q))
  {
  }

  lemma ContactMergeLaws(prev: ContactInfo, p: ContactPatch)
    ensures MergeContact(prev, NoContactChange) == prev
    ensures MergeContact(MergeContact(prev, p), p) == MergeContact(prev, p)
  {
  }

  lemma AvailabilityMergeLaws(prev: AvailabilityInfo, p: AvailabilityPatch)
    ensures MergeAvailability(prev, NoAvailabilityChange) == prev
    ensures MergeAvailability(MergeAvailability(prev, p), p) == MergeAvailability(prev, p)
  {
  }

  lemma EmergencyMergeLaws(prev: EmergencyContact, p: EmergencyPatch)
    ensures MergeEmergency(prev, NoEmergencyChange) == prev
    ensures MergeEmergency(MergeEmergency(prev, p), p) == MergeEmergency(prev, p)
  {
  }

  const WeekDays: seq<string> := ["Monday", "Tuesday", "Wednesday", "Thursday", "Friday", "Saturday", "Sunday"]

  /** `initialFormData`, the same in both wizard containers. */
  function InitialFormData(): (d: TeacherFormData)
    ensures d.qualifications == []
    ensures |d.availability.timeSlots| == 7
    ensures forall i :: 0 <= i < 7 ==>
      d.availability.timeSlots[i] == TimeSlot(WeekDays[i], "", "", false)
    ensures d.availability.maxStudentsPerClass == 10 && d.availability.teachingMethods == []
    ensures d.personalInfo.profileImage == None
  {
    TeacherFormData(
      PersonalInfo("", "", "", "", "", "", None, ""),
      ContactInfo("", "", Address("", "", "", "", ""), SocialMedia(Some(""), Some(""), Some(""))),
      [],
      AvailabilityInfo(
        FullTime,
        seq(7, i requires 0 <= i < 7 => TimeSlot(WeekDays[i], "", "", false)),
        "",
        10,
        []),
      EmergencyContact("", "", "", "", ""))
  }
}
