/**
 * components/aceternity-steps/review-step.tsx: the list of available days and
 * what the step shows for a given submission state.
 */
module ReviewStep {
  import opened Wrappers
  import opened FormData
  import Seqs
  import Text

  /** `${slot.day} (${slot.startTime} - ${slot.endTime})` */
  function AvailableDay(slot: TimeSlot): string {
    slot.day + " (" + slot.startTime + " - " + slot.endTime + ")"
  }

  predicate IsAvailable(slot: TimeSlot) {
    slot.available
  }

  /** `line` is the line of some available slot. */
  ghost predicate LineOfAvailable(slots: seq<TimeSlot>, line: string) {
    exists j :: 0 <= j < |slots| && slots[j].available && line == AvailableDay(slots[j])
  }

  /** A line of an available later slot is still one once an earlier slot is put in front. */
  lemma LineOfAvailableCons(slots: seq<TimeSlot>, line: string)
    requires slots != [] && LineOfAvailable(slots[1..], line)
    ensures LineOfAvailable(slots, line)
  {
    var j :| 0 <= j < |slots[1..]| && slots[1..][j].available && line == AvailableDay(slots[1..][j]);
    assert slots[j + 1] == slots[1..][j];
  }

  /** `getAvailableDays`: one line per available slot, in the order of the week. */
  function GetAvailableDays(slots: seq<TimeSlot>): (r: seq<string>)
    ensures |r| == Seqs.CountWhere(IsAvailable, slots)
    ensures forall i :: 0 <= i < |slots| && slots[i].available ==> AvailableDay(slots[i]) in r
    ensures forall i :: 0 <= i < |r| ==> LineOfAvailable(slots, r[i])
  {
    if slots == [] then []
    else
      var rest := GetAvailableDays(slots[1..]);
      assert forall i :: 0 <= i < |rest| ==> LineOfAvailable(slots, rest[i]) by {
        forall i | 0 <= i < |rest| ensures LineOfAvailable(slots, rest[i]) {
          LineOfAvailableCons(slots, rest[i]);
        }
      }
      assert slots[0].available ==> LineOfAvailable(slots, AvailableDay(slots[0]));
      (if slots[0].available then [AvailableDay(slots[0])] else []) + rest
  }

  /** `map((slot) => ...)` over a list of slots. */
  function Lines(f: seq<TimeSlot>): (r: seq<string>)
    ensures |r| == |f|
    ensures forall i :: 0 <= i < |f| ==> r[i] == AvailableDay(f[i])
  {
    seq(|f|, i requires 0 <= i < |f| => AvailableDay(f[i]))
  }

  lemma LinesCons(x: TimeSlot, g: seq<TimeSlot>)
    ensures Lines([x] + g) == [AvailableDay(x)] + Lines(g)
  {
  }

  /** The source's own formulation: `filter` the available slots, then `map` each to its line. */
  lemma {:induction false} AvailableDaysIsFilterThenMap(slots: seq<TimeSlot>)
    ensures GetAvailableDays(slots) == Lines(Seqs.Filter(IsAvailable, slots))
  {
    if slots != [] {
      AvailableDaysIsFilterThenMap(slots[1..]);
      var g := Seqs.Filter(IsAvailable, slots[1..]);
      if slots[0].available {
        assert Seqs.Filter(IsAvailable, slots) == [slots[0]] + g;
        LinesCons(slots[0], g);
      } else {
        assert Seqs.Filter(IsAvailable, slots) == g;
      }
    }
  }

  /** "No availability set" is shown exactly when no slot is marked available. */
  lemma {:induction false} NoAvailabilityIffNoneAvailable(slots: seq<TimeSlot>)
    ensures GetAvailableDays(slots) == [] <==> forall i :: 0 <= i < |slots| ==> !slots[i].available
  {
    if slots != [] {
      NoAvailabilityIffNoneAvailable(slots[1..]);
      assert forall i :: 1 <= i < |slots| ==> slots[i] == slots[1..][i - 1];
    }
  }

  /** A blank form lists no day. */
  lemma InitialFormListsNoDay()
    ensures GetAvailableDays(InitialFormData().availability.timeSlots) == []
  {
    NoAvailabilityIffNoneAvailable(InitialFormData().availability.timeSlots);
  }

  /** What the step renders. */
  datatype View =
    | SuccessPanel
    | Summary(
        avatarInitials: string,
        availableDays: seq<string>,
        showsBio: bool,
        showsSocialMedia: bool,
        showsTeachingMethods: bool,
        qualificationCount: nat,
        errorBanner: Option<string>,
        submitDisabled: bool,
        submitBusyLabel: bool)

  /** A link is rendered when it is present and not "". */
  predicate Truthy(link: Option<string>) {
    link.Some? && link.value != ""
  }

  /**
   * The success panel replaces everything once `submitSuccess` is set;
   * otherwise the summary, with the error banner when `submitError` is
   * non-empty and the submit button disabled while submitting.
   */
  function Render(data: TeacherFormData, isSubmitting: bool, submitSuccess: bool, submitError: string): (v: View)
    ensures v.SuccessPanel? <==> submitSuccess
    ensures v.Summary? ==> (v.errorBanner.Some? <==> submitError != "")
    ensures v.Summary? && v.errorBanner.Some? ==> v.errorBanner.value == submitError
    ensures v.Summary? ==> v.submitDisabled == isSubmitting && v.submitBusyLabel == isSubmitting
    ensures v.Summary? ==> v.availableDays == GetAvailableDays(data.availability.timeSlots)
    ensures v.Summary? ==> v.qualificationCount == |data.qualifications|
  {
    if submitSuccess then SuccessPanel
    else
      var p := data.personalInfo;
      var s := data.contactInfo.socialMedia;
      Summary(
        Text.FirstChar(p.firstName) + Text.FirstChar(p.lastName),
        GetAvailableDays(data.availability.timeSlots),
        p.bio != "",
        Truthy(s.linkedin) || Truthy(s.twitter) || Truthy(s.website),
        |data.availability.teachingMethods| > 0,
        |data.qualifications|,
        if submitError != "" then Some(submitError) else None,
        isSubmitting,
        isSubmitting)
  }

  /** On the fresh form the summary shows no social links, no bio and an enabled button. */
  lemma FreshFormSummary()
    ensures var v := Render(InitialFormData(), false, false, "");
      v.Summary? && !v.showsSocialMedia && !v.showsBio && !v.submitDisabled &&
      v.errorBanner.None? && v.avatarInitials == ""
  {
  }
}
