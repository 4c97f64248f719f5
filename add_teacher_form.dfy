/**
 * components/add-teacher-form.tsx: the same six-step wizard, whose Next
 * handler does not consult the ledger, and whose submit resets the form at
 * once. Its Next button is disabled as soon as the ledger has any key, valid
 * entries included; that test is kept next to the intended one, which
 * disables Next only while some entry holds a message.
 */
module AddTeacherForm {
  import opened Wrappers
  import opened FormData
  import opened Ledger
  import opened Wizard
  import PersonalStep
  import ContactStep
  import EmergencyStep
  import AvailabilityStep
  import QualificationsWiring
  import ReviewStep
  import Text

  const FailureMessage := "Error adding teacher. Please try again."

  /** As written: `disabled={Object.keys(errors).length > 0}`. */
  predicate NextDisabledAsWritten(errors: Errors) {
    HasAnyKey(errors)
  }

  /** As intended: disabled while some entry of the ledger holds a message. */
  predicate NextDisabledIntended(errors: Errors) {
    !NoActiveErrors(errors)
  }

  /**
   * As written, typing a valid first name on the first step leaves the
   * ledger `{ firstName: "" }`: no message is shown, yet Next is disabled,
   * and Previous is disabled on the first step, so the wizard cannot move.
   */
  lemma AsWrittenValidInputLocksFirstStep(currentYear: int, birthYear: int)
    ensures var e := PersonalStep.HandleInputChange(map[], PersonalStep.FirstName, "Jane", currentYear, birthYear);
      NoActiveErrors(e.errors) && NextDisabledAsWritten(e.errors)
  {
    var e := PersonalStep.HandleInputChange(map[], PersonalStep.FirstName, "Jane", currentYear, birthYear);
    assert !Text.IsSpace("Jane"[0]);
    assert e.errors.Keys == {"firstName"};
    RecordLeavesAKey(map[], "firstName", "");
  }

  /**
   * Corrected: a valid input keeps Next enabled on a clear ledger, an invalid
   * one disables it, and Next is disabled exactly while a message is shown.
   */
  lemma CorrectedNextFollowsMessages(errors: Errors, field: string, error: string)
    ensures !NextDisabledIntended(errors) && error == "" ==> !NextDisabledIntended(Record(errors, field, error))
    ensures error != "" ==> NextDisabledIntended(Record(errors, field, error))
    ensures NextDisabledIntended(errors) <==> exists k :: k in errors && errors[k] != ""
  {
    RecordDecidesClearance(errors, field, error);
  }

  class AddTeacherForm {
    var currentStep: int
    var formData: TeacherFormData
    var steps: seq<FormStep>
    var errors: Errors
    var isSubmitting: bool
    var submitSuccess: bool
    var submitError: string

    ghost predicate Valid()
      reads this
    {
      SameStepsAs(steps, AddTeacherSteps) && 0 <= currentStep < |steps|
    }

    constructor ()
      ensures Valid()
      ensures currentStep == 0 && formData == InitialFormData() && steps == AddTeacherSteps
      ensures errors == map[] && !isSubmitting && !submitSuccess && submitError == ""
    {
      currentStep := 0;
      formData := InitialFormData();
      steps := AddTeacherSteps;
      errors := map[];
      isSubmitting := false;
      submitSuccess := false;
      submitError := "";
    }

    /** `updateFormData("personalInfo", data)`: a shallow merge into the section. */
    method UpdatePersonalInfo(p: PersonalPatch)
      modifies this`formData
      ensures formData == old(formData).(personalInfo := MergePersonal(old(formData).personalInfo, p))
    {
      formData := formData.(personalInfo := MergePersonal(formData.personalInfo, p));
    }

    method UpdateContactInfo(p: ContactPatch)
      modifies this`formData
      ensures formData == old(formData).(contactInfo := MergeContact(old(formData).contactInfo, p))
    {
      formData := formData.(contactInfo := MergeContact(formData.contactInfo, p));
    }

    method UpdateAvailability(p: AvailabilityPatch)
      modifies this`formData
      ensures formData == old(formData).(availability := MergeAvailability(old(formData).availability, p))
    {
      formData := formData.(availability := MergeAvailability(formData.availability, p));
    }

    method UpdateEmergencyContact(p: EmergencyPatch)
      modifies this`formData
      ensures formData == old(formData).(emergencyContact := MergeEmergency(old(formData).emergencyContact, p))
    {
      formData := formData.(emergencyContact := MergeEmergency(formData.emergencyContact, p));
    }

    /** The qualifications list the step sends, stored as the intended replacement. */
    method UpdateQualifications(list: seq<QualificationInfo>)
      modifies this`formData
      ensures formData == QualificationsWiring.ReplaceQualifications(old(formData), list)
    {
      formData := QualificationsWiring.ReplaceQualifications(formData, list);
    }

    /** An input of the personal step: its patch, then the ledger the step hands to `setErrors`. */
    method PersonalInput(f: PersonalStep.Field, value: string, currentYear: int, birthYear: int)
      modifies this`formData, this`errors
      ensures var e := PersonalStep.HandleInputChange(old(errors), f, value, currentYear, birthYear);
        formData == old(formData).(personalInfo := MergePersonal(old(formData).personalInfo, e.patch)) &&
        errors == e.errors
    {
      var e := PersonalStep.HandleInputChange(errors, f, value, currentYear, birthYear);
      UpdatePersonalInfo(e.patch);
      errors := e.errors;
    }

    method ContactInput(f: ContactStep.Field, value: string)
      modifies this`formData, this`errors
      ensures var e := ContactStep.HandleInputChange(old(formData).contactInfo, old(errors), f, value);
        formData == old(formData).(contactInfo := MergeContact(old(formData).contactInfo, e.patch)) &&
        errors == e.errors
    {
      var e := ContactStep.HandleInputChange(formData.contactInfo, errors, f, value);
      UpdateContactInfo(e.patch);
      errors := e.errors;
    }

    /** An input of the availability step, which leaves the ledger alone. */
    method AvailabilityInput(i: AvailabilityStep.Input)
      modifies this`formData
      ensures formData == old(formData).(availability :=
        MergeAvailability(old(formData).availability, AvailabilityStep.InputPatch(old(formData).availability, i)))
    {
      UpdateAvailability(AvailabilityStep.InputPatch(formData.availability, i));
    }

    method EmergencyInput(f: EmergencyStep.Field, value: string)
      modifies this`formData, this`errors
      ensures var e := EmergencyStep.HandleInputChange(old(errors), f, value);
        formData == old(formData).(emergencyContact := MergeEmergency(old(formData).emergencyContact, e.patch)) &&
        errors == e.errors
    {
      var e := EmergencyStep.HandleInputChange(errors, f, value);
      UpdateEmergencyContact(e.patch);
      errors := e.errors;
    }

    /**
     * The Next button as written: disabled while the ledger has any key, so
     * also after an input whose check passed.
     */
    predicate NextDisabled(): (disabled: bool)
      reads this
      ensures disabled <==> exists k :: k in errors
      ensures NoActiveErrors(errors) && errors != map[] ==> disabled
    {
      assert errors != map[] ==> exists k :: k in errors by {
        if errors != map[] {
          var k :| k in errors;
        }
      }
      NextDisabledAsWritten(errors)
    }

    predicate PreviousDisabled()
      reads this
    {
      currentStep == 0
    }

    /** The last step shows the submit button, which is never disabled. */
    predicate ShowsSubmit()
      reads this
    {
      currentStep == |steps| - 1
    }

    function ReviewView(): ReviewStep.View
      reads this
    {
      ReviewStep.Render(formData, isSubmitting, submitSuccess, submitError)
    }

    /**
     * `handleNext`: moves on whenever a later step exists, marking the current
     * one completed and emptying the ledger; the ledger is not consulted.
     */
    method HandleNext() returns (moved: bool)
      requires Valid()
      modifies this`currentStep, this`steps, this`errors
      ensures Valid()
      ensures moved == (old(currentStep) < |old(steps)| - 1)
      ensures moved ==> (currentStep == old(currentStep) + 1 && errors == map[] &&
        steps == MarkCompleted(old(steps), old(currentStep)))
      ensures !moved ==> currentStep == old(currentStep) && steps == old(steps) && errors == old(errors)
    {
      moved := currentStep < |steps| - 1;
      if moved {
        MarkCompletedLaws(steps, AddTeacherSteps, currentStep);
        steps := MarkCompleted(steps, currentStep);
        currentStep := currentStep + 1;
        errors := map[];
      }
    }

    method HandlePrevious() returns (moved: bool)
      requires Valid()
      modifies this`currentStep, this`errors
      ensures Valid()
      ensures moved == (old(currentStep) > 0)
      ensures moved ==> currentStep == old(currentStep) - 1 && errors == map[]
      ensures !moved ==> currentStep == old(currentStep) && errors == old(errors)
    {
      moved := currentStep > 0;
      if moved {
        currentStep := currentStep - 1;
        errors := map[];
      }
    }

    /** The synchronous start of `handleSubmit`: busy, no error, and the success flag lowered. */
    method StartSubmit()
      modifies this`isSubmitting, this`submitError, this`submitSuccess
      ensures isSubmitting && submitError == "" && !submitSuccess
    {
      isSubmitting := true;
      submitError := "";
      submitSuccess := false;
    }

    /**
     * The continuation after the simulated request. On success the flag is
     * raised and the data, position and table are reset at once, with no step
     * marked and the flag left raised; on failure the fixed message is shown.
     */
    method CompleteSubmit(succeeded: bool)
      requires Valid()
      modifies this`submitSuccess, this`formData, this`currentStep, this`steps, this`submitError, this`isSubmitting
      ensures Valid() && !isSubmitting
      ensures succeeded ==> (submitSuccess && formData == InitialFormData() && currentStep == 0 &&
        steps == AddTeacherSteps && submitError == old(submitError))
      ensures !succeeded ==> (submitError == FailureMessage && submitSuccess == old(submitSuccess) &&
        formData == old(formData) && currentStep == old(currentStep) && steps == old(steps))
    {
      if succeeded {
        submitSuccess := true;
        formData := InitialFormData();
        currentStep := 0;
        steps := AddTeacherSteps;
      } else {
        submitError := FailureMessage;
      }
      isSubmitting := false;
    }
  }

  /**
   * After a success the flag stays raised, so the review step shows its
   * success panel again whatever the data, once the wizard reaches it.
   */
  lemma ReviewAfterSuccessShowsPanel(data: TeacherFormData, isSubmitting: bool, submitError: string)
    ensures ReviewStep.Render(data, isSubmitting, true, submitError).SuccessPanel?
  {
  }
}
