/**
 * components/aceternity-teacher-form.tsx: the wizard whose Next button is
 * gated on the validation ledger, and whose successful submit marks the
 * submitting step completed and resets the form after a delay.
 */
module AceternityForm {
  import opened Wrappers
  import opened FormData
  import opened Ledger
  import opened Wizard
  import PersonalStep
  import ContactStep
  import EmergencyStep
  import AvailabilityStep
  import QualificationsWiring
  import ReviewStep
  import Text

  const FailureMessage := "Failed to submit application. Please try again."

  /**
   * `validateCurrentStep` reads only the ledger. A step nobody has typed into
   * has an empty ledger and passes, although every personal field of the
   * blank form fails its own check.
   */
  lemma UntouchedStepPasses(currentYear: int, birthYear: int, f: PersonalStep.Field)
    ensures NoActiveErrors(map[])
    ensures PersonalStep.ValidateField(f, PersonalStep.Get(InitialFormData().personalInfo, f), currentYear, birthYear) != ""
  {
    assert Text.AllSpace("");
  }

  class AceternityTeacherForm {
    var currentStep: int
    var formData: TeacherFormData
    var steps: seq<FormStep>
    var errors: Errors
    var isSubmitting: bool
    var submitSuccess: bool
    var submitError: string

    /** The step table keeps its six entries (only flags change) and the current step is one of them. */
    ghost predicate Valid()
      reads this
    {
      SameStepsAs(steps, AceternitySteps) && 0 <= currentStep < |steps|
    }

    constructor ()
      ensures Valid()
      ensures currentStep == 0 && formData == InitialFormData() && steps == AceternitySteps
      ensures errors == map[] && !isSubmitting && !submitSuccess && submitError == ""
    {
      currentStep := 0;
      formData := InitialFormData();
      steps := AceternitySteps;
      errors := map[];
      isSubmitting := false;
      submitSuccess := false;
      submitError := "";
    }

    /** `updateFormData("personalInfo", data)`: a shallow merge into the section. */
    method UpdatePersonalInfo(p: PersonalPatch)
      modifies this`formData
      ensures formData == old(formData).(personalInfo := MergePersonal(old(formData).personalInfo, p))
    {
      formData := formData.(personalInfo := MergePersonal(formData.personalInfo, p));
    }

    method UpdateContactInfo(p: ContactPatch)
      modifies this`formData
      ensures formData == old(formData).(contactInfo := MergeContact(old(formData).contactInfo, p))
    {
      formData := formData.(contactInfo := MergeContact(formData.contactInfo, p));
    }

    method UpdateAvailability(p: AvailabilityPatch)
      modifies this`formData
      ensures formData == old(formData).(availability := MergeAvailability(old(formData).availability, p))
    {
      formData := formData.(availability := MergeAvailability(formData.availability, p));
    }

    method UpdateEmergencyContact(p: EmergencyPatch)
      modifies this`formData
      ensures formData == old(formData).(emergencyContact := MergeEmergency(old(formData).emergencyContact, p))
    {
      formData := formData.(emergencyContact := MergeEmergency(formData.emergencyContact, p));
    }

    /** The qualifications list the step sends, stored as the intended replacement. */
    method UpdateQualifications(list: seq<QualificationInfo>)
      modifies this`formData
      ensures formData == QualificationsWiring.ReplaceQualifications(old(formData), list)
    {
      formData := QualificationsWiring.ReplaceQualifications(formData, list);
    }

    /** An input of the personal step: its patch, then the ledger the step hands to `setErrors`. */
    method PersonalInput(f: PersonalStep.Field, value: string, currentYear: int, birthYear: int)
      modifies this`formData, this`errors
      ensures var e := PersonalStep.HandleInputChange(old(errors), f, value, currentYear, birthYear);
        formData == old(formData).(personalInfo := MergePersonal(old(formData).personalInfo, e.patch)) &&
        errors == e.errors
    {
      var e := PersonalStep.HandleInputChange(errors, f, value, currentYear, birthYear);
      UpdatePersonalInfo(e.patch);
      errors := e.errors;
    }

    method ContactInput(f: ContactStep.Field, value: string)
      modifies this`formData, this`errors
      ensures var e := ContactStep.HandleInputChange(old(formData).contactInfo, old(errors), f, value);
        formData == old(formData).(contactInfo := MergeContact(old(formData).contactInfo, e.patch)) &&
        errors == e.errors
    {
      var e := ContactStep.HandleInputChange(formData.contactInfo, errors, f, value);
      UpdateContactInfo(e.patch);
      errors := e.errors;
    }

    /** An input of the availability step, which leaves the ledger alone. */
    method AvailabilityInput(i: AvailabilityStep.Input)
      modifies this`formData
      ensures formData == old(formData).(availability :=
        MergeAvailability(old(formData).availability, AvailabilityStep.InputPatch(old(formData).availability, i)))
    {
      UpdateAvailability(AvailabilityStep.InputPatch(formData.availability, i));
    }

    method EmergencyInput(f: EmergencyStep.Field, value: string)
      modifies this`formData, this`errors
      ensures var e := EmergencyStep.HandleInputChange(old(errors), f, value);
        formData == old(formData).(emergencyContact := MergeEmergency(old(formData).emergencyContact, e.patch)) &&
        errors == e.errors
    {
      var e := EmergencyStep.HandleInputChange(errors, f, value);
      UpdateEmergencyContact(e.patch);
      errors := e.errors;
    }

    /** `validateCurrentStep`: no ledger entry holds a message. */
    predicate ValidateCurrentStep()
      reads this
    {
      NoActiveErrors(errors)
    }

    /** The Previous button is disabled on the first step. */
    predicate PreviousDisabled()
      reads this
    {
      currentStep == 0
    }

    /** The last step shows the submit button instead of Next. */
    predicate ShowsSubmit()
      reads this
    {
      currentStep == |steps| - 1
    }

    predicate SubmitDisabled()
      reads this
    {
      isSubmitting || submitSuccess
    }

    predicate NextDisabled()
      reads this
    {
      !ValidateCurrentStep()
    }

    /** What the review step renders from the current state. */
    function ReviewView(): ReviewStep.View
      reads this
    {
      ReviewStep.Render(formData, isSubmitting, submitSuccess, submitError)
    }

    /**
     * `handleNext`: with a clear ledger and a step after this one, the step is
     * marked completed, the wizard moves on and the ledger is emptied;
     * otherwise nothing changes.
     */
    method HandleNext() returns (moved: bool)
      requires Valid()
      modifies this`currentStep, this`steps, this`errors
      ensures Valid()
      ensures moved == (NoActiveErrors(old(errors)) && old(currentStep) < |old(steps)| - 1)
      ensures moved ==> (currentStep == old(currentStep) + 1 && errors == map[] &&
        steps == MarkCompleted(old(steps), old(currentStep)))
      ensures !moved ==> currentStep == old(currentStep) && steps == old(steps) && errors == old(errors)
    {
      moved := ValidateCurrentStep() && currentStep < |steps| - 1;
      if moved {
        MarkCompletedLaws(steps, AceternitySteps, currentStep);
        steps := MarkCompleted(steps, currentStep);
        currentStep := currentStep + 1;
        errors := map[];
      }
    }

    /** `handlePrevious`: back one step with an emptied ledger; the completed flags stay. */
    method HandlePrevious() returns (moved: bool)
      requires Valid()
      modifies this`currentStep, this`errors
      ensures Valid()
      ensures moved == (old(currentStep) > 0)
      ensures moved ==> currentStep == old(currentStep) - 1 && errors == map[]
      ensures !moved ==> currentStep == old(currentStep) && errors == old(errors)
    {
      moved := currentStep > 0;
      if moved {
        currentStep := currentStep - 1;
        errors := map[];
      }
    }

    /**
     * The synchronous start of `handleSubmit`: busy, no error shown. Returns
     * the step the pending continuation will mark, captured now.
     */
    method StartSubmit() returns (captured: int)
      modifies this`isSubmitting, this`submitError
      ensures isSubmitting && submitError == "" && captured == currentStep
    {
      isSubmitting := true;
      submitError := "";
      captured := currentStep;
    }

    /**
     * The continuation after the simulated request: on success the captured
     * step is marked completed and the success flag set; on failure the fixed
     * message is shown. Either way the busy flag is cleared.
     */
    method CompleteSubmit(captured: int, succeeded: bool)
      requires Valid()
      modifies this`submitSuccess, this`steps, this`submitError, this`isSubmitting
      ensures Valid() && !isSubmitting
      ensures succeeded ==> submitSuccess && steps == MarkCompleted(old(steps), captured) && submitError == old(submitError)
      ensures !succeeded ==> submitError == FailureMessage && submitSuccess == old(submitSuccess) && steps == old(steps)
    {
      if succeeded {
        submitSuccess := true;
        MarkCompletedLaws(steps, AceternitySteps, captured);
        steps := MarkCompleted(steps, captured);
      } else {
        submitError := FailureMessage;
      }
      isSubmitting := false;
    }

    /** The reset timer after a success: data, position, flags of the table and the success flag; the ledger stays. */
    method ResetAfterDelay()
      modifies this`formData, this`currentStep, this`steps, this`submitSuccess
      ensures Valid()
      ensures formData == InitialFormData() && currentStep == 0 && steps == AceternitySteps && !submitSuccess
    {
      formData := InitialFormData();
      currentStep := 0;
      steps := AceternitySteps;
      submitSuccess := false;
    }
  }
}
