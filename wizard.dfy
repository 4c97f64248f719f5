/**
 * The step list both wizard containers keep (`FormStep[]`), its two literal
 * tables, and `markStepCompleted`.
 */
module Wizard {

  datatype FormStep = FormStep(id: string, title: string, description: string, completed: bool, icon: string)

  /** components/aceternity-teacher-form.tsx `formSteps`, icons as emoji. */
  const AceternitySteps: seq<FormStep> := [
    FormStep("personal", "Personal Info", "Basic personal details", false, "\U{1F464}"),
    FormStep("contact", "Contact Details", "Contact information", false, "\U{1F4E7}"),
    FormStep("qualifications", "Qualifications", "Education & certifications", false, "\U{1F393}"),
    FormStep("availability", "Availability", "Schedule preferences", false, "\U{1F4C5}"),
    FormStep("emergency", "Emergency Contact", "Emergency information", false, "\U{1F6A8}"),
    FormStep("review", "Review", "Final review", false, "\U{2705}")
  ]

  /** components/add-teacher-form.tsx `formSteps`, icons by name. */
  const AddTeacherSteps: seq<FormStep> := [
    FormStep("personal", "Personal Information", "Basic details about the teacher", false, "user"),
    FormStep("contact", "Contact Information", "Contact and location details", false, "contact"),
    FormStep("qualifications", "Qualifications", "Teaching subjects and certifications", false, "graduation-cap"),
    FormStep("availability", "Availability", "Schedule preferences and time slots", false, "calendar"),
    FormStep("emergency", "Emergency Contact", "Emergency contact information", false, "phone"),
    FormStep("review", "Review & Submit", "Review all information before submitting", false, "check")
  ]

  /** Both tables list the same six steps, in the same order, none of them completed. */
  lemma TablesShareTheSteps()
    ensures |AceternitySteps| == |AddTeacherSteps| == 6
    ensures forall i :: 0 <= i < 6 ==> AceternitySteps[i].id == AddTeacherSteps[i].id
    ensures forall i :: 0 <= i < 6 ==> !AceternitySteps[i].completed && !AddTeacherSteps[i].completed
  {
  }

  /** `steps` is `table` with only the `completed` flags possibly changed. */
  ghost predicate SameStepsAs(steps: seq<FormStep>, table: seq<FormStep>) {
    |steps| == |table| && forall i :: 0 <= i < |steps| ==> steps[i] == table[i].(completed := steps[i].completed)
  }

  /** `prev.map((step, index) => index === stepIndex ? { ...step, completed: true } : step)` */
  function MarkCompleted(steps: seq<FormStep>, stepIndex: int): (r: seq<FormStep>)
    ensures |r| == |steps|
    ensures forall i :: 0 <= i < |steps| ==> r[i] == if i == stepIndex then steps[i].(completed := true) else steps[i]
  {
    seq(|steps|, i requires 0 <= i < |steps| => if i == stepIndex then steps[i].(completed := true) else steps[i])
  }

  /**
   * Marking sets the flag of that step, never clears one, keeps titles and
   * icons, and marking the same step twice is marking it once.
   */
  lemma MarkCompletedLaws(steps: seq<FormStep>, table: seq<FormStep>, stepIndex: int)
    requires SameStepsAs(steps, table)
    ensures SameStepsAs(MarkCompleted(steps, stepIndex), table)
    ensures 0 <= stepIndex < |steps| ==> MarkCompleted(steps, stepIndex)[stepIndex].completed
    ensures forall i :: 0 <= i < |steps| && steps[i].completed ==> MarkCompleted(steps, stepIndex)[i].completed
    ensures MarkCompleted(MarkCompleted(steps, stepIndex), stepIndex) == MarkCompleted(steps, stepIndex)
  {
  }

  /** An index outside the list marks nothing. */
  lemma MarkOutsideIsNoOp(steps: seq<FormStep>, stepIndex: int)
    requires stepIndex < 0 || stepIndex >= |steps|
    ensures MarkCompleted(steps, stepIndex) == steps
  {
  }

  function CompletedCount(steps: seq<FormStep>): nat {
    if steps == [] then 0 else (if steps[0].completed then 1 else 0) + CompletedCount(steps[1..])
  }

  /** Marking a step that was not completed completes exactly one more step. */
  lemma {:induction false} MarkCountsOneMore(steps: seq<FormStep>, stepIndex: int)
    requires 0 <= stepIndex < |steps| && !steps[stepIndex].completed
    ensures CompletedCount(MarkCompleted(steps, stepIndex)) == CompletedCount(steps) + 1
  {
    var r := MarkCompleted(steps, stepIndex);
    assert r[1..] == MarkCompleted(steps[1..], stepIndex - 1);
    if stepIndex > 0 {
      MarkCountsOneMore(steps[1..], stepIndex - 1);
    } else {
      MarkOutsideIsNoOp(steps[1..], -1);
    }
  }
}
