/**
 * components/aceternity-steps/availability-step.tsx: one-key patches for the
 * schedule preference, timezone and class size, the per-day slot update and
 * the teaching-method toggle. The step never writes the ledger.
 */
module AvailabilityStep {
  import opened Wrappers
  import opened FormData
  import Seqs
  import Numbers

  /** The three inputs of a day's row: its start, its end and its checkbox. */
  datatype SlotChange = StartTime(start: string) | EndTime(end: string) | Available(on: bool)

  /** `{ ...slot, [field]: value }` */
  function ApplySlotChange(slot: TimeSlot, c: SlotChange): TimeSlot {
    match c
    case StartTime(t) => slot.(startTime := t)
    case EndTime(t) => slot.(endTime := t)
    case Available(on) => slot.(available := on)
  }

  /** `updateTimeSlot(day, field, value)`: the change goes to every slot of that day, the others are kept. */
  function UpdateTimeSlot(slots: seq<TimeSlot>, day: string, c: SlotChange): (r: seq<TimeSlot>)
    ensures |r| == |slots|
    ensures forall i :: 0 <= i < |slots| ==> r[i] == if slots[i].day == day then ApplySlotChange(slots[i], c) else slots[i]
  {
    if slots == [] then []
    else [if slots[0].day == day then ApplySlotChange(slots[0], c) else slots[0]] + UpdateTimeSlot(slots[1..], day, c)
  }

  /** No update renames a day, so the week keeps its order. */
  lemma UpdateKeepsDays(slots: seq<TimeSlot>, day: string, c: SlotChange)
    ensures forall i :: 0 <= i < |slots| ==> UpdateTimeSlot(slots, day, c)[i].day == slots[i].day
  {
  }

  /** A day that no slot has: the slots are unchanged. */
  lemma UpdateOfUnknownDay(slots: seq<TimeSlot>, day: string, c: SlotChange)
    requires forall i :: 0 <= i < |slots| ==> slots[i].day != day
    ensures UpdateTimeSlot(slots, day, c) == slots
  {
  }

  /** Edits of two different days commute. */
  lemma UpdatesOfDifferentDaysCommute(slots: seq<TimeSlot>, d1: string, c1: SlotChange, d2: string, c2: SlotChange)
    requires d1 != d2
    ensures UpdateTimeSlot(UpdateTimeSlot(slots, d1, c1), d2, c2) == UpdateTimeSlot(UpdateTimeSlot(slots, d2, c2), d1, c1)
  {
    UpdateKeepsDays(slots, d1, c1);
    UpdateKeepsDays(slots, d2, c2);
  }

  /** Two edits of the same input of a day: the second one is what remains. */
  lemma LaterEditOfSameInputWins(slots: seq<TimeSlot>, day: string, a: SlotChange, b: SlotChange)
    requires a.StartTime? == b.StartTime? && a.EndTime? == b.EndTime?
    ensures UpdateTimeSlot(UpdateTimeSlot(slots, day, a), day, b) == UpdateTimeSlot(slots, day, b)
  {
    UpdateKeepsDays(slots, day, a);
  }

  /**
   * `toggleTeachingMethod(method)`: a selected method is removed (every copy of
   * it), any other is appended at the end.
   */
  function ToggleMethod(current: seq<string>, m: string): (r: seq<string>)
    ensures m in r <==> m !in current
    ensures forall x :: x != m ==> (x in r <==> x in current)
    ensures m !in current ==> r == current + [m]
    ensures m in current ==> Seqs.IsSubsequence(r, current)
  {
    var others := (x: string) => x != m;
    if m in current then
      Seqs.FilterIsSubsequence(others, current);
      Seqs.Filter(others, current)
    else current + [m]
  }

  /** Toggling a method that was not selected, and toggling it again, restores the list. */
  lemma ToggleTwiceRestores(current: seq<string>, m: string)
    requires m !in current
    ensures ToggleMethod(ToggleMethod(current, m), m) == current
  {
    var p := (x: string) => x != m;
    Seqs.FilterAppend(p, current, [m]);
    Seqs.FilterKeepsAll(p, current);
    assert Seqs.Filter(p, [m]) == [];
  }

  /** `Number.parseInt(value) || 10`: NaN and 0 fall back to 10; the 1–50 bounds of the input are not enforced. */
  function MaxStudents(text: string): int {
    Numbers.OrElse(Numbers.ParseInt(text), 10)
  }

  /** A typed non-zero integer is kept as typed, negative or above 50 included. */
  lemma MaxStudentsFromText(n: int)
    requires n != 0
    ensures MaxStudents(Numbers.IntString(n)) == n
  {
    Numbers.ParseIntString(n);
  }

  /** An empty box, and a typed 0, fall back to 10. */
  lemma MaxStudentsFallback()
    ensures MaxStudents("") == 10
    ensures MaxStudents("0") == 10
  {
    assert Numbers.IntString(0) == "0";
    Numbers.ParseIntString(0);
  }

  /** Every input of the step. */
  datatype Input =
    | PickSchedule(schedule: PreferredSchedule)
    | PickTimezone(timezone: string)
    | TypeMaxStudents(text: string)
    | ClickMethod(name: string)
    | EditSlot(day: string, change: SlotChange)

  /** The one-key patch each input sends to `onChange`. */
  function InputPatch(data: AvailabilityInfo, i: Input): AvailabilityPatch {
    match i
    case PickSchedule(s) => NoAvailabilityChange.(preferredSchedule := Some(s))
    case PickTimezone(t) => NoAvailabilityChange.(timezone := Some(t))
    case TypeMaxStudents(text) => NoAvailabilityChange.(maxStudentsPerClass := Some(MaxStudents(text)))
    case ClickMethod(m) => NoAvailabilityChange.(teachingMethods := Some(ToggleMethod(data.teachingMethods, m)))
    case EditSlot(day, c) => NoAvailabilityChange.(timeSlots := Some(UpdateTimeSlot(data.timeSlots, day, c)))
  }

  /** Each input moves only its own key of the section. */
  lemma InputTouchesOnlyItsKey(data: AvailabilityInfo, i: Input)
    ensures var r := MergeAvailability(data, InputPatch(data, i));
      (!i.PickSchedule? ==> r.preferredSchedule == data.preferredSchedule) &&
      (!i.PickTimezone? ==> r.timezone == data.timezone) &&
      (!i.TypeMaxStudents? ==> r.maxStudentsPerClass == data.maxStudentsPerClass) &&
      (!i.ClickMethod? ==> r.teachingMethods == data.teachingMethods) &&
      (!i.EditSlot? ==> r.timeSlots == data.timeSlots)
  {
  }
}
