/**
 * components/schedule-section.tsx: the weekly grid of a teacher profile.
 * Each cell looks up the first slot of that day and start time and is
 * coloured and labelled from it.
 */
module ScheduleSection {
  import opened Wrappers
  import Text

  datatype ScheduleSlot = ScheduleSlot(
    id: string,
    day: string,
    startTime: string,
    endTime: string,
    subject: Option<string>,
    kind: string)

  /** `slot.day.toLowerCase() === day.toLowerCase() && slot.startTime === time` */
  predicate SlotMatches(slot: ScheduleSlot, day: string, time: string) {
    Text.ToLower(slot.day) == Text.ToLower(day) && slot.startTime == time
  }

  /** The index `find` stops at: the first matching slot, or none. */
  function FirstMatch(schedule: seq<ScheduleSlot>, day: string, time: string): (r: Option<nat>)
    ensures r.Some? ==> r.value < |schedule| && SlotMatches(schedule[r.value], day, time)
    ensures r.Some? ==> forall j :: 0 <= j < r.value ==> !SlotMatches(schedule[j], day, time)
    ensures r.None? <==> forall j :: 0 <= j < |schedule| ==> !SlotMatches(schedule[j], day, time)
  {
    if schedule == [] then None
    else if SlotMatches(schedule[0], day, time) then Some(0)
    else
      match FirstMatch(schedule[1..], day, time)
      case None => None
      case Some(k) =>
        assert forall j :: 1 <= j < k + 1 ==> schedule[j] == schedule[1..][j - 1];
        Some(k + 1)
  }

  predicate NoneBefore(schedule: seq<ScheduleSlot>, i: nat, day: string, time: string)
    requires i <= |schedule|
  {
    forall j :: 0 <= j < i ==> !SlotMatches(schedule[j], day, time)
  }

  /** `getSlotForDayAndTime(day, time)` */
  function GetSlotForDayAndTime(schedule: seq<ScheduleSlot>, day: string, time: string): (r: Option<ScheduleSlot>)
    ensures r.Some? ==> SlotMatches(r.value, day, time) && r.value in schedule
    ensures r.None? <==> forall j :: 0 <= j < |schedule| ==> !SlotMatches(schedule[j], day, time)
    ensures r.Some? ==> exists i :: 0 <= i < |schedule| && schedule[i] == r.value && NoneBefore(schedule, i, day, time)
  {
    match FirstMatch(schedule, day, time)
    case None => None
    case Some(i) => Some(schedule[i])
  }

  /** The grid's days are written capitalised; a slot stored as "monday" is still found. */
  lemma LookupIgnoresDayCase(schedule: seq<ScheduleSlot>, day: string, time: string)
    ensures GetSlotForDayAndTime(schedule, Text.ToLower(day), time) == GetSlotForDayAndTime(schedule, day, time)
  {
    Text.ToLowerIdempotent(day);
    LookupByLoweredDay(schedule, day, time);
  }

  lemma {:induction false} LookupByLoweredDay(schedule: seq<ScheduleSlot>, day: string, time: string)
    requires Text.ToLower(Text.ToLower(day)) == Text.ToLower(day)
    ensures FirstMatch(schedule, Text.ToLower(day), time) == FirstMatch(schedule, day, time)
  {
    if schedule != [] {
      LookupByLoweredDay(schedule[1..], day, time);
    }
  }

  /** `getSlotColor` */
  function SlotColor(kind: string): string {
    if kind == "booked" then "bg-green-100 border-green-300 text-green-800"
    else if kind == "available" then "bg-blue-100 border-blue-300 text-blue-800"
    else if kind == "unavailable" then "bg-gray-100 border-gray-300 text-gray-600"
    else "bg-gray-50 border-gray-200"
  }

  lemma SlotColorsDistinct(other: string)
    requires other != "booked" && other != "available" && other != "unavailable"
    ensures var b, a, u, o := SlotColor("booked"), SlotColor("available"), SlotColor("unavailable"), SlotColor(other);
      b != a && b != u && a != u && o != b && o != a && o != u
  {
  }

  const EmptyCell := "bg-gray-50 border-gray-200 hover:bg-gray-100"

  /** What one grid cell shows: its colour classes and, under a slot, a label and the slot's type. */
  datatype Cell = Cell(colour: string, caption: Option<string>, badge: Option<string>)

  /** `slot.subject || "Available"` */
  function SubjectLabel(subject: Option<string>): (shown: string)
    ensures subject.Some? && subject.value != "" ==> shown == subject.value
    ensures subject.None? || subject.value == "" ==> shown == "Available"
  {
    if subject.Some? && subject.value != "" then subject.value else "Available"
  }

  function RenderCell(schedule: seq<ScheduleSlot>, day: string, time: string): (c: Cell)
    ensures var slot := GetSlotForDayAndTime(schedule, day, time);
      (slot.None? ==> c == Cell(EmptyCell, None, None)) &&
      (slot.Some? ==> c == Cell(SlotColor(slot.value.kind), Some(SubjectLabel(slot.value.subject)), Some(slot.value.kind)))
  {
    match GetSlotForDayAndTime(schedule, day, time)
    case None => Cell(EmptyCell, None, None)
    case Some(slot) => Cell(SlotColor(slot.kind), Some(SubjectLabel(slot.subject)), Some(slot.kind))
  }

  /** An empty cell and a slot of an unknown type share the grey background. */
  lemma EmptyCellLooksLikeUnknownType(schedule: seq<ScheduleSlot>, day: string, time: string)
    requires GetSlotForDayAndTime(schedule, day, time).Some?
    requires var k := GetSlotForDayAndTime(schedule, day, time).value.kind; k != "booked" && k != "available" && k != "unavailable"
    ensures RenderCell(schedule, day, time).colour == "bg-gray-50 border-gray-200"
    ensures RenderCell(schedule, day, time).caption.Some?
  {
  }
}
