/**
 * app/schedule/page.tsx: the events of the selected day, the day view ordered
 * by start time, the badge colours and the week grid's time labels. The
 * selected date's `YYYY-MM-DD` string is a parameter.
 */
module SchedulePage {
  import Text
  import Seqs

  datatype Event = Event(
    id: string,
    title: string,
    teacherId: string,
    teacherName: string,
    courseId: string,
    courseName: string,
    studentIds: seq<string>,
    date: string,
    startTime: string,
    endTime: string,
    kind: string,
    status: string,
    location: string)

  /** The week grid's row labels: every half hour from eight in the morning. */
  const TimeSlots: seq<string> := [
    "08:00", "08:30", "09:00", "09:30", "10:00", "10:30", "11:00", "11:30",
    "12:00", "12:30", "13:00", "13:30", "14:00", "14:30", "15:00", "15:30",
    "16:00", "16:30", "17:00", "17:30", "18:00", "18:30", "19:00", "19:30"
  ]

  const Days: seq<string> := ["Monday", "Tuesday", "Wednesday", "Thursday", "Friday", "Saturday", "Sunday"]

  /** Strictly before in code-unit order. */
  predicate StrLt(a: string, b: string) {
    Text.StrLe(a, b) && a != b
  }

  /** 24 labels from "08:00" to "19:30", each strictly after the one before. */
  lemma TimeSlotsAscending()
    ensures |TimeSlots| == 24 && TimeSlots[0] == "08:00" && TimeSlots[23] == "19:30"
    ensures forall i :: 0 <= i < 23 ==> StrLt(TimeSlots[i], TimeSlots[i + 1])
    ensures |Days| == 7
  {
    forall i | 0 <= i < 23 ensures StrLt(TimeSlots[i], TimeSlots[i + 1]) {
      var a, b := TimeSlots[i], TimeSlots[i + 1];
      if a[1] == b[1] {
        assert a[..3] == b[..3] && a[3] < b[3];
        assert a[3] != b[3];
      } else {
        assert a[1] < b[1] || a[0] < b[0];
      }
    }
  }

  /** `todaySchedule` */
  function TodaySchedule(events: seq<Event>, date: string): (r: seq<Event>)
    ensures forall i :: 0 <= i < |r| ==> r[i].date == date
    ensures forall i :: 0 <= i < |events| && events[i].date == date ==> events[i] in r
  {
    Seqs.Filter((e: Event) => e.date == date, events)
  }

  /** Today's list is an ordered selection of the whole schedule. */
  lemma TodayScheduleIsSubsequence(events: seq<Event>, date: string)
    ensures Seqs.IsSubsequence(TodaySchedule(events, date), events)
  {
    Seqs.FilterIsSubsequence((e: Event) => e.date == date, events);
  }

  /** Puts `x` before the first event that does not start earlier than it. */
  function Insert(x: Event, s: seq<Event>): (r: seq<Event>)
    ensures multiset(r) == multiset(s) + multiset{x}
    ensures |r| == |s| + 1
  {
    if s == [] then [x]
    else if Text.StrLe(x.startTime, s[0].startTime) then [x] + s
    else
      assert s == [s[0]] + s[1..];
      [s[0]] + Insert(x, s[1..])
  }

  /** `sort((a, b) => a.startTime.localeCompare(b.startTime))` */
  function SortByStart(s: seq<Event>): (r: seq<Event>)
    ensures multiset(r) == multiset(s)
    ensures |r| == |s|
  {
    if s == [] then []
    else
      assert s == [s[0]] + s[1..];
      Insert(s[0], SortByStart(s[1..]))
  }

  ghost predicate SortedByStart(s: seq<Event>) {
    forall i :: 0 <= i < |s| - 1 ==> Text.StrLe(s[i].startTime, s[i + 1].startTime)
  }

  lemma {:induction false} InsertSorted(x: Event, s: seq<Event>)
    requires SortedByStart(s)
    ensures SortedByStart(Insert(x, s))
    ensures s != [] ==> Insert(x, s)[0] == x || Insert(x, s)[0] == s[0]
  {
    if s != [] && !Text.StrLe(x.startTime, s[0].startTime) {
      InsertSorted(x, s[1..]);
      Text.StrLeTotal(x.startTime, s[0].startTime);
    }
  }

  lemma {:induction false} SortSorted(s: seq<Event>)
    ensures SortedByStart(SortByStart(s))
  {
    if s != [] {
      SortSorted(s[1..]);
      InsertSorted(s[0], SortByStart(s[1..]));
    }
  }

  /** The events of `s` that start at `t`, in order. */
  function AtTime(t: string, s: seq<Event>): seq<Event> {
    if s == [] then [] else Tie(t, s[0]) + AtTime(t, s[1..])
  }

  lemma AtTimeCons(t: string, x: Event, s: seq<Event>)
    ensures AtTime(t, [x] + s) == Tie(t, x) + AtTime(t, s)
  {
    assert ([x] + s)[1..] == s;
  }

  function Tie(t: string, e: Event): seq<Event> {
    if e.startTime == t then [e] else []
  }

  /** Two events that do not both start at `t` can change places without changing the ties at `t`. */
  lemma TiesSwap(t: string, x: Event, y: Event, rest: seq<Event>)
    requires x.startTime != t || y.startTime != t
    ensures Tie(t, y) + (Tie(t, x) + rest) == Tie(t, x) + (Tie(t, y) + rest)
  {
  }

  lemma {:induction false} InsertKeepsTies(x: Event, s: seq<Event>, t: string)
    ensures AtTime(t, Insert(x, s)) == AtTime(t, [x] + s)
  {
    if s != [] && !Text.StrLe(x.startTime, s[0].startTime) {
      var y, s1 := s[0], s[1..];
      assert Insert(x, s) == [y] + Insert(x, s1);
      InsertKeepsTies(x, s1, t);
      AtTimeCons(t, y, Insert(x, s1));
      AtTimeCons(t, x, s1);
      AtTimeCons(t, x, s);
      assert s == [y] + s1;
      AtTimeCons(t, y, s1);
      StrLeReflexive(x.startTime);
      TiesSwap(t, x, y, AtTime(t, s1));
    }
  }

  lemma {:induction false} StrLeReflexive(a: string)
    ensures Text.StrLe(a, a)
  {
    if a != [] {
      StrLeReflexive(a[1..]);
    }
  }

  /**
   * The sort is stable: events that start at the same time keep the order
   * they have in the schedule.
   */
  lemma {:induction false} SortIsStable(s: seq<Event>, t: string)
    ensures AtTime(t, SortByStart(s)) == AtTime(t, s)
  {
    if s != [] {
      SortIsStable(s[1..], t);
      InsertKeepsTies(s[0], SortByStart(s[1..]), t);
      AtTimeCons(t, s[0], SortByStart(s[1..]));
      AtTimeCons(t, s[0], s[1..]);
      assert [s[0]] + s[1..] == s;
    }
  }

  /** What the day view shows. */
  datatype DayView = NoEvents | Events(ordered: seq<Event>)

  /** "No events scheduled for this day", or the day's events by start time. */
  function RenderDay(events: seq<Event>, date: string): (v: DayView)
    ensures v.NoEvents? <==> forall i :: 0 <= i < |events| ==> events[i].date != date
  {
    var today := TodaySchedule(events, date);
    if |today| == 0 then NoEvents else Events(SortByStart(today))
  }

  /** The day view lists the day's events, each once, earliest first, ties in schedule order. */
  lemma RenderDaySpec(events: seq<Event>, date: string, t: string)
    requires RenderDay(events, date).Events?
    ensures var r := RenderDay(events, date).ordered;
      multiset(r) == multiset(TodaySchedule(events, date)) && SortedByStart(r) &&
      AtTime(t, r) == AtTime(t, TodaySchedule(events, date))
  {
    SortSorted(TodaySchedule(events, date));
    SortIsStable(TodaySchedule(events, date), t);
  }

  /** `getStatusColor` */
  function StatusColor(status: string): string {
    if status == "scheduled" then "bg-blue-100 text-blue-800"
    else if status == "completed" then "bg-green-100 text-green-800"
    else if status == "cancelled" then "bg-red-100 text-red-800"
    else "bg-gray-100 text-gray-800"
  }

  /** `getTypeColor` */
  function TypeColor(kind: string): string {
    if kind == "class" then "bg-purple-100 text-purple-800"
    else if kind == "meeting" then "bg-orange-100 text-orange-800"
    else if kind == "event" then "bg-green-100 text-green-800"
    else "bg-gray-100 text-gray-800"
  }

  /** Each listed value has its own badge, and every other value the grey one. */
  lemma BadgeColorsDistinct(status: string, kind: string)
    requires status != "scheduled" && status != "completed" && status != "cancelled"
    requires kind != "class" && kind != "meeting" && kind != "event"
    ensures var s, c, x, o := StatusColor("scheduled"), StatusColor("completed"), StatusColor("cancelled"), StatusColor(status);
      s != c && s != x && c != x && o != s && o != c && o != x && o == "bg-gray-100 text-gray-800"
    ensures var a, m, e, o := TypeColor("class"), TypeColor("meeting"), TypeColor("event"), TypeColor(kind);
      a != m && a != e && m != e && o != a && o != m && o != e && o == "bg-gray-100 text-gray-800"
  {
  }
}
