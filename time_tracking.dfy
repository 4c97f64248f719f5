/**
 * app/time-tracking/page.tsx: today's entries and their totals, the recent
 * history, and the status badge. Today's `YYYY-MM-DD` string, taken from the
 * clock by the page, is a parameter here.
 */
module TimeTrackingPage {
  import opened Wrappers
  import Seqs

  datatype TimeEntry = TimeEntry(
    id: string,
    teacherId: string,
    teacherName: string,
    date: string,
    clockIn: string,
    clockOut: Option<string>,
    totalHours: real,
    status: string,
    notes: Option<string>)

  /** `todayEntries` */
  function TodayEntries(entries: seq<TimeEntry>, today: string): (r: seq<TimeEntry>)
    ensures forall i :: 0 <= i < |r| ==> r[i].date == today
    ensures forall i :: 0 <= i < |entries| && entries[i].date == today ==> entries[i] in r
  {
    Seqs.Filter((e: TimeEntry) => e.date == today, entries)
  }

  /** `reduce((sum, entry) => sum + entry.totalHours, 0)`, accumulating from the left. */
  function SumFrom(acc: real, entries: seq<TimeEntry>): real
    decreases |entries|
  {
    if entries == [] then acc else SumFrom(acc + entries[0].totalHours, entries[1..])
  }

  /** The plain sum of the hours, defined from the last entry back. */
  function Hours(entries: seq<TimeEntry>): real
    decreases |entries|
  {
    if entries == [] then 0.0 else Hours(entries[..|entries| - 1]) + entries[|entries| - 1].totalHours
  }

  lemma {:induction false} HoursAppend(a: seq<TimeEntry>, b: seq<TimeEntry>)
    ensures Hours(a + b) == Hours(a) + Hours(b)
    decreases |b|
  {
    if b == [] {
      assert a + b == a;
    } else {
      var b' := b[..|b| - 1];
      assert (a + b)[..|a + b| - 1] == a + b';
      HoursAppend(a, b');
    }
  }

  /** The left fold from `acc` adds the plain sum to `acc`. */
  lemma {:induction false} SumFromIsHours(acc: real, entries: seq<TimeEntry>)
    ensures SumFrom(acc, entries) == acc + Hours(entries)
    decreases |entries|
  {
    if entries != [] {
      SumFromIsHours(acc + entries[0].totalHours, entries[1..]);
      HoursAppend([entries[0]], entries[1..]);
      assert [entries[0]] + entries[1..] == entries;
      assert [entries[0]][..0] == [];
    }
  }

  /** `totalHoursToday` */
  function TotalHoursToday(entries: seq<TimeEntry>, today: string): real {
    SumFrom(0.0, TodayEntries(entries, today))
  }

  /** The total is the sum of the hours of today's entries, 0 on a day without entries. */
  lemma TotalHoursTodaySpec(entries: seq<TimeEntry>, today: string)
    ensures TotalHoursToday(entries, today) == Hours(TodayEntries(entries, today))
    ensures TodayEntries(entries, today) == [] ==> TotalHoursToday(entries, today) == 0.0
  {
    SumFromIsHours(0.0, TodayEntries(entries, today));
  }

  /** Adding entries to the log adds their hours to today's total when they are dated today. */
  lemma TotalHoursTodayAppend(a: seq<TimeEntry>, b: seq<TimeEntry>, today: string)
    ensures TotalHoursToday(a + b, today) == TotalHoursToday(a, today) + TotalHoursToday(b, today)
  {
    var p := (e: TimeEntry) => e.date == today;
    Seqs.FilterAppend(p, a, b);
    TotalHoursTodaySpec(a + b, today);
    TotalHoursTodaySpec(a, today);
    TotalHoursTodaySpec(b, today);
    HoursAppend(TodayEntries(a, today), TodayEntries(b, today));
  }

  predicate IsClockedIn(e: TimeEntry) {
    e.status == "clocked-in"
  }

  /** `activeTeachers`: today's entries that are clocked in. */
  function ActiveTeachers(entries: seq<TimeEntry>, today: string): (n: nat)
    ensures n == Seqs.CountWhere(IsClockedIn, TodayEntries(entries, today))
    ensures n <= |TodayEntries(entries, today)|
  {
    Seqs.FilterLength(IsClockedIn, TodayEntries(entries, today));
    |Seqs.Filter(IsClockedIn, TodayEntries(entries, today))|
  }

  /** The list under "Recent Entries": the first ten entries not dated today. */
  function RecentEntries(entries: seq<TimeEntry>, today: string): (r: seq<TimeEntry>)
    ensures |r| <= 10
    ensures forall i :: 0 <= i < |r| ==> r[i].date != today
    ensures r == Seqs.Take(Seqs.Filter((e: TimeEntry) => e.date != today, entries), 10)
  {
    Seqs.Take(Seqs.Filter((e: TimeEntry) => e.date != today, entries), 10)
  }

  /**
   * The two lists never share an entry, and every entry of the log is in
   * one of them or beyond the tenth older one.
   */
  lemma TodayAndRecentDisjoint(entries: seq<TimeEntry>, today: string)
    ensures forall e :: e in TodayEntries(entries, today) ==> e !in RecentEntries(entries, today)
    ensures |TodayEntries(entries, today)| + |Seqs.Filter((e: TimeEntry) => e.date != today, entries)| == |entries|
    ensures |Seqs.Filter((e: TimeEntry) => e.date != today, entries)| <= 10 ==>
      |TodayEntries(entries, today)| + |RecentEntries(entries, today)| == |entries|
  {
    Seqs.FilterPartition((e: TimeEntry) => e.date == today, (e: TimeEntry) => e.date != today, entries);
  }

  /** `getStatusColor` */
  function StatusColor(status: string): string {
    if status == "clocked-in" then "bg-green-100 text-green-800"
    else if status == "clocked-out" then "bg-gray-100 text-gray-800"
    else if status == "break" then "bg-yellow-100 text-yellow-800"
    else "bg-gray-100 text-gray-800"
  }

  datatype Icon = Play | Square | Pause | Clock

  /** `getStatusIcon` */
  function StatusIcon(status: string): Icon {
    if status == "clocked-in" then Play
    else if status == "clocked-out" then Square
    else if status == "break" then Pause
    else Clock
  }

  /**
   * Each of the three statuses has its own icon, and anything else the clock;
   * clocked-out shares the grey badge of an unknown status.
   */
  lemma StatusMaps(other: string)
    requires other != "clocked-in" && other != "clocked-out" && other != "break"
    ensures StatusIcon("clocked-in") == Play && StatusIcon("clocked-out") == Square
    ensures StatusIcon("break") == Pause && StatusIcon(other) == Clock
    ensures StatusColor("clocked-in") != StatusColor("break")
    ensures StatusColor("clocked-in") != StatusColor(other) && StatusColor("break") != StatusColor(other)
    ensures StatusColor("clocked-out") == StatusColor(other)
  {
  }
}
