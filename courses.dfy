/**
 * app/courses/page.tsx: the search over name, code, teacher and description,
 * the colour of the status badge, and the colour of the enrolment figure.
 */
module CoursesPage {
  import Text
  import Seqs

  datatype Meeting = Meeting(day: string, startTime: string, endTime: string)

  datatype Course = Course(
    id: string,
    name: string,
    code: string,
    description: string,
    teacherId: string,
    teacherName: string,
    students: int,
    maxStudents: int,
    schedule: seq<Meeting>,
    status: string,
    startDate: string,
    endDate: string,
    price: real)

  predicate Matches(c: Course, term: string) {
    Text.IncludesIgnoringCase(c.name, term) ||
    Text.IncludesIgnoringCase(c.code, term) ||
    Text.IncludesIgnoringCase(c.teacherName, term) ||
    Text.IncludesIgnoringCase(c.description, term)
  }

  /** `filteredCourses` */
  function Filtered(courses: seq<Course>, term: string): seq<Course> {
    Seqs.Filter((c: Course) => Matches(c, term), courses)
  }

  lemma FilteredSpec(courses: seq<Course>, term: string)
    ensures forall i :: 0 <= i < |Filtered(courses, term)| ==> Matches(Filtered(courses, term)[i], term)
    ensures forall i :: 0 <= i < |courses| && Matches(courses[i], term) ==> courses[i] in Filtered(courses, term)
    ensures Seqs.IsSubsequence(Filtered(courses, term), courses)
    ensures Filtered(courses, "") == courses
  {
    Seqs.FilterIsSubsequence((c: Course) => Matches(c, term), courses);
    forall i | 0 <= i < |courses| ensures Matches(courses[i], "") {
      Text.EmptyTermMatches(courses[i].name);
    }
    Seqs.FilterKeepsAll((c: Course) => Matches(c, ""), courses);
  }

  /** `getStatusColor` */
  function StatusColor(status: string): string {
    if status == "active" then "bg-green-100 text-green-800"
    else if status == "inactive" then "bg-gray-100 text-gray-800"
    else if status == "completed" then "bg-blue-100 text-blue-800"
    else "bg-gray-100 text-gray-800"
  }

  lemma StatusColors(other: string)
    requires other != "active" && other != "inactive" && other != "completed"
    ensures StatusColor("active") != StatusColor("completed")
    ensures StatusColor("active") != StatusColor("inactive") && StatusColor("completed") != StatusColor("inactive")
    ensures StatusColor("inactive") == StatusColor(other)
  {
  }

  /**
   * `(current / max) * 100 >= threshold`, read exactly. With `max` 0 the
   * quotient is +Infinity for a positive count (passes) and NaN or -Infinity
   * otherwise (fails).
   */
  predicate PercentAtLeast(current: int, max: int, threshold: int) {
    if max == 0 then current > 0
    else (current as real / max as real) * 100.0 >= threshold as real
  }

  /** `getEnrollmentColor(current, max)` */
  function EnrollmentColor(current: int, max: int): string {
    if PercentAtLeast(current, max, 90) then "text-red-600"
    else if PercentAtLeast(current, max, 75) then "text-yellow-600"
    else "text-green-600"
  }

  /** 0 for green, 1 for yellow, 2 for red. */
  function Severity(color: string): nat {
    if color == "text-red-600" then 2 else if color == "text-yellow-600" then 1 else 0
  }

  /** With a positive capacity a percentage threshold is a comparison of integers. */
  lemma PercentAsProducts(current: int, max: int, threshold: int)
    requires max > 0
    ensures PercentAtLeast(current, max, threshold) <==> current * 100 >= threshold * max
  {
    var c, m, t := current as real, max as real, threshold as real;
    var q := c / m;
    assert q * m == c;
    assert (q * 100.0) * m == c * 100.0;
    if q * 100.0 >= t {
      assert (q * 100.0) * m >= t * m;
    } else {
      assert (q * 100.0) * m < t * m;
    }
    assert (current * 100) as real == c * 100.0 && (threshold * max) as real == t * m;
  }

  /** For a positive capacity the thresholds are integer comparisons: red from 90 %, yellow from 75 %. */
  lemma EnrollmentThresholds(current: int, max: int)
    requires max > 0
    ensures EnrollmentColor(current, max) == "text-red-600" <==> current * 100 >= 90 * max
    ensures EnrollmentColor(current, max) == "text-yellow-600" <==> 75 * max <= current * 100 < 90 * max
    ensures EnrollmentColor(current, max) == "text-green-600" <==> current * 100 < 75 * max
  {
    PercentAsProducts(current, max, 90);
    PercentAsProducts(current, max, 75);
  }

  /** With the capacity fixed and positive, more students never make the figure less alarming. */
  lemma EnrollmentMonotone(a: int, b: int, max: int)
    requires max > 0 && a <= b
    ensures Severity(EnrollmentColor(a, max)) <= Severity(EnrollmentColor(b, max))
  {
    EnrollmentThresholds(a, max);
    EnrollmentThresholds(b, max);
  }

  /** A full course is red, an empty one green; with no capacity one student is already red. */
  lemma EnrollmentEdges(max: int)
    requires max > 0
    ensures EnrollmentColor(max, max) == "text-red-600"
    ensures EnrollmentColor(0, max) == "text-green-600"
    ensures EnrollmentColor(0, 0) == "text-green-600"
    ensures EnrollmentColor(1, 0) == "text-red-600"
  {
    EnrollmentThresholds(max, max);
    EnrollmentThresholds(0, max);
  }
}
