/**
 * app/students/page.tsx: the search over name, email, grade and courses, and
 * the colour of the status badge.
 */
module StudentsPage {
  import opened Wrappers
  import Text
  import Seqs

  datatype Student = Student(
    id: string,
    name: string,
    email: string,
    phone: string,
    avatar: Option<string>,
    status: string,
    enrollmentDate: string,
    grade: string,
    parentName: string,
    parentEmail: string,
    parentPhone: string,
    courses: seq<string>)

  /** The search test: name, email, grade, or any course; the parent's details are not searched. */
  predicate Matches(s: Student, term: string) {
    Text.IncludesIgnoringCase(s.name, term) ||
    Text.IncludesIgnoringCase(s.email, term) ||
    Text.IncludesIgnoringCase(s.grade, term) ||
    Text.AnyIncludes(s.courses, term)
  }

  /** `filteredStudents` */
  function Filtered(students: seq<Student>, term: string): seq<Student> {
    Seqs.Filter((s: Student) => Matches(s, term), students)
  }

  lemma FilteredSpec(students: seq<Student>, term: string)
    ensures forall i :: 0 <= i < |Filtered(students, term)| ==> Matches(Filtered(students, term)[i], term)
    ensures forall i :: 0 <= i < |students| && Matches(students[i], term) ==> students[i] in Filtered(students, term)
    ensures Seqs.IsSubsequence(Filtered(students, term), students)
    ensures Filtered(students, "") == students
  {
    Seqs.FilterIsSubsequence((s: Student) => Matches(s, term), students);
    forall i | 0 <= i < |students| ensures Matches(students[i], "") {
      Text.EmptyTermMatches(students[i].name);
    }
    Seqs.FilterKeepsAll((s: Student) => Matches(s, ""), students);
  }

  /** A student is found by one of their courses alone. */
  lemma FoundByCourse(s: Student, k: nat, term: string)
    requires k < |s.courses| && Text.IncludesIgnoringCase(s.courses[k], term)
    ensures Matches(s, term)
  {
  }

  /** `getStatusColor` */
  function StatusColor(status: string): string {
    if status == "active" then "bg-green-100 text-green-800"
    else if status == "inactive" then "bg-gray-100 text-gray-800"
    else if status == "graduated" then "bg-blue-100 text-blue-800"
    else "bg-gray-100 text-gray-800"
  }

  lemma StatusColors(other: string)
    requires other != "active" && other != "inactive" && other != "graduated"
    ensures StatusColor("active") != StatusColor("graduated")
    ensures StatusColor("active") != StatusColor("inactive") && StatusColor("graduated") != StatusColor("inactive")
    ensures StatusColor("inactive") == StatusColor(other)
  {
  }
}
