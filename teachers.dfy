/**
 * app/teachers/page.tsx: the search over name, email and subjects, and the
 * colour of the status badge.
 */
module TeachersPage {
  import opened Wrappers
  import Text
  import Seqs

  datatype PostalAddress = PostalAddress(street: string, city: string, country: string)

  datatype Teacher = Teacher(
    id: string,
    name: string,
    email: string,
    workEmail: string,
    phone: string,
    address: PostalAddress,
    avatar: Option<string>,
    status: string,
    department: string,
    joinDate: string,
    salary: real,
    subjects: seq<string>)

  /** The search test: name, email, or any subject; the work email and phone are not searched. */
  predicate Matches(t: Teacher, term: string) {
    Text.IncludesIgnoringCase(t.name, term) ||
    Text.IncludesIgnoringCase(t.email, term) ||
    Text.AnyIncludes(t.subjects, term)
  }

  /** `filteredTeachers` */
  function Filtered(teachers: seq<Teacher>, term: string): seq<Teacher> {
    Seqs.Filter((t: Teacher) => Matches(t, term), teachers)
  }

  lemma FilteredSpec(teachers: seq<Teacher>, term: string)
    ensures forall i :: 0 <= i < |Filtered(teachers, term)| ==> Matches(Filtered(teachers, term)[i], term)
    ensures forall i :: 0 <= i < |teachers| && Matches(teachers[i], term) ==> teachers[i] in Filtered(teachers, term)
    ensures Seqs.IsSubsequence(Filtered(teachers, term), teachers)
    ensures Filtered(teachers, "") == teachers
  {
    Seqs.FilterIsSubsequence((t: Teacher) => Matches(t, term), teachers);
    forall i | 0 <= i < |teachers| ensures Matches(teachers[i], "") {
      Text.EmptyTermMatches(teachers[i].name);
    }
    Seqs.FilterKeepsAll((t: Teacher) => Matches(t, ""), teachers);
  }

  /** A teacher is found by one of their subjects alone. */
  lemma FoundBySubject(t: Teacher, k: nat, term: string)
    requires k < |t.subjects| && Text.IncludesIgnoringCase(t.subjects[k], term)
    ensures Matches(t, term)
  {
  }

  /** Changing the work email or the phone never changes whether a teacher matches. */
  lemma WorkEmailAndPhoneNotSearched(t: Teacher, workEmail: string, phone: string, term: string)
    ensures Matches(t.(workEmail := workEmail, phone := phone), term) == Matches(t, term)
  {
  }

  /** `getStatusColor` */
  function StatusColor(status: string): string {
    if status == "active" then "bg-green-100 text-green-800"
    else if status == "inactive" then "bg-gray-100 text-gray-800"
    else if status == "pending" then "bg-yellow-100 text-yellow-800"
    else "bg-gray-100 text-gray-800"
  }

  /** Active and pending stand out; an inactive teacher looks like an unknown status. */
  lemma StatusColors(other: string)
    requires other != "active" && other != "inactive" && other != "pending"
    ensures StatusColor("active") != StatusColor("pending")
    ensures StatusColor("active") != StatusColor("inactive") && StatusColor("pending") != StatusColor("inactive")
    ensures StatusColor("inactive") == StatusColor(other)
  {
  }
}
