/**
 * components/aceternity-steps/qualifications-step.tsx: the step keeps a draft
 * qualification and an "adding" flag of its own, appends the draft to the
 * list under a fresh id when subject, level and a positive rate are given,
 * and removes entries by id.
 */
module QualificationsStep {
  import opened Wrappers
  import opened FormData
  import Seqs
  import Numbers

  /** `Omit<QualificationInfo, "id">`: the entry being typed in. */
  datatype Draft = Draft(
    degree: string,
    institution: string,
    graduationYear: string,
    subject: string,
    level: string,
    certification: string,
    rate: real,
    kind: QualificationType,
    experience: int)

  /** Both the initial draft and the one an add resets to. */
  const EmptyDraft := Draft("", "", "", "", "", "", 0.0, Private, 0)

  /**
   * One input of the draft form. The rate input carries what `parseFloat`
   * made of the text (None for NaN); the experience input carries the text.
   */
  datatype DraftEdit =
    | SetDegree(degree: string)
    | SetInstitution(institution: string)
    | SetGraduationYear(year: string)
    | SetSubject(subject: string)
    | SetLevel(level: string)
    | SetCertification(certification: string)
    | SetRate(parsed: Option<real>)
    | SetKind(kind: QualificationType)
    | SetExperience(text: string)

  /** `setNewQualification((prev) => ({ ...prev, [key]: value }))` */
  function ApplyEdit(d: Draft, e: DraftEdit): Draft {
    match e
    case SetDegree(v) => d.(degree := v)
    case SetInstitution(v) => d.(institution := v)
    case SetGraduationYear(v) => d.(graduationYear := v)
    case SetSubject(v) => d.(subject := v)
    case SetLevel(v) => d.(level := v)
    case SetCertification(v) => d.(certification := v)
    case SetRate(parsed) => d.(rate := Numbers.RealOrElse(parsed, 0.0))
    case SetKind(k) => d.(kind := k)
    case SetExperience(text) => d.(experience := Numbers.OrElse(Numbers.ParseInt(text), 0))
  }

  /** The guard of `addQualification`. */
  predicate CanAdd(d: Draft) {
    d.subject != "" && d.level != "" && d.rate > 0.0
  }

  /** `{ ...newQualification, id }` */
  function WithId(d: Draft, id: string): (q: QualificationInfo)
    ensures q.id == id
  {
    QualificationInfo(id, d.degree, d.institution, d.graduationYear, d.subject, d.level,
      d.certification, d.rate, d.kind, d.experience)
  }

  /** `data.filter((q) => q.id !== id)` */
  function RemoveById(data: seq<QualificationInfo>, id: string): seq<QualificationInfo> {
    Seqs.Filter((q: QualificationInfo) => q.id != id, data)
  }

  /**
   * Removing keeps exactly the entries with another id, in their order: none
   * with that id remains and every other entry does.
   */
  lemma RemoveByIdSpec(data: seq<QualificationInfo>, id: string)
    ensures forall i :: 0 <= i < |RemoveById(data, id)| ==> RemoveById(data, id)[i].id != id
    ensures forall i :: 0 <= i < |data| && data[i].id != id ==> data[i] in RemoveById(data, id)
    ensures Seqs.IsSubsequence(RemoveById(data, id), data)
  {
    Seqs.FilterIsSubsequence((q: QualificationInfo) => q.id != id, data);
  }

  /** Removing an id that no entry has leaves the list as it was. */
  lemma RemoveAbsentId(data: seq<QualificationInfo>, id: string)
    requires forall i :: 0 <= i < |data| ==> data[i].id != id
    ensures RemoveById(data, id) == data
  {
    Seqs.FilterKeepsAll((q: QualificationInfo) => q.id != id, data);
  }

  /** Adding an entry under an id no entry has, then removing that id, gives back the list. */
  lemma {:induction false} AddThenRemove(data: seq<QualificationInfo>, d: Draft, id: string)
    requires forall i :: 0 <= i < |data| ==> data[i].id != id
    ensures RemoveById(data + [WithId(d, id)], id) == data
  {
    var p := (q: QualificationInfo) => q.id != id;
    Seqs.FilterAppend(p, data, [WithId(d, id)]);
    RemoveAbsentId(data, id);
    assert Seqs.Filter(p, [WithId(d, id)]) == [];
  }

  /**
   * A rate that does not parse, or parses to 0, is stored as 0, so the draft
   * cannot be added until a positive rate is typed; a negative rate is kept
   * and blocks the add as well.
   */
  lemma RateGatesTheAdd(d: Draft, parsed: Option<real>)
    ensures (parsed.None? || parsed.value <= 0.0) ==> !CanAdd(ApplyEdit(d, SetRate(parsed)))
    ensures parsed.Some? && parsed.value > 0.0 ==> ApplyEdit(d, SetRate(parsed)).rate == parsed.value
  {
  }

  /** The experience input keeps the integer `parseInt` reads, and 0 when it reads none. */
  lemma ExperienceFromText(d: Draft, n: int)
    ensures ApplyEdit(d, SetExperience(Numbers.IntString(n))).experience == n
    ensures ApplyEdit(d, SetExperience("")).experience == 0
  {
    Numbers.ParseIntString(n);
  }

  /** The step's local state, with the list that `data`/`onChange` hold for it. */
  class QualificationsEditor {
    var data: seq<QualificationInfo>
    var isAdding: bool
    var draft: Draft

    constructor (initial: seq<QualificationInfo>)
      ensures data == initial && !isAdding && draft == EmptyDraft
    {
      data := initial;
      isAdding := false;
      draft := EmptyDraft;
    }

    /** The header's "Add Qualification" button, disabled while the form is open. */
    predicate AddButtonDisabled()
      reads this
    {
      isAdding
    }

    /** "No qualifications added yet", shown when the list is empty and the form is closed. */
    predicate ShowsEmptyState()
      reads this
    {
      |data| == 0 && !isAdding
    }

    /** `setIsAdding(true)` */
    method Open()
      modifies this
      ensures isAdding && data == old(data) && draft == old(draft)
    {
      isAdding := true;
    }

    /** The Cancel button: the form closes and the draft is kept for the next opening. */
    method Cancel()
      modifies this
      ensures !isAdding && data == old(data) && draft == old(draft)
    {
      isAdding := false;
    }

    method Edit(e: DraftEdit)
      modifies this
      ensures draft == ApplyEdit(old(draft), e)
      ensures data == old(data) && isAdding == old(isAdding)
    {
      draft := ApplyEdit(draft, e);
    }

    /**
     * `addQualification`, with the random id passed in. When the guard holds
     * the entry is appended, the draft is reset and the form closes; otherwise
     * nothing changes.
     */
    method AddQualification(freshId: string) returns (added: bool)
      modifies this
      ensures added == CanAdd(old(draft))
      ensures added ==> data == old(data) + [WithId(old(draft), freshId)] && draft == EmptyDraft && !isAdding
      ensures !added ==> data == old(data) && draft == old(draft) && isAdding == old(isAdding)
    {
      added := CanAdd(draft);
      if added {
        data := data + [WithId(draft, freshId)];
        draft := EmptyDraft;
        isAdding := false;
      }
    }

    /** The trash button of an entry. */
    method RemoveQualification(id: string)
      modifies this
      ensures data == RemoveById(old(data), id)
      ensures isAdding == old(isAdding) && draft == old(draft)
    {
      data := RemoveById(data, id);
    }
  }
}
