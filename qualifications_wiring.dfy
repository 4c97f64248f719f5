/**
 * How both containers hand the qualifications list back to the form state.
 * `updateFormData("qualifications", data)` spreads the old value and the new
 * array into an object literal, `{ ...prev.qualifications, ...data }`, which
 * yields an object keyed by index rather than an array. The value is kept
 * here in the two shapes JavaScript gives it, next to the intended
 * replacement that the rest of the model uses.
 */
module QualificationsWiring {
  import opened Wrappers
  import opened FormData

  /** A JavaScript value holding qualifications: an array, or a plain object keyed "0", "1", … */
  datatype Value = Arr(items: seq<QualificationInfo>) | Obj(entries: map<nat, QualificationInfo>)

  /** The own enumerable index keys of a value and what they hold. */
  function Entries(v: Value): map<nat, QualificationInfo> {
    match v
    case Arr(items) => map i: nat | i < |items| :: items[i]
    case Obj(entries) => entries
  }

  /** `{ ...prev, ...data }`: an object literal; the keys of `data` override those of `prev`. */
  function SpreadMerge(prev: Value, data: seq<QualificationInfo>): (r: Value)
    ensures r.Obj?
    ensures forall i: nat :: i < |data| ==> i in r.entries && r.entries[i] == data[i]
    ensures forall i: nat :: i >= |data| ==> (i in r.entries <==> i in Entries(prev))
  {
    Obj(Entries(prev) + map i: nat | i < |data| :: data[i])
  }

  /** `value.length`: an object literal has none (`undefined`). */
  function Length(v: Value): Option<nat> {
    match v
    case Arr(items) => Some(|items|)
    case Obj(_) => None
  }

  /** `[...data, qualification]`: spreading a plain object into an array throws a TypeError (None). */
  function SpreadAppend(v: Value, q: QualificationInfo): Option<seq<QualificationInfo>> {
    match v
    case Arr(items) => Some(items + [q])
    case Obj(_) => None
  }

  /**
   * As written: after the first qualification is added to the empty list, the
   * step's `data.length` is undefined, so neither the list nor the empty-state
   * text is shown, and the next add throws.
   */
  lemma AsWrittenSecondAddThrows(q1: QualificationInfo, q2: QualificationInfo)
    ensures var after := SpreadMerge(Arr([]), [q1]);
      Length(after).None? && SpreadAppend(after, q2).None?
  {
  }

  /**
   * As written, even on arrays: removing the first of two entries merges the
   * shorter list over the longer one, and the stale last entry survives.
   */
  lemma AsWrittenRemoveKeepsStaleEntry(a: QualificationInfo, b: QualificationInfo)
    ensures Entries(SpreadMerge(Arr([a, b]), [b])) == map[0 := b, 1 := b]
  {
    var m := Entries(SpreadMerge(Arr([a, b]), [b]));
    assert m.Keys == {0, 1} by {
      assert forall i: nat :: i in m <==> i < 2;
    }
  }

  /** The intended update: the section is replaced by the list the step sends. */
  function ReplaceQualifications(d: TeacherFormData, list: seq<QualificationInfo>): (r: TeacherFormData)
    ensures r.qualifications == list
    ensures r.personalInfo == d.personalInfo && r.contactInfo == d.contactInfo
    ensures r.availability == d.availability && r.emergencyContact == d.emergencyContact
  {
    d.(qualifications := list)
  }

  /** With the replacement, the value stays an array of the step's list and the next add succeeds. */
  lemma CorrectedKeepsAnArray(d: TeacherFormData, list: seq<QualificationInfo>, q: QualificationInfo)
    ensures var v := Arr(ReplaceQualifications(d, list).qualifications);
      Length(v) == Some(|list|) && SpreadAppend(v, q) == Some(list + [q])
  {
  }
}
