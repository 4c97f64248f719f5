/**
 * components/qualifications-section.tsx: a teacher profile's qualifications
 * split into the private and the group card, each with its empty state.
 */
module QualificationsSection {
  import Seqs

  datatype Qualification = Qualification(id: string, name: string, rate: real, kind: string)

  predicate IsPrivate(q: Qualification) {
    q.kind == "private"
  }

  predicate IsGroup(q: Qualification) {
    q.kind == "group"
  }

  /** `privateQualifications` */
  function PrivateQualifications(qs: seq<Qualification>): (r: seq<Qualification>)
    ensures forall i :: 0 <= i < |r| ==> r[i].kind == "private"
    ensures forall i :: 0 <= i < |qs| && qs[i].kind == "private" ==> qs[i] in r
  {
    Seqs.Filter(IsPrivate, qs)
  }

  /** `groupQualifications` */
  function GroupQualifications(qs: seq<Qualification>): (r: seq<Qualification>)
    ensures forall i :: 0 <= i < |r| ==> r[i].kind == "group"
    ensures forall i :: 0 <= i < |qs| && qs[i].kind == "group" ==> qs[i] in r
  {
    Seqs.Filter(IsGroup, qs)
  }

  /**
   * Both cards keep the profile's order; no entry is in both; and when every
   * type is one of the two declared ones, together they show every entry.
   */
  lemma PartitionSpec(qs: seq<Qualification>)
    ensures Seqs.IsSubsequence(PrivateQualifications(qs), qs) && Seqs.IsSubsequence(GroupQualifications(qs), qs)
    ensures forall q :: q in PrivateQualifications(qs) ==> q !in GroupQualifications(qs)
    ensures (forall i :: 0 <= i < |qs| ==> qs[i].kind == "private" || qs[i].kind == "group") ==>
      |PrivateQualifications(qs)| + |GroupQualifications(qs)| == |qs|
  {
    Seqs.FilterIsSubsequence(IsPrivate, qs);
    Seqs.FilterIsSubsequence(IsGroup, qs);
    if forall i :: 0 <= i < |qs| ==> qs[i].kind == "private" || qs[i].kind == "group" {
      Seqs.FilterPartition(IsPrivate, IsGroup, qs);
    }
  }

  /** What a card shows: its entries, or the empty-state line. */
  datatype Card = Entries(items: seq<Qualification>) | EmptyState(message: string)

  function CardOf(items: seq<Qualification>, message: string): (c: Card)
    ensures c.EmptyState? <==> |items| == 0
    ensures c.Entries? ==> c.items == items
    ensures c.EmptyState? ==> c.message == message
  {
    if |items| == 0 then EmptyState(message) else Entries(items)
  }

  function Render(qs: seq<Qualification>): (cards: (Card, Card))
    ensures cards.0 == CardOf(PrivateQualifications(qs), "No private qualifications added")
    ensures cards.1 == CardOf(GroupQualifications(qs), "No group qualifications added")
  {
    (CardOf(PrivateQualifications(qs), "No private qualifications added"),
     CardOf(GroupQualifications(qs), "No group qualifications added"))
  }

  /** The private card's empty state shows exactly when no entry is private, and likewise for group. */
  lemma {:induction false} EmptyStatesIff(qs: seq<Qualification>)
    ensures Render(qs).0.EmptyState? <==> forall i :: 0 <= i < |qs| ==> qs[i].kind != "private"
    ensures Render(qs).1.EmptyState? <==> forall i :: 0 <= i < |qs| ==> qs[i].kind != "group"
  {
    if exists i :: 0 <= i < |qs| && qs[i].kind == "private" {
      var i :| 0 <= i < |qs| && qs[i].kind == "private";
      assert qs[i] in PrivateQualifications(qs);
    }
    if exists i :: 0 <= i < |qs| && qs[i].kind == "group" {
      var i :| 0 <= i < |qs| && qs[i].kind == "group";
      assert qs[i] in GroupQualifications(qs);
    }
    var p, g := PrivateQualifications(qs), GroupQualifications(qs);
    if |p| > 0 {
      assert p[0] in qs;
      var j :| 0 <= j < |qs| && qs[j] == p[0];
      assert qs[j].kind == "private";
    }
    if |g| > 0 {
      assert g[0] in qs;
      var j :| 0 <= j < |qs| && qs[j] == g[0];
      assert qs[j].kind == "group";
    }
  }
}
