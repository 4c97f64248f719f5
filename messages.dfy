/**
 * app/messages/page.tsx: the search over sender, subject and body, the
 * unread count, marking a message read when it is opened, and the colour of
 * the sender badge.
 */
module MessagesPage {
  import opened Wrappers
  import Text
  import Seqs

  datatype Message = Message(
    id: string,
    senderId: string,
    senderName: string,
    senderType: string,
    recipientId: string,
    recipientName: string,
    recipientType: string,
    subject: string,
    content: string,
    timestamp: string,
    read: bool,
    attachments: seq<string>)

  /** The search test of one message. */
  predicate Matches(m: Message, term: string) {
    Text.IncludesIgnoringCase(m.senderName, term) ||
    Text.IncludesIgnoringCase(m.subject, term) ||
    Text.IncludesIgnoringCase(m.content, term)
  }

  /** `filteredMessages` */
  function Filtered(messages: seq<Message>, term: string): seq<Message> {
    Seqs.Filter((m: Message) => Matches(m, term), messages)
  }

  /**
   * The list keeps exactly the matching messages, in their order, and the
   * empty term keeps them all.
   */
  lemma FilteredSpec(messages: seq<Message>, term: string)
    ensures forall i :: 0 <= i < |Filtered(messages, term)| ==> Matches(Filtered(messages, term)[i], term)
    ensures forall i :: 0 <= i < |messages| && Matches(messages[i], term) ==> messages[i] in Filtered(messages, term)
    ensures Seqs.IsSubsequence(Filtered(messages, term), messages)
    ensures Filtered(messages, "") == messages
  {
    Seqs.FilterIsSubsequence((m: Message) => Matches(m, term), messages);
    forall i | 0 <= i < |messages| ensures Matches(messages[i], "") {
      Text.EmptyTermMatches(messages[i].senderName);
    }
    Seqs.FilterKeepsAll((m: Message) => Matches(m, ""), messages);
  }

  /** Typing the term in capitals finds the same messages. */
  lemma FilteredIgnoresTermCase(messages: seq<Message>, term: string)
    ensures Filtered(messages, Text.ToLower(term)) == Filtered(messages, term)
  {
    forall i | 0 <= i < |messages| ensures Matches(messages[i], Text.ToLower(term)) == Matches(messages[i], term) {
      Text.SearchIgnoresTermCase(messages[i].senderName, term);
      Text.SearchIgnoresTermCase(messages[i].subject, term);
      Text.SearchIgnoresTermCase(messages[i].content, term);
    }
    Seqs.FilterCongruent((m: Message) => Matches(m, Text.ToLower(term)), (m: Message) => Matches(m, term), messages);
  }

  predicate IsUnread(m: Message) {
    !m.read
  }

  /** `unreadCount`, over all messages whatever the search. */
  function UnreadCount(messages: seq<Message>): (n: nat)
    ensures n == Seqs.CountWhere(IsUnread, messages)
    ensures n <= |messages|
  {
    Seqs.FilterLength(IsUnread, messages);
    |Seqs.Filter(IsUnread, messages)|
  }

  /** `markAsRead(id)`: every message with that id becomes read, the others are kept. */
  function MarkAsRead(messages: seq<Message>, id: string): (r: seq<Message>)
    ensures |r| == |messages|
    ensures forall i :: 0 <= i < |messages| ==> r[i] == if messages[i].id == id then messages[i].(read := true) else messages[i]
  {
    seq(|messages|, i requires 0 <= i < |messages| => if messages[i].id == id then messages[i].(read := true) else messages[i])
  }

  predicate UnreadWithId(id: string, m: Message) {
    m.id == id && !m.read
  }

  /** Marking drops the unread count by exactly the unread messages with that id. */
  lemma {:induction false} MarkAsReadCount(messages: seq<Message>, id: string)
    ensures UnreadCount(MarkAsRead(messages, id)) + Seqs.CountWhere((m: Message) => UnreadWithId(id, m), messages)
      == UnreadCount(messages)
  {
    if messages != [] {
      MarkAsReadCount(messages[1..], id);
      assert MarkAsRead(messages, id)[1..] == MarkAsRead(messages[1..], id);
    }
  }

  /** Marking twice is marking once, and a message already read is left as it is. */
  lemma MarkAsReadIdempotent(messages: seq<Message>, id: string)
    ensures MarkAsRead(MarkAsRead(messages, id), id) == MarkAsRead(messages, id)
    ensures (forall i :: 0 <= i < |messages| ==> !UnreadWithId(id, messages[i])) ==> MarkAsRead(messages, id) == messages
  {
  }

  /** `getSenderTypeColor` */
  function SenderTypeColor(senderType: string): string {
    if senderType == "teacher" then "bg-blue-100 text-blue-800"
    else if senderType == "student" then "bg-green-100 text-green-800"
    else if senderType == "admin" then "bg-purple-100 text-purple-800"
    else "bg-gray-100 text-gray-800"
  }

  /** The three sender types get three different badges, none of them the fallback grey. */
  lemma SenderColorsDistinct(other: string)
    requires other != "teacher" && other != "student" && other != "admin"
    ensures var t, s, a, o := SenderTypeColor("teacher"), SenderTypeColor("student"), SenderTypeColor("admin"), SenderTypeColor(other);
      t != s && t != a && s != a && o != t && o != s && o != a
  {
  }

  /** The page's state: the message list, the opened message and the search box. */
  class MessagesView {
    var messages: seq<Message>
    var selected: Option<Message>
    var searchTerm: string

    constructor (initial: seq<Message>)
      ensures messages == initial && selected == None && searchTerm == ""
    {
      messages := initial;
      selected := None;
      searchTerm := "";
    }

    method SetSearchTerm(term: string)
      modifies this`searchTerm
      ensures searchTerm == term
    {
      searchTerm := term;
    }

    /**
     * Clicking a message: it becomes the opened one as it was clicked (so the
     * opened copy still says unread), then an unread message is marked read in the list.
     */
    method Open(m: Message)
      modifies this`selected, this`messages
      ensures selected == Some(m)
      ensures messages == if !m.read then MarkAsRead(old(messages), m.id) else old(messages)
    {
      selected := Some(m);
      if !m.read {
        messages := MarkAsRead(messages, m.id);
      }
    }

    /** The list shown under the search box. */
    function Shown(): seq<Message>
      reads this
    {
      Filtered(messages, searchTerm)
    }
  }
}
