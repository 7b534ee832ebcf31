/** The group chat message of the messaging server: read receipts, edit history,
    soft delete and the unread-count predicate (packages/server/models/Message.js). */
module MessageModel {
  import opened Common

  datatype Receipt = Receipt(user: Id, readAt: int)

  datatype EditEntry = EditEntry(content: string, editedAt: int)

  datatype Attachment = Attachment(kind: string, url: string, name: string, size: int, mimetype: string)

  datatype MessageDoc = MessageDoc(
    id: Id,
    group: Id,
    sender: Id,
    content: string,
    attachments: seq<Attachment>,
    readBy: seq<Receipt>,
    isEdited: bool,
    editHistory: seq<EditEntry>,
    isDeleted: bool,
    createdAt: int)

  /** `readBy.some(r => r.user == u)` */
  predicate ReadBy(rs: seq<Receipt>, u: Id)
  {
    exists i :: 0 <= i < |rs| && rs[i].user == u
  }

  /** The reader list after `markAsRead(u)` at time `now`. */
  function WithReader(rs: seq<Receipt>, u: Id, now: int): (r: seq<Receipt>)
    ensures ReadBy(r, u)
  {
    if ReadBy(rs, u) then rs
    else
      var r := rs + [Receipt(u, now)];
      assert r[|rs|].user == u;
      r
  }

  /** The filter of `getUnreadCount(g, u)`: a message of group `g`, not read by `u`,
      not sent by `u` and not soft-deleted. */
  predicate Unread(m: MessageDoc, g: Id, u: Id)
  {
    m.group == g && !ReadBy(m.readBy, u) && m.sender != u && !m.isDeleted
  }

  /** `countDocuments` with the filter above, over the stored messages. */
  function UnreadCount(ms: seq<MessageDoc>, g: Id, u: Id): (n: nat)
    ensures n <= |ms|
    ensures n == 0 <==> forall i :: 0 <= i < |ms| ==> !Unread(ms[i], g, u)
  {
    if ms == [] then 0
    else
      var rest := UnreadCount(ms[1..], g, u);
      assert forall i :: 0 < i < |ms| ==> ms[i] == ms[1..][i - 1];
      (if Unread(ms[0], g, u) then 1 else 0) + rest
  }

  /** `Message.findById(id)`: the position of the stored message with that id, or -1. */
  function MessageIndex(ms: seq<MessageDoc>, id: Id): (k: int)
    ensures -1 <= k < |ms|
    ensures k >= 0 ==> ms[k].id == id
    ensures k == -1 <==> forall i :: 0 <= i < |ms| ==> ms[i].id != id
  {
    if ms == [] then -1
    else if ms[0].id == id then 0
    else
      var k := MessageIndex(ms[1..], id);
      assert forall i :: 0 < i < |ms| ==> ms[i] == ms[1..][i - 1];
      if k == -1 then -1 else k + 1
  }

  class Message {
    var id: Id
    var group: Id
    var sender: Id
    var content: string
    var attachments: seq<Attachment>
    var readBy: seq<Receipt>
    var isEdited: bool
    var editHistory: seq<EditEntry>
    var isDeleted: bool
    var createdAt: int

    function Doc(): MessageDoc
      reads this
    {
      MessageDoc(id, group, sender, content, attachments, readBy, isEdited, editHistory, isDeleted, createdAt)
    }

    constructor Load(doc: MessageDoc)
      ensures Doc() == doc
    {
      id, group, sender, content, attachments := doc.id, doc.group, doc.sender, doc.content, doc.attachments;
      readBy, isEdited, editHistory, isDeleted, createdAt := doc.readBy, doc.isEdited, doc.editHistory, doc.isDeleted, doc.createdAt;
    }

    /** `markAsRead(u)`: a receipt is pushed only when `u` has none. */
    method MarkAsRead(u: Id, now: int)
      modifies this
      ensures ReadBy(old(readBy), u) ==> readBy == old(readBy)
      ensures !ReadBy(old(readBy), u) ==> readBy == old(readBy) + [Receipt(u, now)]
      ensures Doc() == old(Doc()).(readBy := readBy)
    {
      readBy := WithReader(readBy, u, now);
    }

    /** `editContent(c)` up to its save: the previous content goes to the history, the new
        content, trimmed by the schema's setter, replaces it and the message is flagged edited. */
    method EditContent(newContent: string, now: int)
      modifies this
      ensures editHistory == old(editHistory) + [EditEntry(old(content), now)]
      ensures content == Trim(newContent) && isEdited
      ensures Doc() == old(Doc()).(content := content, isEdited := true, editHistory := editHistory)
    {
      editHistory := editHistory + [EditEntry(content, now)];
      content := Trim(newContent);
      isEdited := true;
    }

    /** `softDelete()` */
    method SoftDelete()
      modifies this
      ensures isDeleted
      ensures Doc() == old(Doc()).(isDeleted := true)
    {
      isDeleted := true;
    }
  }

  // ---------------------------------------------------------------------
  // Properties of the message operations

  /** Marking read twice is the same as marking read once. */
  lemma MarkAsReadIdempotent(rs: seq<Receipt>, u: Id, now: int, later: int)
    ensures WithReader(WithReader(rs, u, now), u, later) == WithReader(rs, u, now)
  {
  }

  /** Marking read only appends: earlier receipts are kept as they were, and every earlier reader stays a reader. */
  lemma MarkAsReadAppendOnly(rs: seq<Receipt>, u: Id, now: int, v: Id)
    ensures |rs| <= |WithReader(rs, u, now)| <= |rs| + 1
    ensures WithReader(rs, u, now)[..|rs|] == rs
    ensures ReadBy(rs, v) ==> ReadBy(WithReader(rs, u, now), v)
  {
    var r := WithReader(rs, u, now);
    if ReadBy(rs, v) {
      var i :| 0 <= i < |rs| && rs[i].user == v;
      assert r[i] == rs[i];
    }
  }

  /** A receipt for `u` leaves every other user's receipts as they were. */
  lemma MarkAsReadOtherReaders(rs: seq<Receipt>, u: Id, now: int, v: Id)
    requires v != u
    ensures ReadBy(WithReader(rs, u, now), v) <==> ReadBy(rs, v)
  {
    var r := WithReader(rs, u, now);
    if ReadBy(r, v) {
      var i :| 0 <= i < |r| && r[i].user == v;
      assert i < |rs| && r[i] == rs[i];
    }
    MarkAsReadAppendOnly(rs, u, now, v);
  }

  /** Once `u` has marked a message read, it no longer counts as unread for `u` in any group. */
  lemma MarkedNotUnread(m: MessageDoc, u: Id, now: int, g: Id)
    ensures !Unread(m.(readBy := WithReader(m.readBy, u, now)), g, u)
  {
  }

  /** Marking the message at index `k` read for `u` lowers `u`'s unread count in `g`
      by one when that message counted, and leaves it unchanged otherwise. */
  lemma {:induction false} UnreadCountAfterMark(ms: seq<MessageDoc>, k: nat, u: Id, now: int, g: Id)
    requires k < |ms|
    ensures UnreadCount(ms[k := ms[k].(readBy := WithReader(ms[k].readBy, u, now))], g, u)
         == UnreadCount(ms, g, u) - (if Unread(ms[k], g, u) then 1 else 0)
    decreases |ms|
  {
    var ms' := ms[k := ms[k].(readBy := WithReader(ms[k].readBy, u, now))];
    if k == 0 {
      assert ms'[1..] == ms[1..];
      MarkedNotUnread(ms[0], u, now, g);
    } else {
      UnreadCountAfterMark(ms[1..], k - 1, u, now, g);
      assert ms'[1..] == ms[1..][k - 1 := ms[k].(readBy := WithReader(ms[k].readBy, u, now))];
    }
  }

  /** Replacing one message by another that does not count as unread never raises the count;
      this covers soft delete and any receipt for `u`. */
  lemma {:induction false} UnreadCountReplace(ms: seq<MessageDoc>, k: nat, m: MessageDoc, u: Id, g: Id)
    requires k < |ms|
    requires Unread(m, g, u) ==> Unread(ms[k], g, u)
    ensures UnreadCount(ms[k := m], g, u) <= UnreadCount(ms, g, u)
    ensures Unread(ms[k], g, u) && !Unread(m, g, u) ==> UnreadCount(ms[k := m], g, u) == UnreadCount(ms, g, u) - 1
    decreases |ms|
  {
    if k == 0 {
      assert ms[k := m][1..] == ms[1..];
    } else {
      UnreadCountReplace(ms[1..], k - 1, m, u, g);
      assert ms[k := m][1..] == ms[1..][k - 1 := m];
    }
  }

  /** Appending a message adds one to the count of exactly the users for whom it is unread. */
  lemma {:induction false} UnreadCountAppend(ms: seq<MessageDoc>, m: MessageDoc, g: Id, u: Id)
    ensures UnreadCount(ms + [m], g, u) == UnreadCount(ms, g, u) + (if Unread(m, g, u) then 1 else 0)
    decreases |ms|
  {
    if ms == [] {
      assert (ms + [m])[1..] == [];
    } else {
      UnreadCountAppend(ms[1..], m, g, u);
      assert (ms + [m])[1..] == ms[1..] + [m];
    }
  }
}
