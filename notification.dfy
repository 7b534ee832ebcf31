/** In-app notifications of the messaging server: the read flag, the three
    builders and the unread count (packages/server/models/Notification.js). */
module NotificationModel {
  import opened Common

  datatype Kind = MessageKind | GroupInvitation | GroupJoin | GroupLeave | RoleChange | SystemKind | Announcement

  datatype Priority = Low | Normal | High | Urgent

  datatype NotificationDoc = NotificationDoc(
    id: Id,
    recipient: Id,
    sender: Option<Id>,
    kind: Kind,
    title: string,
    content: string,
    read: bool,
    readAt: Option<int>,
    metadata: map<string, string>,
    link: Option<string>,
    group: Option<Id>,
    message: Option<Id>,
    priority: Priority,
    expiresAt: Option<int>,
    createdAt: int)

  /** The options object of `createSystemNotification`; an absent field is `None`. */
  datatype SystemOptions = SystemOptions(
    priority: Option<Priority>,
    link: Option<string>,
    expiresAt: Option<int>,
    metadata: Option<map<string, string>>)

  /** Preview length of a message notification. */
  const PreviewLength: nat := 50

  /** `content.length > 50 ? content.substring(0, 50) + '...' : content` */
  function Preview(content: string): (r: string)
    ensures |r| <= PreviewLength + 3
    ensures |content| <= PreviewLength ==> r == content
    ensures |content| > PreviewLength ==> |r| == PreviewLength + 3 && r[PreviewLength..] == "..."
    ensures StartsWith(content, r[..if |content| <= PreviewLength then |content| else PreviewLength])
  {
    if |content| > PreviewLength then content[..PreviewLength] + "..." else content
  }

  /** `/groups/${groupId}` */
  function GroupLink(g: Id): string
  {
    "/groups/" + IdText(g)
  }

  /** `/groups/${groupId}?message=${messageId}` */
  function MessageLink(g: Id, m: Id): string
  {
    "/groups/" + IdText(g) + "?message=" + IdText(m)
  }

  /** `createSystemNotification(recipient, title, content, options)` */
  function SystemNotification(id: Id, recipient: Id, title: string, content: string, options: SystemOptions, now: int): (n: NotificationDoc)
    ensures n.id == id && n.createdAt == now
    ensures n.kind == SystemKind && n.recipient == recipient && !n.read
    ensures n.priority == (if options.priority.Some? then options.priority.value else Normal)
    ensures n.link == options.link && n.expiresAt == options.expiresAt
  {
    NotificationDoc(id, recipient, None, SystemKind, title, content, false, None,
      if options.metadata.Some? then options.metadata.value else map[],
      options.link, None, None,
      if options.priority.Some? then options.priority.value else Normal,
      options.expiresAt, now)
  }

  /** `createMessageNotification(recipient, sender, group, message, content)` */
  function MessageNotification(id: Id, recipient: Id, sender: Id, g: Id, m: Id, content: string, now: int): (n: NotificationDoc)
    ensures n.id == id && n.createdAt == now
    ensures n.kind == MessageKind && n.title == "New Message" && !n.read && n.priority == Normal
    ensures n.recipient == recipient && n.sender == Some(sender) && n.group == Some(g) && n.message == Some(m)
    ensures n.content == Preview(content)
    ensures n.link == Some(MessageLink(g, m))
    ensures n.metadata == map["messageId" := IdText(m), "groupId" := IdText(g)]
  {
    NotificationDoc(id, recipient, Some(sender), MessageKind, "New Message", Preview(content), false, None,
      map["messageId" := IdText(m), "groupId" := IdText(g)],
      Some(MessageLink(g, m)), Some(g), Some(m), Normal, None, now)
  }

  /** `createGroupInvitationNotification(recipient, sender, group, groupName)` */
  function GroupInvitationNotification(id: Id, recipient: Id, sender: Id, g: Id, groupName: string, now: int): (n: NotificationDoc)
    ensures n.id == id && n.createdAt == now
    ensures n.kind == GroupInvitation && n.title == "Group Invitation" && n.priority == High && !n.read
    ensures n.recipient == recipient && n.sender == Some(sender) && n.group == Some(g) && n.message == None
    ensures n.content == "You have been invited to join the group: " + groupName
    ensures n.link == Some(GroupLink(g))
  {
    NotificationDoc(id, recipient, Some(sender), GroupInvitation, "Group Invitation",
      "You have been invited to join the group: " + groupName, false, None,
      map["groupId" := IdText(g), "groupName" := groupName],
      Some(GroupLink(g)), Some(g), None, High, None, now)
  }

  /** The filter of `getUnreadCount(u)`. */
  predicate UnreadFor(n: NotificationDoc, u: Id)
  {
    n.recipient == u && !n.read
  }

  function UnreadNotifications(ns: seq<NotificationDoc>, u: Id): (c: nat)
    ensures c <= |ns|
    ensures c == 0 <==> forall i :: 0 <= i < |ns| ==> !UnreadFor(ns[i], u)
  {
    if ns == [] then 0
    else
      var rest := UnreadNotifications(ns[1..], u);
      assert forall i :: 0 < i < |ns| ==> ns[i] == ns[1..][i - 1];
      (if UnreadFor(ns[0], u) then 1 else 0) + rest
  }

  /** `Notification.findById(id)`: the position of the stored notification with that id, or -1. */
  function NotificationIndex(ns: seq<NotificationDoc>, id: Id): (k: int)
    ensures -1 <= k < |ns|
    ensures k >= 0 ==> ns[k].id == id
    ensures k == -1 <==> forall i :: 0 <= i < |ns| ==> ns[i].id != id
  {
    if ns == [] then -1
    else if ns[0].id == id then 0
    else
      var k := NotificationIndex(ns[1..], id);
      assert forall i :: 0 < i < |ns| ==> ns[i] == ns[1..][i - 1];
      if k == -1 then -1 else k + 1
  }

  /** The document after `markAsRead()` at time `now`. */
  function MarkedRead(n: NotificationDoc, now: int): NotificationDoc
  {
    n.(read := true, readAt := Some(now))
  }

  class Notification {
    var doc: NotificationDoc

    constructor Load(d: NotificationDoc)
      ensures doc == d
    {
      doc := d;
    }

    /** `markAsRead()`: the flag is set and the time recorded; nothing sets it back. */
    method MarkAsRead(now: int)
      modifies this
      ensures doc.read && doc.readAt == Some(now)
      ensures doc == MarkedRead(old(doc), now)
    {
      doc := doc.(read := true, readAt := Some(now));
    }
  }

  // ---------------------------------------------------------------------
  // Properties

  /** A message notification's link names its group and message: different
      (group, message) pairs never share a link. */
  lemma MessageLinkInjective(g1: Id, m1: Id, g2: Id, m2: Id)
    requires MessageLink(g1, m1) == MessageLink(g2, m2)
    ensures g1 == g2 && m1 == m2
  {
    var r1, r2 := "?message=" + IdText(m1), "?message=" + IdText(m2);
    LinkTail(g1, m1);
    LinkTail(g2, m2);
    DigitRunUnique(IdText(g1), r1, IdText(g2), r2);
    assert IdText(m1) == r1[9..];
    assert IdText(m2) == r2[9..];
    IdTextInjective(g1, g2);
    IdTextInjective(m1, m2);
  }

  lemma LinkTail(g: Id, m: Id)
    ensures MessageLink(g, m)[8..] == IdText(g) + ("?message=" + IdText(m))
  {
    assert MessageLink(g, m) == "/groups/" + (IdText(g) + ("?message=" + IdText(m)));
  }

  /** A run of digits followed by a non-digit is determined by the text it starts. */
  lemma DigitRunUnique(a1: string, r1: string, a2: string, r2: string)
    requires forall i :: 0 <= i < |a1| ==> '0' <= a1[i] <= '9'
    requires forall i :: 0 <= i < |a2| ==> '0' <= a2[i] <= '9'
    requires r1 != [] && r1[0] == '?' && r2 != [] && r2[0] == '?'
    requires a1 + r1 == a2 + r2
    ensures a1 == a2 && r1 == r2
  {
    assert a1 == (a1 + r1)[..|a1|];
    assert a2 == (a2 + r2)[..|a2|];
  }

  /** Marking read is idempotent in the flag: a second call keeps it read and only moves readAt. */
  lemma MarkReadAgain(n: NotificationDoc, t1: int, t2: int)
    ensures MarkedRead(MarkedRead(n, t1), t2) == MarkedRead(n, t2)
    ensures MarkedRead(MarkedRead(n, t1), t2).read
  {
  }

  /** Marking the notification at index `k` read lowers its recipient's unread count by
      exactly one when it was unread, and leaves every other user's count unchanged. */
  lemma {:induction false} UnreadNotificationsAfterMark(ns: seq<NotificationDoc>, k: nat, now: int, u: Id)
    requires k < |ns|
    ensures UnreadNotifications(ns[k := MarkedRead(ns[k], now)], u)
         == UnreadNotifications(ns, u) - (if UnreadFor(ns[k], u) then 1 else 0)
    decreases |ns|
  {
    if k == 0 {
      assert ns[k := MarkedRead(ns[k], now)][1..] == ns[1..];
    } else {
      UnreadNotificationsAfterMark(ns[1..], k - 1, now, u);
      assert ns[k := MarkedRead(ns[k], now)][1..] == ns[1..][k - 1 := MarkedRead(ns[k], now)];
    }
  }

  /** Appending a new notification raises exactly its recipient's unread count, by one. */
  lemma {:induction false} UnreadNotificationsAppend(ns: seq<NotificationDoc>, n: NotificationDoc, u: Id)
    ensures UnreadNotifications(ns + [n], u) == UnreadNotifications(ns, u) + (if UnreadFor(n, u) then 1 else 0)
    decreases |ns|
  {
    if ns == [] {
      assert (ns + [n])[1..] == [];
    } else {
      UnreadNotificationsAppend(ns[1..], n, u);
      assert (ns + [n])[1..] == ns[1..] + [n];
    }
  }
}
