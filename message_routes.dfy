/** The REST handlers for group messages (packages/server/routes/messages.js):
    history with read marking, send, edit, soft delete, the per-group unread
    counts and mark-all-read. `user` is the authenticated caller (`req.user.id`). */
module MessageRoutes {
  import opened Common
  import opened GroupModel
  import opened MessageModel
  import opened ServerStore

  /** The page size of the history route when `limit` is absent. */
  const DefaultHistoryLimit: int := 50

  /** The history query: messages of group `g`, created strictly before `before` when it is given. */
  predicate InHistory(m: MessageDoc, g: Id, before: Option<int>)
  {
    m.group == g && (before.None? || m.createdAt < before.value)
  }

  /** `Message.find(query)` in store order, which is creation order. */
  function Matching(ms: seq<MessageDoc>, g: Id, before: Option<int>): (r: seq<MessageDoc>)
    ensures |r| <= |ms|
    ensures forall m :: m in r <==> m in ms && InHistory(m, g, before)
  {
    if ms == [] then []
    else
      var rest := Matching(ms[1..], g, before);
      assert forall m :: m in ms <==> m == ms[0] || m in ms[1..];
      if InHistory(ms[0], g, before) then [ms[0]] + rest else rest
  }

  /** `.sort({createdAt: -1}).limit(n)` followed by `.reverse()`: the newest `n` matches, oldest first. */
  function NewestFirstReversed(s: seq<MessageDoc>, limit: int): (r: seq<MessageDoc>)
    ensures LimitOf(limit) != 0 ==> |r| <= LimitOf(limit)
    ensures |r| <= |s| && r == s[|s| - |r|..]
    ensures |r| < |s| ==> LimitOf(limit) != 0 && |r| == LimitOf(limit)
  {
    var n := LimitOf(limit);
    if n == 0 || n >= |s| then s else s[|s| - n..]
  }

  /** The page the history route returns. */
  function HistoryPage(ms: seq<MessageDoc>, g: Id, limit: Option<int>, before: Option<int>): seq<MessageDoc>
  {
    NewestFirstReversed(Matching(ms, g, before), if limit.Some? then limit.value else DefaultHistoryLimit)
  }

  function IdsOf(ms: seq<MessageDoc>): set<Id>
  {
    set i | 0 <= i < |ms| :: ms[i].id
  }

  /** `updateMany({_id: {$in: ids}, 'readBy.user': {$ne: u}}, {$push: {readBy: ...}})` */
  function StampRead(ms: seq<MessageDoc>, ids: set<Id>, u: Id, now: int): (r: seq<MessageDoc>)
    ensures |r| == |ms|
    ensures forall i :: 0 <= i < |ms| ==> r[i].id == ms[i].id
    ensures forall i :: 0 <= i < |ms| && ms[i].id in ids ==> ReadBy(r[i].readBy, u)
    ensures forall i :: 0 <= i < |ms| && ms[i].id in ids && ReadBy(ms[i].readBy, u) ==> r[i] == ms[i]
    ensures forall i :: 0 <= i < |ms| && ms[i].id !in ids ==> r[i] == ms[i]
  {
    seq(|ms|, i requires 0 <= i < |ms| =>
      if ms[i].id in ids then ms[i].(readBy := WithReader(ms[i].readBy, u, now)) else ms[i])
  }

  /** The `updateMany` of mark-all-read: every message unread for `u` in `g` gets a receipt. */
  function MarkAllRead(ms: seq<MessageDoc>, g: Id, u: Id, now: int): (r: seq<MessageDoc>)
    ensures |r| == |ms|
    ensures forall i :: 0 <= i < |ms| ==> r[i].id == ms[i].id
    ensures forall i :: 0 <= i < |ms| && !Unread(ms[i], g, u) ==> r[i] == ms[i]
  {
    seq(|ms|, i requires 0 <= i < |ms| =>
      if Unread(ms[i], g, u) then ms[i].(readBy := ms[i].readBy + [Receipt(u, now)]) else ms[i])
  }

  /** Each user holds at most one receipt. */
  predicate UniqueReaders(rs: seq<Receipt>)
  {
    forall i, j :: 0 <= i < j < |rs| ==> rs[i].user != rs[j].user
  }

  // ---------------------------------------------------------------------
  // Handlers

  /** `GET /:groupId` with `limit` and `before`: the page, oldest first, as it was
      read; the caller is then added as a reader of the page's messages. */
  method History(db: Database, user: Id, groupId: Id, limit: Option<int>, before: Option<int>, now: int)
      returns (a: Answer<seq<MessageDoc>>)
    requires db.Valid()
    modifies db`messages
    ensures db.Valid()
    ensures groupId !in db.groups ==> a == Failure(404, "Group not found") && db.messages == old(db.messages)
    ensures groupId in db.groups && !Listed(db.groups[groupId].members, user) ==>
      a == Failure(403, "Not a member of this group") && db.messages == old(db.messages)
    ensures groupId in db.groups && Listed(db.groups[groupId].members, user) ==>
      var page := HistoryPage(old(db.messages), groupId, limit, before);
      a == Success(200, page) && db.messages == StampRead(old(db.messages), IdsOf(page), user, now)
  {
    if groupId !in db.groups {
      return Failure(404, "Group not found");
    }
    var group := new Group.Load(db.groups[groupId]);
    if !group.IsMember(user) {
      return Failure(403, "Not a member of this group");
    }
    var page := HistoryPage(db.messages, groupId, limit, before);
    if |page| > 0 {
      db.UpdateMessages(StampRead(db.messages, IdsOf(page), user, now));
    } else {
      StampNothing(db.messages, page, user, now);
    }
    a := Success(200, page);
  }

  /** An empty page stamps nothing. */
  lemma StampNothing(ms: seq<MessageDoc>, page: seq<MessageDoc>, u: Id, now: int)
    requires page == []
    ensures StampRead(ms, IdsOf(page), u, now) == ms
  {
    assert IdsOf(page) == {};
  }

  /** `POST /:groupId` with `{content, attachments}` */
  method Send(db: Database, user: Id, groupId: Id, content: string, attachments: Option<seq<Attachment>>, now: int)
      returns (a: Answer<MessageDoc>)
    requires db.Valid()
    modifies db`messages, db`nextId
    ensures db.Valid()
    ensures groupId !in db.groups ==> a == Failure(404, "Group not found") && db.messages == old(db.messages)
    ensures groupId in db.groups && !Listed(db.groups[groupId].members, user) ==>
      a == Failure(403, "You are not a member of this group") && db.messages == old(db.messages)
    ensures groupId in db.groups && Listed(db.groups[groupId].members, user) && TrimmedRequired(content).None? ==>
      a == Failure(500, "Server error") && db.messages == old(db.messages)
    ensures groupId in db.groups && Listed(db.groups[groupId].members, user) && TrimmedRequired(content).Some? ==>
      a.Success? && a.status == 201
      && a.value == MessageDoc(a.value.id, groupId, user, TrimmedRequired(content).value, if attachments.Some? then attachments.value else [],
                               [Receipt(user, now)], false, [], false, now)
      && db.messages == old(db.messages) + [a.value]
      && forall i :: 0 <= i < |old(db.messages)| ==> old(db.messages)[i].id != a.value.id
  {
    if groupId !in db.groups {
      return Failure(404, "Group not found");
    }
    var group := new Group.Load(db.groups[groupId]);
    if !group.IsMember(user) {
      return Failure(403, "You are not a member of this group");
    }
    var stored := TrimmedRequired(content);
    if stored.None? {
      return Failure(500, "Server error");
    }
    var id := db.FreshId();
    var m := MessageDoc(id, groupId, user, stored.value, if attachments.Some? then attachments.value else [],
                        [Receipt(user, now)], false, [], false, now);
    db.InsertMessage(m);
    a := Success(201, m);
  }

  /** `PUT /:id` with `{content}`: only the sender may edit. */
  method Edit(db: Database, user: Id, id: Id, content: string, now: int) returns (a: Answer<MessageDoc>)
    requires db.Valid()
    modifies db`messages
    ensures db.Valid()
    ensures var k := MessageIndex(old(db.messages), id);
      if k == -1 then a == Failure(404, "Message not found") && db.messages == old(db.messages)
      else if old(db.messages)[k].sender != user then
        a == Failure(403, "Not authorized to edit this message") && db.messages == old(db.messages)
      else if TrimmedRequired(content).None? then
        a == Failure(500, "Server error") && db.messages == old(db.messages)
      else
        var m := old(db.messages)[k];
        var edited := m.(content := TrimmedRequired(content).value, isEdited := true, editHistory := m.editHistory + [EditEntry(m.content, now)]);
        a == Success(200, edited) && db.messages == old(db.messages)[k := edited]
  {
    var k := MessageIndex(db.messages, id);
    if k == -1 {
      return Failure(404, "Message not found");
    }
    if db.messages[k].sender != user {
      return Failure(403, "Not authorized to edit this message");
    }
    var message := new Message.Load(db.messages[k]);
    message.EditContent(content, now);
    if message.content == [] {
      // the `required` validator refuses the save; the store keeps the old document
      return Failure(500, "Server error");
    }
    db.SaveMessage(k, message.Doc());
    a := Success(200, message.Doc());
  }

  /** `DELETE /:id`: the sender, or an admin or the owner of the message's group, soft-deletes it. */
  method Delete(db: Database, user: Id, id: Id) returns (a: Answer<()>)
    requires db.Valid()
    modifies db`messages
    ensures db.Valid()
    ensures var k := MessageIndex(old(db.messages), id);
      if k == -1 then a == Failure(404, "Message not found") && db.messages == old(db.messages)
      else
        var m := old(db.messages)[k];
        if m.sender != user && (m.group !in db.groups || !AdminOrOwner(db.groups[m.group], user)) then
          a == Failure(403, "Not authorized to delete this message") && db.messages == old(db.messages)
        else
          a == Success(200, ()) && db.messages == old(db.messages)[k := m.(isDeleted := true)]
  {
    var k := MessageIndex(db.messages, id);
    if k == -1 {
      return Failure(404, "Message not found");
    }
    var message := new Message.Load(db.messages[k]);
    if message.sender != user {
      if message.group !in db.groups {
        return Failure(403, "Not authorized to delete this message");
      }
      var group := new Group.Load(db.groups[message.group]);
      if !group.IsAdminOrOwner(user) {
        return Failure(403, "Not authorized to delete this message");
      }
    }
    message.SoftDelete();
    db.SaveMessage(k, message.Doc());
    a := Success(200, ());
  }

  /** `GET /unread/count`: one count per group the caller owns or is listed in, filled in a loop. */
  method UnreadCounts(db: Database, user: Id) returns (counts: map<Id, nat>)
    ensures counts.Keys == GroupsOf(db.groups, user)
    ensures forall g :: g in counts ==> counts[g] == UnreadCount(db.messages, g, user)
  {
    var groupIds := GroupsOf(db.groups, user);
    counts := map[];
    var pending := groupIds;
    while pending != {}
      invariant pending <= groupIds
      invariant counts.Keys == groupIds - pending
      invariant forall g :: g in counts ==> counts[g] == UnreadCount(db.messages, g, user)
      decreases |pending|
    {
      var g :| g in pending;
      counts := counts[g := UnreadCount(db.messages, g, user)];
      pending := pending - {g};
    }
  }

  /** `PUT /:groupId/read` */
  method MarkGroupRead(db: Database, user: Id, groupId: Id, now: int) returns (a: Answer<()>)
    requires db.Valid()
    modifies db`messages
    ensures db.Valid()
    ensures groupId !in db.groups ==> a == Failure(404, "Group not found") && db.messages == old(db.messages)
    ensures groupId in db.groups && !Listed(db.groups[groupId].members, user) ==>
      a == Failure(403, "You are not a member of this group") && db.messages == old(db.messages)
    ensures groupId in db.groups && Listed(db.groups[groupId].members, user) ==>
      a == Success(200, ()) && db.messages == MarkAllRead(old(db.messages), groupId, user, now)
  {
    if groupId !in db.groups {
      return Failure(404, "Group not found");
    }
    var group := new Group.Load(db.groups[groupId]);
    if !group.IsMember(user) {
      return Failure(403, "You are not a member of this group");
    }
    db.UpdateMessages(MarkAllRead(db.messages, groupId, user, now));
    a := Success(200, ());
  }

  // ---------------------------------------------------------------------
  // Properties

  /** Every message of the page belongs to the group and predates `before`; the page holds
      at most `limit` messages (50 by default), and a limit of 0 returns every match. That
      they are the newest matches is `NewestFirstReversed`'s suffix property. */
  lemma HistoryPageShape(ms: seq<MessageDoc>, g: Id, limit: Option<int>, before: Option<int>)
    ensures var page := HistoryPage(ms, g, limit, before);
      (forall m :: m in page ==> m in ms && InHistory(m, g, before))
      && (limit.None? ==> |page| <= DefaultHistoryLimit)
      && (limit.Some? && limit.value != 0 ==> |page| <= LimitOf(limit.value))
      && (limit.Some? && limit.value == 0 ==> page == Matching(ms, g, before))
  {
    var s := Matching(ms, g, before);
    var page := HistoryPage(ms, g, limit, before);
    forall m | m in page ensures m in ms && InHistory(m, g, before) {
      assert m in s;
    }
  }

  /** The read marking of the history route gives nobody a second receipt. */
  lemma StampReadKeepsReadersUnique(ms: seq<MessageDoc>, ids: set<Id>, u: Id, now: int, i: nat)
    requires i < |ms| && UniqueReaders(ms[i].readBy)
    ensures UniqueReaders(StampRead(ms, ids, u, now)[i].readBy)
  {
    var rs := ms[i].readBy;
    var r := StampRead(ms, ids, u, now)[i].readBy;
    if ms[i].id in ids && !ReadBy(rs, u) {
      assert r == rs + [Receipt(u, now)];
      forall a, b | 0 <= a < b < |r| ensures r[a].user != r[b].user {
        if b == |rs| {
          assert r[a] == rs[a];
        }
      }
    }
  }

  /** After mark-all-read the caller has no unread message left in that group, and the
      counts of the caller's other groups are as they were. */
  lemma MarkAllReadClears(ms: seq<MessageDoc>, g: Id, u: Id, now: int, h: Id)
    ensures UnreadCount(MarkAllRead(ms, g, u, now), g, u) == 0
    ensures h != g ==> UnreadCount(MarkAllRead(ms, g, u, now), h, u) == UnreadCount(ms, h, u)
  {
    var r := MarkAllRead(ms, g, u, now);
    forall i | 0 <= i < |r| ensures !Unread(r[i], g, u) {
      if Unread(ms[i], g, u) {
        assert r[i].readBy[|ms[i].readBy|].user == u;
      }
    }
    if h != g {
      MarkAllReadOtherGroup(ms, g, u, now, h);
    }
  }

  lemma {:induction false} MarkAllReadOtherGroup(ms: seq<MessageDoc>, g: Id, u: Id, now: int, h: Id)
    requires h != g
    ensures UnreadCount(MarkAllRead(ms, g, u, now), h, u) == UnreadCount(ms, h, u)
    decreases |ms|
  {
    if ms != [] {
      MarkAllReadOtherGroup(ms[1..], g, u, now, h);
      assert MarkAllRead(ms, g, u, now)[1..] == MarkAllRead(ms[1..], g, u, now);
    }
  }
}
