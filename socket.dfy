/** The real-time coordinator of the messaging server (packages/server/socket.js).
    Each connected socket carries the user document read at admission and the
    set of rooms it has joined (`user:<id>` and `group:<id>`). Every emission is
    recorded in `outbox` together with the sockets that receive it, computed from
    room membership at the moment of the emission. Handlers run one at a time. */
module Coordinator {
  import opened Common
  import opened GroupModel
  import opened MessageModel
  import opened NotificationModel
  import opened ServerStore

  type SocketId = nat

  datatype Room = UserRoom(user: Id) | GroupRoom(group: Id)

  datatype Connection = Connection(user: UserDoc, rooms: set<Room>)

  /** The `{ id, firstName, lastName }` object sent with typing, receipt and membership events. */
  datatype UserCard = UserCard(id: Id, firstName: string, lastName: string)

  datatype Event =
    | GroupsJoined(groups: map<Id, string>, count: nat, unreadNotifications: nat)
    | ErrorEvent(reason: string)
    | MessageReceived(message: MessageDoc)
    | MessageSent(message: MessageDoc)
    | NotificationNew(notification: NotificationDoc)
    | MembershipNotice(kind: Kind, title: string, content: string, groupId: Id)
    | TypingStarted(user: UserCard, groupId: Id)
    | TypingStopped(user: UserCard, groupId: Id)
    | ReadReceipt(messageId: Id, readBy: UserCard, groupId: Id)
    | UnreadCountEvent(count: nat)
    | GroupJoined(id: Id, name: string)
    | GroupLeft(id: Id, name: string)
    | MemberJoined(groupId: Id, user: UserCard, profileImage: string)
    | MemberLeft(groupId: Id, user: UserCard)

  /** The Socket.IO event name each payload travels under. */
  function EventName(e: Event): string
  {
    match e
    case GroupsJoined(_, _, _) => "groups:joined"
    case ErrorEvent(_) => "error"
    case MessageReceived(_) => "message:received"
    case MessageSent(_) => "message:sent"
    case NotificationNew(_) => "notification:new"
    case MembershipNotice(_, _, _, _) => "notification:new"
    case TypingStarted(_, _) => "typing:started"
    case TypingStopped(_, _) => "typing:stopped"
    case ReadReceipt(_, _, _) => "message:read"
    case UnreadCountEvent(_) => "notification:unread-count"
    case GroupJoined(_, _) => "group:joined"
    case GroupLeft(_, _) => "group:left"
    case MemberJoined(_, _, _) => "group:member-joined"
    case MemberLeft(_, _) => "group:member-left"
  }

  datatype Delivery = Delivery(sockets: set<SocketId>, event: Event)

  datatype Admission = Admitted | Refused(reason: string)

  function Card(u: UserDoc): UserCard
  {
    UserCard(u.id, u.firstName, u.lastName)
  }

  /** The rooms a newly admitted socket is in: its user room and one room per group of the user. */
  function InitialRooms(groups: map<Id, GroupDoc>, u: Id): (r: set<Room>)
    ensures UserRoom(u) in r
    ensures forall v :: UserRoom(v) in r ==> v == u
    ensures forall g :: GroupRoom(g) in r <==> g in GroupsOf(groups, u)
  {
    {UserRoom(u)} + set g | g in GroupsOf(groups, u) :: GroupRoom(g)
  }

  /** `User.find({_id: {$in: member ids, $ne: sender}})`: the stored users listed in the group, sender excluded. */
  function FoundMembers(users: map<Id, UserDoc>, members: seq<Member>, sender: Id): (r: set<Id>)
    ensures forall v :: v in r <==> v in users && Listed(members, v) && v != sender
  {
    set v | v in users && Listed(members, v) && v != sender
  }

  /** The users a message:send notifies: found members whose preferences allow it. */
  function NotifyTargets(users: map<Id, UserDoc>, members: seq<Member>, sender: Id): (r: set<Id>)
    ensures r <= FoundMembers(users, members, sender)
    ensures sender !in r
  {
    set v | v in FoundMembers(users, members, sender) && WantsNotifications(users[v])
  }

  function RecipientsOf(ns: seq<NotificationDoc>): set<Id>
  {
    set i | 0 <= i < |ns| :: ns[i].recipient
  }

  predicate DistinctRecipients(ns: seq<NotificationDoc>)
  {
    forall i, j :: 0 <= i < j < |ns| ==> ns[i].recipient != ns[j].recipient
  }

  /** The notifications one message:send creates: message notifications for the
      same message, one per target and no target twice. */
  predicate FanOut(added: seq<NotificationDoc>, targets: set<Id>, sender: Id, g: Id, m: Id, content: string, now: int)
  {
    (forall i :: 0 <= i < |added| ==> added[i] == MessageNotification(added[i].id, added[i].recipient, sender, g, m, content, now))
    && DistinctRecipients(added)
    && RecipientsOf(added) == targets
  }

  /** The group_join / group_leave notification stored for the owner. */
  function MembershipNotification(id: Id, user: UserDoc, group: GroupDoc, joined: bool, now: int): (n: NotificationDoc)
    ensures n.id == id && n.createdAt == now
    ensures n.recipient == group.owner && n.sender == Some(user.id) && !n.read
    ensures n.kind == (if joined then GroupJoin else GroupLeave)
    ensures n.content == user.firstName + " " + user.lastName + (if joined then " joined " else " left ") + group.name
    ensures n.link == Some(GroupLink(group.id))
  {
    NotificationDoc(id, group.owner, Some(user.id),
      if joined then GroupJoin else GroupLeave,
      if joined then "New Group Member" else "Member Left Group",
      user.firstName + " " + user.lastName + (if joined then " joined " else " left ") + group.name,
      false, None,
      map["groupId" := IdText(group.id), "groupName" := group.name],
      Some(GroupLink(group.id)), Some(group.id), None, Normal, None, now)
  }

  function RoomMembers(conns: map<SocketId, Connection>, r: Room): set<SocketId>
  {
    set s | s in conns && r in conns[s].rooms
  }

  /** Each notification pushed to its recipient's user room, in creation order. */
  predicate Pushed(conns: map<SocketId, Connection>, ns: seq<NotificationDoc>, ds: seq<Delivery>)
  {
    |ds| == |ns|
    && forall i :: 0 <= i < |ns| ==> ds[i] == Delivery(RoomMembers(conns, UserRoom(ns[i].recipient)), NotificationNew(ns[i]))
  }

  /** The members of `s` that are stored users whose preferences allow notifications. */
  function Wanted(users: map<Id, UserDoc>, s: set<Id>): set<Id>
  {
    set v | v in s && v in users && WantsNotifications(users[v])
  }

  /** One `Notification` document of the fan-out, under a fresh id. */
  method NewMessageNotification(db: Database, r: Id, sender: Id, g: Id, mid: Id, content: string, now: int)
      returns (n: NotificationDoc)
    requires db.Valid()
    modifies db`nextId
    ensures db.Valid() && n.id == old(db.nextId) && db.nextId == n.id + 1
    ensures n == MessageNotification(n.id, r, sender, g, mid, content, now)
  {
    var nid := db.FreshId();
    n := MessageNotification(nid, r, sender, g, mid, content, now);
  }

  /** The loop of the fan-out: one message notification per found member whose
      preferences allow it, in the order the members are taken, each paired with its
      push to the member's user room. */
  method CreateNotifications(db: Database, conns: map<SocketId, Connection>, users: map<Id, UserDoc>, found: set<Id>,
                             sender: Id, g: Id, mid: Id, content: string, now: int)
      returns (added: seq<NotificationDoc>, pushes: seq<Delivery>)
    requires db.Valid() && found <= users.Keys
    modifies db`nextId
    ensures db.Valid() && db.nextId >= old(db.nextId)
    ensures forall i :: 0 <= i < |added| ==> old(db.nextId) <= added[i].id < db.nextId
    ensures FanOut(added, Wanted(users, found), sender, g, mid, content, now)
    ensures Pushed(conns, added, pushes)
  {
    var pending := found;
    ghost var done: set<Id> := {};
    added, pushes := [], [];
    while pending != {}
      invariant db.Valid() && db.nextId >= old(db.nextId)
      invariant pending <= found && done == found - pending
      invariant forall i :: 0 <= i < |added| ==> old(db.nextId) <= added[i].id < db.nextId
      invariant FanOut(added, Wanted(users, done), sender, g, mid, content, now)
      invariant Pushed(conns, added, pushes)
      decreases |pending|
    {
      var r :| r in pending;
      if WantsNotifications(users[r]) {
        var n := NewMessageNotification(db, r, sender, g, mid, content, now);
        AddStep(users, done, r, added, sender, g, mid, content, now, n);
        PushedStep(conns, added, pushes, n);
        added := added + [n];
        pushes := pushes + [Delivery(RoomMembers(conns, UserRoom(r)), NotificationNew(n))];
      } else {
        SkipStep(users, done, r, added, sender, g, mid, content, now);
      }
      pending := pending - {r};
      done := done + {r};
    }
  }

  class Coordinator {
    /** The document store the handlers read and write. */
    const db: Database
    /** `jwt.verify` under the server secret: the tokens it accepts and the user id each decodes to. */
    const verify: map<string, Id>
    var connections: map<SocketId, Connection>
    var outbox: seq<Delivery>

    constructor (db: Database, verify: map<string, Id>)
      ensures this.db == db && this.verify == verify
      ensures connections == map[] && outbox == []
    {
      this.db := db;
      this.verify := verify;
      connections := map[];
      outbox := [];
    }

    /** The sockets in a room. */
    function InRoom(r: Room): set<SocketId>
      reads this
    {
      RoomMembers(connections, r)
    }

    /** The authentication middleware and the connection handler with `joinUserGroups`. */
    method Connect(sid: SocketId, token: string) returns (a: Admission)
      requires sid !in connections
      modifies this
      ensures a.Refused? ==> connections == old(connections) && outbox == old(outbox)
      ensures token == "" ==> a == Refused("Authentication error")
      ensures token != "" && token !in verify ==> a == Refused("Authentication error")
      ensures token != "" && token in verify && verify[token] !in db.users ==> a == Refused("User not found")
      ensures a.Admitted? <==> token != "" && token in verify && verify[token] in db.users
      ensures a.Admitted? ==>
        var u := verify[token];
        var gs := GroupsOf(db.groups, u);
        connections == old(connections)[sid := Connection(db.users[u], InitialRooms(db.groups, u))]
        && outbox == old(outbox) + [Delivery({sid}, GroupsJoined(map g | g in gs :: db.groups[g].name, |gs|, UnreadNotifications(db.notifications, u)))]
    {
      if token == "" || token !in verify {
        return Refused("Authentication error");
      }
      var u := verify[token];
      if u !in db.users {
        return Refused("User not found");
      }
      var gs := GroupsOf(db.groups, u);
      connections := connections[sid := Connection(db.users[u], InitialRooms(db.groups, u))];
      outbox := outbox + [Delivery({sid}, GroupsJoined(map g | g in gs :: db.groups[g].name, |gs|, UnreadNotifications(db.notifications, u)))];
      a := Admitted;
    }

    /** `message:send` with `{groupId, content, attachments, tempId}`; `tempId` is not read. */
    method SendMessage(sid: SocketId, groupId: Id, content: string, attachments: Option<seq<Attachment>>, tempId: Option<string>, now: int)
      requires sid in connections && db.Valid()
      modifies this`outbox, db`messages, db`notifications, db`nextId
      ensures db.Valid() && connections == old(connections)
      ensures db.users == old(db.users) && db.groups == old(db.groups)
      ensures var u := old(connections)[sid].user.id;
        groupId !in old(db.groups) || !Listed(old(db.groups)[groupId].members, u) ==>
          db.messages == old(db.messages) && db.notifications == old(db.notifications)
          && outbox == old(outbox) + [Delivery({sid}, ErrorEvent(
               if groupId !in old(db.groups) then "Group not found" else "Not a member of this group"))]
      ensures var u := old(connections)[sid].user.id;
        groupId in old(db.groups) && Listed(old(db.groups)[groupId].members, u) && TrimmedRequired(content).None? ==>
          db.messages == old(db.messages) && db.notifications == old(db.notifications)
          && outbox == old(outbox) + [Delivery({sid}, ErrorEvent("Failed to send message"))]
      ensures var u := old(connections)[sid].user.id;
        groupId in old(db.groups) && Listed(old(db.groups)[groupId].members, u) && TrimmedRequired(content).Some? ==>
          |db.messages| == |old(db.messages)| + 1 && db.messages[..|old(db.messages)|] == old(db.messages)
          && var m := db.messages[|old(db.messages)|];
             m == MessageDoc(m.id, groupId, u, TrimmedRequired(content).value, if attachments.Some? then attachments.value else [],
                             [Receipt(u, now)], false, [], false, now)
             && (forall i :: 0 <= i < |old(db.messages)| ==> old(db.messages)[i].id != m.id)
             && |db.notifications| >= |old(db.notifications)|
             && db.notifications[..|old(db.notifications)|] == old(db.notifications)
             && var added := db.notifications[|old(db.notifications)|..];
                FanOut(added, NotifyTargets(db.users, db.groups[groupId].members, u), u, groupId, m.id, content, now)
                && |outbox| == |old(outbox)| + 2 + |added|
                && outbox[..|old(outbox)|] == old(outbox)
                && outbox[|old(outbox)|] == Delivery(InRoom(GroupRoom(groupId)) - {sid}, MessageReceived(m))
                && outbox[|old(outbox)| + 1] == Delivery({sid}, MessageSent(m))
                && Pushed(connections, added, outbox[|old(outbox)| + 2..])
    {
      var sender := connections[sid].user.id;
      if groupId !in db.groups {
        outbox := outbox + [Delivery({sid}, ErrorEvent("Group not found"))];
        return;
      }
      var group := db.groups[groupId];
      if !Listed(group.members, sender) {
        outbox := outbox + [Delivery({sid}, ErrorEvent("Not a member of this group"))];
        return;
      }
      var stored := TrimmedRequired(content);
      if stored.None? {
        outbox := outbox + [Delivery({sid}, ErrorEvent("Failed to send message"))];
        return;
      }
      assert group.id == groupId;
      Post(sid, group, sender, stored.value, if attachments.Some? then attachments.value else [], content, now);
    }

    /** The success path of `message:send`: the message is stored with the content the
        schema kept, echoed to the room and to the sender, and the members are notified
        with the content as sent. */
    method Post(sid: SocketId, group: GroupDoc, sender: Id, stored: string, attachments: seq<Attachment>, content: string, now: int)
      requires sid in connections && db.Valid()
      modifies this`outbox, db`messages, db`notifications, db`nextId
      ensures db.Valid() && connections == old(connections)
      ensures db.users == old(db.users) && db.groups == old(db.groups)
      ensures |db.messages| == |old(db.messages)| + 1 && db.messages[..|old(db.messages)|] == old(db.messages)
      ensures var m := db.messages[|old(db.messages)|];
        m == MessageDoc(m.id, group.id, sender, stored, attachments, [Receipt(sender, now)], false, [], false, now)
        && (forall i :: 0 <= i < |old(db.messages)| ==> old(db.messages)[i].id != m.id)
        && |db.notifications| >= |old(db.notifications)|
        && db.notifications[..|old(db.notifications)|] == old(db.notifications)
        && var added := db.notifications[|old(db.notifications)|..];
           FanOut(added, NotifyTargets(db.users, group.members, sender), sender, group.id, m.id, content, now)
           && |outbox| == |old(outbox)| + 2 + |added|
           && outbox[..|old(outbox)|] == old(outbox)
           && outbox[|old(outbox)|] == Delivery(InRoom(GroupRoom(group.id)) - {sid}, MessageReceived(m))
           && outbox[|old(outbox)| + 1] == Delivery({sid}, MessageSent(m))
           && Pushed(connections, added, outbox[|old(outbox)| + 2..])
    {
      var mid := db.FreshId();
      var m := MessageDoc(mid, group.id, sender, stored, attachments, [Receipt(sender, now)], false, [], false, now);
      db.InsertMessage(m);
      outbox := outbox + [Delivery(InRoom(GroupRoom(group.id)) - {sid}, MessageReceived(m)), Delivery({sid}, MessageSent(m))];
      NotifyMembers(group, sender, m.id, content, now);
    }

    /** The notification fan-out of `message:send`: every found member whose
        preferences allow it gets one message notification, pushed to their user room. */
    method NotifyMembers(group: GroupDoc, sender: Id, mid: Id, content: string, now: int)
      requires db.Valid()
      modifies this`outbox, db`messages, db`notifications, db`nextId
      ensures db.Valid() && connections == old(connections)
      ensures db.users == old(db.users) && db.groups == old(db.groups) && db.messages == old(db.messages)
      ensures |db.notifications| >= |old(db.notifications)|
      ensures db.notifications[..|old(db.notifications)|] == old(db.notifications)
      ensures FanOut(db.notifications[|old(db.notifications)|..], NotifyTargets(db.users, group.members, sender), sender, group.id, mid, content, now)
      ensures |outbox| >= |old(outbox)| && outbox[..|old(outbox)|] == old(outbox)
      ensures Pushed(connections, db.notifications[|old(db.notifications)|..], outbox[|old(outbox)|..])
    {
      var users := db.users;
      var found := FoundMembers(users, group.members, sender);
      var added, pushes := CreateNotifications(db, connections, users, found, sender, group.id, mid, content, now);
      assert Wanted(users, found) == NotifyTargets(users, group.members, sender);
      db.InsertNotifications(added);
      outbox := outbox + pushes;
      assert db.notifications[|old(db.notifications)|..] == added;
      assert outbox[|old(outbox)|..] == pushes;
    }

    /** `typing:start` with `{groupId}`: relayed to the group room without the sender's socket. */
    method TypingStart(sid: SocketId, groupId: Id)
      requires sid in connections
      modifies this
      ensures connections == old(connections)
      ensures outbox == old(outbox) + [Delivery(InRoom(GroupRoom(groupId)) - {sid}, TypingStarted(Card(connections[sid].user), groupId))]
    {
      outbox := outbox + [Delivery(InRoom(GroupRoom(groupId)) - {sid}, TypingStarted(Card(connections[sid].user), groupId))];
    }

    /** `typing:stop` with `{groupId}` */
    method TypingStop(sid: SocketId, groupId: Id)
      requires sid in connections
      modifies this
      ensures connections == old(connections)
      ensures outbox == old(outbox) + [Delivery(InRoom(GroupRoom(groupId)) - {sid}, TypingStopped(Card(connections[sid].user), groupId))]
    {
      outbox := outbox + [Delivery(InRoom(GroupRoom(groupId)) - {sid}, TypingStopped(Card(connections[sid].user), groupId))];
    }

    /** `message:read` with `{messageId}` */
    method MessageRead(sid: SocketId, messageId: Id, now: int)
      requires sid in connections && db.Valid()
      modifies this, db
      ensures db.Valid() && connections == old(connections)
      ensures db.users == old(db.users) && db.groups == old(db.groups) && db.notifications == old(db.notifications)
      ensures db.nextId == old(db.nextId)
      ensures var k := MessageIndex(old(db.messages), messageId);
        k == -1 ==> db.messages == old(db.messages) && outbox == old(outbox) + [Delivery({sid}, ErrorEvent("Message not found"))]
      ensures var k := MessageIndex(old(db.messages), messageId); var u := connections[sid].user;
        k >= 0 ==>
          var m := old(db.messages)[k];
          db.messages == old(db.messages)[k := m.(readBy := WithReader(m.readBy, u.id, now))]
          && outbox == old(outbox) + [Delivery(InRoom(UserRoom(m.sender)) - {sid}, ReadReceipt(messageId, Card(u), m.group))]
    {
      var k := MessageIndex(db.messages, messageId);
      if k == -1 {
        outbox := outbox + [Delivery({sid}, ErrorEvent("Message not found"))];
        return;
      }
      var u := connections[sid].user;
      var msg := new Message.Load(db.messages[k]);
      msg.MarkAsRead(u.id, now);
      db.SaveMessage(k, msg.Doc());
      outbox := outbox + [Delivery(InRoom(UserRoom(msg.sender)) - {sid}, ReadReceipt(messageId, Card(u), msg.group))];
    }

    /** `notification:read` with `{notificationId}` */
    method NotificationRead(sid: SocketId, notificationId: Id, now: int)
      requires sid in connections && db.Valid()
      modifies this, db
      ensures db.Valid() && connections == old(connections)
      ensures db.users == old(db.users) && db.groups == old(db.groups) && db.messages == old(db.messages)
      ensures db.nextId == old(db.nextId)
      ensures var k := NotificationIndex(old(db.notifications), notificationId); var u := connections[sid].user.id;
        if k == -1 then
          db.notifications == old(db.notifications) && outbox == old(outbox) + [Delivery({sid}, ErrorEvent("Notification not found"))]
        else if old(db.notifications)[k].recipient != u then
          db.notifications == old(db.notifications)
          && outbox == old(outbox) + [Delivery({sid}, ErrorEvent("Not authorized to mark this notification as read"))]
        else
          db.notifications == old(db.notifications)[k := MarkedRead(old(db.notifications)[k], now)]
          && outbox == old(outbox) + [Delivery({sid}, UnreadCountEvent(UnreadNotifications(db.notifications, u)))]
    {
      var k := NotificationIndex(db.notifications, notificationId);
      if k == -1 {
        outbox := outbox + [Delivery({sid}, ErrorEvent("Notification not found"))];
        return;
      }
      var u := connections[sid].user.id;
      if db.notifications[k].recipient != u {
        outbox := outbox + [Delivery({sid}, ErrorEvent("Not authorized to mark this notification as read"))];
        return;
      }
      var n := new Notification.Load(db.notifications[k]);
      n.MarkAsRead(now);
      db.SaveNotification(k, n.doc);
      outbox := outbox + [Delivery({sid}, UnreadCountEvent(UnreadNotifications(db.notifications, u)))];
    }

    /** The common tail of a successful `group:join` or `group:leave`: store the
        updated group, move the socket into or out of the group room, record the
        owner's notification and emit the three events in the handler's order. */
    method Announce(sid: SocketId, grp: GroupDoc, updated: GroupDoc, joined: bool, now: int)
      requires sid in connections && db.Valid() && grp.id in db.groups && updated.id == grp.id
      modifies this`connections, this`outbox, db`groups, db`notifications, db`nextId
      ensures db.Valid()
      ensures db.users == old(db.users) && db.messages == old(db.messages)
      ensures db.groups == old(db.groups)[grp.id := updated]
      ensures var c := old(connections)[sid];
        connections == old(connections)[sid := c.(rooms := if joined then c.rooms + {GroupRoom(grp.id)} else c.rooms - {GroupRoom(grp.id)})]
      ensures |db.notifications| == |old(db.notifications)| + 1
      ensures db.notifications[..|old(db.notifications)|] == old(db.notifications)
      ensures var c := old(connections)[sid];
        var n := db.notifications[|old(db.notifications)|];
        n == MembershipNotification(n.id, c.user, grp, joined, now)
        && outbox == old(outbox) + [
             Delivery({sid}, if joined then GroupJoined(grp.id, grp.name) else GroupLeft(grp.id, grp.name)),
             Delivery(InRoom(GroupRoom(grp.id)) - {sid},
                      if joined then MemberJoined(grp.id, Card(c.user), c.user.profileImage) else MemberLeft(grp.id, Card(c.user))),
             Delivery(InRoom(UserRoom(grp.owner)),
                      MembershipNotice(if joined then GroupJoin else GroupLeave, n.title, n.content, grp.id))]
    {
      var c := connections[sid];
      db.SaveGroup(updated);
      var rooms := if joined then c.rooms + {GroupRoom(grp.id)} else c.rooms - {GroupRoom(grp.id)};
      connections := connections[sid := c.(rooms := rooms)];
      var nid := db.FreshId();
      var n := MembershipNotification(nid, c.user, grp, joined, now);
      db.InsertNotifications([n]);
      var mine := if joined then GroupJoined(grp.id, grp.name) else GroupLeft(grp.id, grp.name);
      var theirs := if joined then MemberJoined(grp.id, Card(c.user), c.user.profileImage) else MemberLeft(grp.id, Card(c.user));
      outbox := outbox + [
        Delivery({sid}, mine),
        Delivery(InRoom(GroupRoom(grp.id)) - {sid}, theirs),
        Delivery(InRoom(UserRoom(grp.owner)), MembershipNotice(n.kind, n.title, n.content, grp.id))];
    }

    /** `group:join` with `{groupId}` */
    method JoinGroup(sid: SocketId, groupId: Id, now: int)
      requires sid in connections && db.Valid()
      modifies this`connections, this`outbox, db`groups, db`notifications, db`nextId
      ensures db.Valid()
      ensures db.users == old(db.users) && db.messages == old(db.messages)
      ensures groupId !in old(db.groups) ==>
        connections == old(connections) && db.groups == old(db.groups) && db.notifications == old(db.notifications)
        && outbox == old(outbox) + [Delivery({sid}, ErrorEvent("Group not found"))]
      ensures var c := old(connections)[sid];
        groupId in old(db.groups) ==>
          connections == old(connections)[sid := c.(rooms := c.rooms + {GroupRoom(groupId)})]
          && |outbox| > |old(outbox)| && outbox[..|old(outbox)|] == old(outbox)
          && outbox[|old(outbox)|] == Delivery({sid}, GroupJoined(groupId, old(db.groups)[groupId].name))
      ensures var c := old(connections)[sid];
        groupId in old(db.groups) && Listed(old(db.groups)[groupId].members, c.user.id) ==>
          db.groups == old(db.groups) && db.notifications == old(db.notifications)
          && |outbox| == |old(outbox)| + 1
      ensures var c := old(connections)[sid];
        groupId in old(db.groups) && !Listed(old(db.groups)[groupId].members, c.user.id) ==>
          var grp := old(db.groups)[groupId];
          db.groups == old(db.groups)[groupId := grp.(members := grp.members + [Member(c.user.id, "member", now)])]
          && |db.notifications| == |old(db.notifications)| + 1
          && db.notifications[..|old(db.notifications)|] == old(db.notifications)
          && var n := db.notifications[|old(db.notifications)|];
             n == MembershipNotification(n.id, c.user, grp, true, now)
             && outbox == old(outbox) + [
                  Delivery({sid}, GroupJoined(groupId, grp.name)),
                  Delivery(InRoom(GroupRoom(groupId)) - {sid}, MemberJoined(groupId, Card(c.user), c.user.profileImage)),
                  Delivery(InRoom(UserRoom(grp.owner)), MembershipNotice(GroupJoin, n.title, n.content, groupId))]
    {
      if groupId !in db.groups {
        outbox := outbox + [Delivery({sid}, ErrorEvent("Group not found"))];
        return;
      }
      var c := connections[sid];
      var grp := db.groups[groupId];
      var g := new Group.Load(grp);
      if g.IsMember(c.user.id) {
        connections := connections[sid := c.(rooms := c.rooms + {GroupRoom(groupId)})];
        outbox := outbox + [Delivery({sid}, GroupJoined(groupId, g.name))];
        return;
      }
      g.AddMember(c.user.id, "member", now);
      Announce(sid, grp, g.Doc(), true, now);
    }

    /** `group:leave` with `{groupId}` */
    method LeaveGroup(sid: SocketId, groupId: Id, now: int)
      requires sid in connections && db.Valid()
      modifies this`connections, this`outbox, db`groups, db`notifications, db`nextId
      ensures db.Valid()
      ensures db.users == old(db.users) && db.messages == old(db.messages)
      ensures var c := old(connections)[sid];
        var refusal :=
          if groupId !in old(db.groups) then Some("Group not found")
          else if !Listed(old(db.groups)[groupId].members, c.user.id) then Some("Not a member of this group")
          else if old(db.groups)[groupId].owner == c.user.id then Some("Owner cannot leave group")
          else None;
        refusal.Some? ==>
          connections == old(connections) && db.groups == old(db.groups) && db.notifications == old(db.notifications)
          && outbox == old(outbox) + [Delivery({sid}, ErrorEvent(refusal.value))]
      ensures var c := old(connections)[sid];
        groupId in old(db.groups) && Listed(old(db.groups)[groupId].members, c.user.id) && old(db.groups)[groupId].owner != c.user.id ==>
          var grp := old(db.groups)[groupId];
          db.groups == old(db.groups)[groupId := grp.(members := Without(grp.members, c.user.id))]
          && connections == old(connections)[sid := c.(rooms := c.rooms - {GroupRoom(groupId)})]
          && |db.notifications| == |old(db.notifications)| + 1
          && db.notifications[..|old(db.notifications)|] == old(db.notifications)
          && var n := db.notifications[|old(db.notifications)|];
             n == MembershipNotification(n.id, c.user, grp, false, now)
             && outbox == old(outbox) + [
                  Delivery({sid}, GroupLeft(groupId, grp.name)),
                  Delivery(InRoom(GroupRoom(groupId)) - {sid}, MemberLeft(groupId, Card(c.user))),
                  Delivery(InRoom(UserRoom(grp.owner)), MembershipNotice(GroupLeave, n.title, n.content, groupId))]
    {
      if groupId !in db.groups {
        outbox := outbox + [Delivery({sid}, ErrorEvent("Group not found"))];
        return;
      }
      var c := connections[sid];
      var grp := db.groups[groupId];
      var g := new Group.Load(grp);
      if !g.IsMember(c.user.id) {
        outbox := outbox + [Delivery({sid}, ErrorEvent("Not a member of this group"))];
        return;
      }
      if g.owner == c.user.id {
        outbox := outbox + [Delivery({sid}, ErrorEvent("Owner cannot leave group"))];
        return;
      }
      g.RemoveMember(c.user.id);
      Announce(sid, grp, g.Doc(), false, now);
    }

    /** Socket.IO's own teardown of a closed socket; the application's `disconnect`
        handler only logs, so no event is emitted and no stored document changes. */
    method Disconnect(sid: SocketId)
      requires sid in connections
      modifies this
      ensures connections == old(connections) - {sid}
      ensures outbox == old(outbox)
    {
      connections := connections - {sid};
    }
  }

  // ---------------------------------------------------------------------
  // Properties of the fan-out

  lemma RecipientsAppend(ns: seq<NotificationDoc>, n: NotificationDoc)
    ensures RecipientsOf(ns + [n]) == RecipientsOf(ns) + {n.recipient}
  {
    var r := ns + [n];
    assert r[|ns|] == n;
    forall v | v in RecipientsOf(ns) ensures v in RecipientsOf(r) {
      var i :| 0 <= i < |ns| && ns[i].recipient == v;
      assert r[i] == ns[i];
    }
  }

  /** One more notification for a user not yet notified keeps the fan-out shape. */
  lemma FanOutStep(added: seq<NotificationDoc>, targets: set<Id>, sender: Id, g: Id, m: Id, content: string, now: int, n: NotificationDoc)
    requires FanOut(added, targets, sender, g, m, content, now)
    requires n.recipient !in targets
    requires n == MessageNotification(n.id, n.recipient, sender, g, m, content, now)
    ensures FanOut(added + [n], targets + {n.recipient}, sender, g, m, content, now)
  {
    RecipientsAppend(added, n);
    var r := added + [n];
    forall i, j | 0 <= i < j < |r| ensures r[i].recipient != r[j].recipient {
      if j == |added| {
        assert r[i].recipient in RecipientsOf(added);
      }
    }
  }

  lemma PushedStep(conns: map<SocketId, Connection>, ns: seq<NotificationDoc>, ds: seq<Delivery>, n: NotificationDoc)
    requires Pushed(conns, ns, ds)
    ensures Pushed(conns, ns + [n], ds + [Delivery(RoomMembers(conns, UserRoom(n.recipient)), NotificationNew(n))])
  {
  }

  /** A member who asked for no notifications is passed over. */
  lemma SkipStep(users: map<Id, UserDoc>, done: set<Id>, r: Id, added: seq<NotificationDoc>,
                 sender: Id, g: Id, m: Id, content: string, now: int)
    requires FanOut(added, Wanted(users, done), sender, g, m, content, now)
    requires r in users && !WantsNotifications(users[r])
    ensures FanOut(added, Wanted(users, done + {r}), sender, g, m, content, now)
  {
    assert Wanted(users, done + {r}) == Wanted(users, done);
  }

  /** A member not yet taken who wants notifications gets exactly one. */
  lemma AddStep(users: map<Id, UserDoc>, done: set<Id>, r: Id, added: seq<NotificationDoc>,
                sender: Id, g: Id, m: Id, content: string, now: int, n: NotificationDoc)
    requires FanOut(added, Wanted(users, done), sender, g, m, content, now)
    requires r in users && WantsNotifications(users[r]) && r !in done
    requires n == MessageNotification(n.id, r, sender, g, m, content, now)
    ensures FanOut(added + [n], Wanted(users, done + {r}), sender, g, m, content, now)
  {
    assert Wanted(users, done + {r}) == Wanted(users, done) + {r};
    FanOutStep(added, Wanted(users, done), sender, g, m, content, now, n);
  }

  /** Notifications with pairwise distinct recipients number exactly as many as their recipients. */
  lemma {:induction false} DistinctRecipientsCount(ns: seq<NotificationDoc>)
    requires DistinctRecipients(ns)
    ensures |RecipientsOf(ns)| == |ns|
    decreases |ns|
  {
    if ns != [] {
      var init := ns[..|ns| - 1];
      var last := ns[|ns| - 1];
      assert ns == init + [last];
      DistinctRecipientsCount(init);
      RecipientsAppend(init, last);
    }
  }

  /** message:send creates exactly one notification per target: as many notifications as
      targets, and each target is the recipient of exactly one of them. */
  lemma FanOutExactlyOnce(added: seq<NotificationDoc>, targets: set<Id>, sender: Id, g: Id, m: Id, content: string, now: int, v: Id)
    requires FanOut(added, targets, sender, g, m, content, now)
    ensures |added| == |targets|
    ensures v in targets ==> exists i :: 0 <= i < |added| && added[i].recipient == v
    ensures forall i, j :: 0 <= i < |added| && 0 <= j < |added| && added[i].recipient == added[j].recipient ==> i == j
  {
    DistinctRecipientsCount(added);
    if v in targets {
      assert v in RecipientsOf(added);
    }
  }

  /** The sender is never notified of their own message, and neither is a user
      who asked for no notifications or who is not listed in the group (the owner
      included, when the owner has no member entry). */
  lemma NotifyTargetsExclude(users: map<Id, UserDoc>, members: seq<Member>, sender: Id, v: Id)
    ensures v in NotifyTargets(users, members, sender) <==>
      v in users && Listed(members, v) && v != sender && WantsNotifications(users[v])
  {
  }
}
