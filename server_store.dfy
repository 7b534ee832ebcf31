/** The document store of the messaging server: the users, groups, messages and
    notifications collections held in memory. Messages and notifications are kept
    in creation order, which is also their `createdAt` order; `nextId` hands out
    fresh ObjectIds. */
module ServerStore {
  import opened Common
  import opened GroupModel
  import opened MessageModel
  import opened NotificationModel

  datatype Preferences = Preferences(emailNotifications: Option<bool>, pushNotifications: Option<bool>, theme: Option<string>)

  /** A user document with the paths of the server's user schema; the password is
      stored as its bcrypt digest. */
  datatype UserDoc = UserDoc(
    id: Id,
    firstName: string,
    lastName: string,
    email: string,
    password: Digest,
    role: string,
    profileImage: string,
    preferences: Option<Preferences>,
    resetPasswordToken: Option<Digest>,
    resetPasswordExpire: Option<int>)

  /** `member.preferences?.emailNotifications !== false` */
  predicate WantsNotifications(u: UserDoc)
  {
    !(u.preferences.Some? && u.preferences.value.emailNotifications == Some(false))
  }

  class Database {
    var users: map<Id, UserDoc>
    var groups: map<Id, GroupDoc>
    var messages: seq<MessageDoc>
    var notifications: seq<NotificationDoc>
    var nextId: Id

    /** Every stored document is filed under its own id, and every id in use is below `nextId`. */
    ghost predicate Valid()
      reads this
    {
      (forall u :: u in users ==> users[u].id == u && u < nextId)
      && (forall g :: g in groups ==> groups[g].id == g && g < nextId)
      && (forall i :: 0 <= i < |messages| ==> messages[i].id < nextId)
      && (forall i :: 0 <= i < |notifications| ==> notifications[i].id < nextId)
    }

    constructor Empty()
      ensures Valid()
      ensures users == map[] && groups == map[] && messages == [] && notifications == [] && nextId == 0
    {
      users, groups, messages, notifications, nextId := map[], map[], [], [], 0;
    }

    /** A fresh ObjectId: different from every id in use. */
    method FreshId() returns (id: Id)
      requires Valid()
      modifies this`nextId
      ensures Valid()
      ensures id == old(nextId) && nextId == id + 1
      ensures id !in users && id !in groups
      ensures forall i :: 0 <= i < |messages| ==> messages[i].id != id
      ensures forall i :: 0 <= i < |notifications| ==> notifications[i].id != id
    {
      id := nextId;
      nextId := nextId + 1;
    }

    /** `User.create(...)` with an id drawn from `FreshId`. */
    method InsertUser(u: UserDoc)
      requires Valid() && u.id < nextId
      modifies this`users
      ensures Valid()
      ensures users == old(users)[u.id := u]
    {
      users := users[u.id := u];
    }

    /** `user.save()` or `findByIdAndUpdate` of a stored user. */
    method SaveUser(u: UserDoc)
      requires Valid() && u.id in users
      modifies this`users
      ensures Valid()
      ensures users == old(users)[u.id := u]
    {
      users := users[u.id := u];
    }

    /** `group.save()` of a loaded group: the stored document under its id is replaced. */
    method SaveGroup(doc: GroupDoc)
      requires Valid() && doc.id in groups
      modifies this`groups
      ensures Valid()
      ensures groups == old(groups)[doc.id := doc]
    {
      groups := groups[doc.id := doc];
    }

    /** `Group.create(...)` with an id drawn from `FreshId`. */
    method InsertGroup(doc: GroupDoc)
      requires Valid() && doc.id < nextId
      modifies this`groups
      ensures Valid()
      ensures groups == old(groups)[doc.id := doc]
    {
      groups := groups[doc.id := doc];
    }

    /** `group.deleteOne()` */
    method DeleteGroup(id: Id)
      requires Valid()
      modifies this`groups
      ensures Valid()
      ensures groups == old(groups) - {id}
    {
      groups := groups - {id};
    }

    /** `Message.create(...)` with an id drawn from `FreshId`. */
    method InsertMessage(m: MessageDoc)
      requires Valid() && m.id < nextId
      modifies this`messages
      ensures Valid()
      ensures messages == old(messages) + [m]
    {
      messages := messages + [m];
    }

    /** `message.save()` of the message stored at position `k`. */
    method SaveMessage(k: nat, m: MessageDoc)
      requires Valid() && k < |messages| && m.id == messages[k].id
      modifies this`messages
      ensures Valid()
      ensures messages == old(messages)[k := m]
    {
      messages := messages[k := m];
    }

    /** An `updateMany` over the messages: each document is rewritten in place, keeping its id. */
    method UpdateMessages(ms: seq<MessageDoc>)
      requires Valid() && |ms| == |messages|
      requires forall i :: 0 <= i < |ms| ==> ms[i].id == messages[i].id
      modifies this`messages
      ensures Valid()
      ensures messages == ms
    {
      messages := ms;
    }

    /** `Notification.create(...)` of notifications whose ids were drawn from `FreshId`. */
    method InsertNotifications(ns: seq<NotificationDoc>)
      requires Valid() && forall i :: 0 <= i < |ns| ==> ns[i].id < nextId
      modifies this`notifications
      ensures Valid()
      ensures notifications == old(notifications) + ns
    {
      notifications := notifications + ns;
    }

    /** `notification.save()` of the notification stored at position `k`. */
    method SaveNotification(k: nat, n: NotificationDoc)
      requires Valid() && k < |notifications| && n.id == notifications[k].id
      modifies this`notifications
      ensures Valid()
      ensures notifications == old(notifications)[k := n]
    {
      notifications := notifications[k := n];
    }
  }
}
