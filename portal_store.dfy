/** The document store of the academy portal (the routes at the repository root): users
    awaiting approval, conversations with their participants, and conversation messages
    with reactions and reader lists. Messages are kept in creation order, which is
    their `createdAt` order. */
module PortalStore {
  import opened Common

  datatype NotificationSettings = NotificationSettings(email: bool, push: bool, sms: bool)

  datatype PortalUser = PortalUser(
    id: Id,
    name: string,
    email: string,
    password: Digest,
    phoneNumber: string,
    childName: Option<string>,
    address: Option<string>,
    shirtSize: Option<string>,
    role: string,
    accountStatus: string,
    approvalStatus: string,
    profileImage: string,
    notificationSettings: NotificationSettings)

  /** A user as the routes answer with it (`select('-password')`): every field but the password. */
  datatype PortalUserView = PortalUserView(
    id: Id,
    name: string,
    email: string,
    phoneNumber: string,
    childName: Option<string>,
    address: Option<string>,
    shirtSize: Option<string>,
    role: string,
    accountStatus: string,
    approvalStatus: string,
    profileImage: string,
    notificationSettings: NotificationSettings)

  function View(u: PortalUser): (v: PortalUserView)
    ensures v.id == u.id && v.email == u.email && v.approvalStatus == u.approvalStatus && v.accountStatus == u.accountStatus
  {
    PortalUserView(u.id, u.name, u.email, u.phoneNumber, u.childName, u.address, u.shirtSize, u.role, u.accountStatus,
      u.approvalStatus, u.profileImage, u.notificationSettings)
  }

  datatype Participant = Participant(user: Id, isAdmin: bool, isMuted: bool, isActive: bool, joinedAt: int)

  datatype ConversationDoc = ConversationDoc(
    id: Id,
    name: string,
    kind: string,
    description: Option<string>,
    team: Option<Id>,
    participants: seq<Participant>,
    canSendMessages: string,
    createdBy: Id,
    lastMessage: Option<Id>,
    lastMessageAt: Option<int>)

  datatype Reaction = Reaction(user: Id, reaction: string, createdAt: int)

  datatype PortalMessage = PortalMessage(
    id: Id,
    conversation: Id,
    sender: Id,
    content: string,
    kind: string,
    mediaUrl: Option<string>,
    mediaName: Option<string>,
    mediaSize: Option<int>,
    reactions: seq<Reaction>,
    readBy: seq<Id>,
    isEdited: bool,
    createdAt: int,
    mentions: seq<string>)

  /** The first participant entry of `u` that is active: `participants.find(p => p.user == u && p.isActive)`. */
  function ActiveEntry(ps: seq<Participant>, u: Id): (k: int)
    ensures -1 <= k < |ps|
    ensures k >= 0 ==> ps[k].user == u && ps[k].isActive
    ensures k >= 0 ==> forall j :: 0 <= j < k ==> !(ps[j].user == u && ps[j].isActive)
    ensures k == -1 <==> forall j :: 0 <= j < |ps| ==> !(ps[j].user == u && ps[j].isActive)
  {
    if ps == [] then -1
    else if ps[0].user == u && ps[0].isActive then 0
    else
      var k := ActiveEntry(ps[1..], u);
      assert forall j :: 0 < j < |ps| ==> ps[j] == ps[1..][j - 1];
      if k == -1 then -1 else k + 1
  }

  /** A file accepted by the upload middleware: its MIME type, the stored file name, the
      client's file name and the size in bytes. */
  datatype Upload = Upload(mimetype: string, filename: string, originalname: string, size: nat)

  /** Position of the user with id `id` in the store, or -1 (`User.findById`). */
  function UserIndex(us: seq<PortalUser>, id: Id): (k: int)
    ensures -1 <= k < |us|
    ensures k >= 0 ==> us[k].id == id
    ensures k == -1 <==> forall j :: 0 <= j < |us| ==> us[j].id != id
  {
    if us == [] then -1
    else if us[0].id == id then 0
    else
      var k := UserIndex(us[1..], id);
      assert forall j :: 0 < j < |us| ==> us[j] == us[1..][j - 1];
      if k == -1 then -1 else k + 1
  }

  /** Position of the first user whose stored email is `e`, or -1. */
  function StoredEmailIndex(us: seq<PortalUser>, e: string): (k: int)
    ensures -1 <= k < |us|
    ensures k >= 0 ==> us[k].email == e
    ensures k >= 0 ==> forall j :: 0 <= j < k ==> us[j].email != e
    ensures k == -1 <==> forall j :: 0 <= j < |us| ==> us[j].email != e
  {
    if us == [] then -1
    else if us[0].email == e then 0
    else
      var k := StoredEmailIndex(us[1..], e);
      assert forall j :: 0 < j < |us| ==> us[j] == us[1..][j - 1];
      if k == -1 then -1 else k + 1
  }

  /** `User.findOne({email})`: the schema's email path is `lowercase` and `trim`, so the
      filter value is normalised before the query runs; the position of the first user
      whose stored email is the normalised address, or -1. */
  function EmailIndex(us: seq<PortalUser>, email: string): (k: int)
    ensures -1 <= k < |us|
    ensures k >= 0 ==> us[k].email == NormalEmail(email)
    ensures k >= 0 ==> forall j :: 0 <= j < k ==> us[j].email != NormalEmail(email)
    ensures k == -1 <==> forall j :: 0 <= j < |us| ==> us[j].email != NormalEmail(email)
  {
    StoredEmailIndex(us, NormalEmail(email))
  }

  /** Users lists with the same emails, position by position, answer every lookup alike. */
  lemma {:induction false} StoredEmailIndexSameEmails(us: seq<PortalUser>, vs: seq<PortalUser>, e: string)
    requires |us| == |vs| && forall j :: 0 <= j < |us| ==> us[j].email == vs[j].email
    ensures StoredEmailIndex(us, e) == StoredEmailIndex(vs, e)
    decreases |us|
  {
    if us != [] {
      StoredEmailIndexSameEmails(us[1..], vs[1..], e);
    }
  }

  /** Replacing a user by one with the same email keeps every email lookup. */
  lemma EmailIndexAfterUpdate(us: seq<PortalUser>, k: nat, v: PortalUser, email: string)
    requires k < |us| && v.email == us[k].email
    ensures EmailIndex(us[k := v], email) == EmailIndex(us, email)
  {
    var vs := us[k := v];
    forall j | 0 <= j < |us|
      ensures us[j].email == vs[j].email
    {
      if j != k {
        assert vs[j] == us[j];
      }
    }
    StoredEmailIndexSameEmails(us, vs, NormalEmail(email));
  }

  /** A user appended under a stored email no one holds is the one that email finds. */
  lemma StoredEmailIndexAppend(us: seq<PortalUser>, u: PortalUser, e: string)
    requires StoredEmailIndex(us, e) == -1 && u.email == e
    ensures StoredEmailIndex(us + [u], e) == |us|
  {
    var vs := us + [u];
    assert vs[|us|].email == e;
    assert forall j :: 0 <= j < |us| ==> vs[j] == us[j];
  }

  /** A user appended under an address no one holds is the one that address finds. */
  lemma EmailIndexAppend(us: seq<PortalUser>, u: PortalUser, email: string)
    requires EmailIndex(us, email) == -1 && u.email == NormalEmail(email)
    ensures EmailIndex(us + [u], email) == |us|
  {
    StoredEmailIndexAppend(us, u, NormalEmail(email));
  }

  /** Position of the message with id `id` in the store, or -1. */
  function PortalMessageIndex(ms: seq<PortalMessage>, id: Id): (k: int)
    ensures -1 <= k < |ms|
    ensures k >= 0 ==> ms[k].id == id
    ensures k == -1 <==> forall j :: 0 <= j < |ms| ==> ms[j].id != id
  {
    if ms == [] then -1
    else if ms[0].id == id then 0
    else
      var k := PortalMessageIndex(ms[1..], id);
      assert forall j :: 0 < j < |ms| ==> ms[j] == ms[1..][j - 1];
      if k == -1 then -1 else k + 1
  }

  class PortalDb {
    var users: seq<PortalUser>
    var conversations: map<Id, ConversationDoc>
    var messages: seq<PortalMessage>
    var nextId: Id

    /** Every stored document is filed under its own id, every id in use is below
        `nextId`, and no two users and no two messages share an id. */
    ghost predicate Valid()
      reads this
    {
      (forall i :: 0 <= i < |users| ==> users[i].id < nextId)
      && (forall i, j :: 0 <= i < j < |users| ==> users[i].id != users[j].id)
      && (forall c :: c in conversations ==> conversations[c].id == c && c < nextId)
      && (forall i :: 0 <= i < |messages| ==> messages[i].id < nextId)
      && (forall i, j :: 0 <= i < j < |messages| ==> messages[i].id != messages[j].id)
    }

    constructor Empty()
      ensures Valid()
      ensures users == [] && conversations == map[] && messages == [] && nextId == 0
    {
      users, conversations, messages, nextId := [], map[], [], 0;
    }

    /** A fresh ObjectId, different from every id in use. */
    method FreshId() returns (id: Id)
      requires Valid()
      modifies this`nextId
      ensures Valid()
      ensures id == old(nextId) && nextId == id + 1
      ensures id !in conversations
      ensures forall i :: 0 <= i < |users| ==> users[i].id != id
      ensures forall i :: 0 <= i < |messages| ==> messages[i].id != id
    {
      id := nextId;
      nextId := nextId + 1;
    }

    /** `user.save()` of a new user whose id was drawn from `FreshId`. */
    method InsertUser(u: PortalUser)
      requires Valid() && u.id < nextId && forall i :: 0 <= i < |users| ==> users[i].id != u.id
      modifies this`users
      ensures Valid()
      ensures users == old(users) + [u]
    {
      users := users + [u];
    }

    /** `user.save()` of the user stored at position `k`. */
    method SaveUser(k: nat, u: PortalUser)
      requires Valid() && k < |users| && u.id == users[k].id
      modifies this`users
      ensures Valid()
      ensures users == old(users)[k := u]
    {
      users := users[k := u];
    }

    /** `conversation.save()` of a new or stored conversation. */
    method SaveConversation(c: ConversationDoc)
      requires Valid() && c.id < nextId
      modifies this`conversations
      ensures Valid()
      ensures conversations == old(conversations)[c.id := c]
    {
      conversations := conversations[c.id := c];
    }

    /** `newMessage.save()` of a message whose id was drawn from `FreshId`. */
    method InsertMessage(m: PortalMessage)
      requires Valid() && m.id < nextId && forall i :: 0 <= i < |messages| ==> messages[i].id != m.id
      modifies this`messages
      ensures Valid()
      ensures messages == old(messages) + [m]
    {
      messages := messages + [m];
    }

    /** `message.save()` of the message stored at position `k`. */
    method SaveMessage(k: nat, m: PortalMessage)
      requires Valid() && k < |messages| && m.id == messages[k].id
      modifies this`messages
      ensures Valid()
      ensures messages == old(messages)[k := m]
    {
      messages := messages[k := m];
    }

    /** The `save()` of several loaded messages: every message keeps its id and place. */
    method SaveMessages(ms: seq<PortalMessage>)
      requires Valid() && |ms| == |messages| && forall i :: 0 <= i < |ms| ==> ms[i].id == messages[i].id
      modifies this`messages
      ensures Valid()
      ensures messages == ms
    {
      messages := ms;
    }

    /** `message.remove()` of the message stored at position `k`. */
    method RemoveMessage(k: nat)
      requires Valid() && k < |messages|
      modifies this`messages
      ensures Valid()
      ensures messages == old(messages)[..k] + old(messages)[k + 1..]
    {
      messages := messages[..k] + messages[k + 1..];
    }
  }
}
