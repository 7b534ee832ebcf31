/** The conversation routes of the academy portal (routes/conversation.js): creating a
    conversation from a de-duplicated participant list with its opening system message, and
    the caller's conversation listing. `me` is the caller's id and `myName` the name the
    authentication middleware put on the request. */
module PortalConversations {
  import opened Common
  import opened PortalStore
  import PortalMessages

  // ---------------------------------------------------------------------
  // Creating a conversation

  /** `[...new Set(ids)]`: the ids without repeats, each at its first occurrence. */
  function Distinct(ids: seq<Id>): (r: seq<Id>)
    ensures forall i, j :: 0 <= i < j < |r| ==> r[i] != r[j]
    ensures forall x :: x in r <==> x in ids
    ensures |r| <= |ids|
  {
    if ids == [] then []
    else
      var init := ids[..|ids| - 1];
      var rest := Distinct(init);
      assert forall x :: x in ids <==> x in init || x == ids[|ids| - 1];
      if ids[|ids| - 1] in init then rest else rest + [ids[|ids| - 1]]
  }

  /** The order of first occurrences: appending an id already present changes nothing, and
      a new one goes last. */
  lemma DistinctAppend(ids: seq<Id>, x: Id)
    ensures x in ids ==> Distinct(ids + [x]) == Distinct(ids)
    ensures x !in ids ==> Distinct(ids + [x]) == Distinct(ids) + [x]
  {
    assert (ids + [x])[..|ids + [x]| - 1] == ids;
  }

  /** The conversation validators: a name, a known type and at least one participant. */
  function CreateErrors(name: string, kind: string, participants: Option<seq<Id>>): (errs: seq<string>)
    ensures errs == [] <==> name != "" && kind in {"team", "topic", "direct"} && participants.Some? && |participants.value| >= 1
  {
    (if name == "" then ["Name is required"] else [])
    + (if kind !in {"team", "topic", "direct"} then ["Invalid type"] else [])
    + (if participants.None? || |participants.value| < 1 then ["Participants are required"] else [])
  }

  /** A user that may join a conversation: approved and active. */
  predicate Eligible(us: seq<PortalUser>, id: Id)
  {
    UserIndex(us, id) != -1 && us[UserIndex(us, id)].approvalStatus == "approved" && us[UserIndex(us, id)].accountStatus == "active"
  }

  /** `User.find({_id: {$in: ids}, approvalStatus: 'approved', accountStatus: 'active'})` finds
      one user per id exactly when every id is eligible. */
  predicate AllEligible(us: seq<PortalUser>, ids: seq<Id>)
  {
    forall i :: 0 <= i < |ids| ==> Eligible(us, ids[i])
  }

  /** The participant entries: only the creator is an administrator of the conversation. */
  function Entries(ids: seq<Id>, me: Id, now: int): (ps: seq<Participant>)
    ensures |ps| == |ids|
    ensures forall i :: 0 <= i < |ids| ==> ps[i] == Participant(ids[i], ids[i] == me, false, true, now)
  {
    seq(|ids|, i requires 0 <= i < |ids| => Participant(ids[i], ids[i] == me, false, true, now))
  }

  /** `permissions.canSendMessages`, with the schema default. */
  function SendSetting(canSend: Option<string>): string
  {
    if canSend.Some? then canSend.value else "all"
  }

  /** The opening system message, read by the creator. */
  function SystemMessage(id: Id, conversation: Id, me: Id, myName: string, now: int): (m: PortalMessage)
    ensures m.kind == "system" && m.readBy == [me] && m.sender == me && m.conversation == conversation
    ensures m.content == myName + " created this conversation"
  {
    PortalMessage(id, conversation, me, myName + " created this conversation", "system", None, None, None, [], [me], false, now, [])
  }

  /** `POST /`. The conversation and then its system message draw their ids from the store. */
  method Create(db: PortalDb, me: Id, myName: string, name: string, kind: string, description: Option<string>, team: Option<Id>,
                participants: Option<seq<Id>>, canSend: Option<string>, now: int) returns (a: Answer<ConversationDoc>)
    requires db.Valid()
    modifies db`nextId, db`conversations, db`messages
    ensures db.Valid()
    ensures a.Failure? ==> db.conversations == old(db.conversations) && db.messages == old(db.messages)
    ensures var errs := CreateErrors(name, kind, participants);
      errs != [] ==> a == Failure(400, errs[0])
    ensures CreateErrors(name, kind, participants) == [] && !AllEligible(db.users, Distinct(participants.value + [me])) ==>
      a == Failure(400, "One or more participants are invalid")
    ensures (CreateErrors(name, kind, participants) == [] && AllEligible(db.users, Distinct(participants.value + [me]))
             && SendSetting(canSend) !in {"all", "admins", "specific"}) ==>
      a == Failure(500, "Internal server error")
    ensures (CreateErrors(name, kind, participants) == [] && AllEligible(db.users, Distinct(participants.value + [me]))
             && SendSetting(canSend) in {"all", "admins", "specific"}) ==>
      var cid, mid := old(db.nextId), old(db.nextId) + 1;
      var c := ConversationDoc(cid, name, kind, description, team, Entries(Distinct(participants.value + [me]), me, now),
                               SendSetting(canSend), me, Some(mid), Some(now));
      a == Success(201, c) && db.conversations == old(db.conversations)[cid := c]
      && db.messages == old(db.messages) + [SystemMessage(mid, cid, me, myName, now)]
  {
    var errs := CreateErrors(name, kind, participants);
    if errs != [] {
      return Failure(400, errs[0]);
    }
    var ids := Distinct(participants.value + [me]);
    if !AllEligible(db.users, ids) {
      return Failure(400, "One or more participants are invalid");
    }
    if SendSetting(canSend) !in {"all", "admins", "specific"} {
      return Failure(500, "Internal server error");
    }
    var c := Open(db, me, myName, name, kind, description, team, ids, SendSetting(canSend), now);
    a := Success(201, c);
  }

  /** The store updates of a successful `POST /`: the conversation is saved, then its system
      message, then the conversation again with the message as its last one; only the final
      documents are observable here. */
  method Open(db: PortalDb, me: Id, myName: string, name: string, kind: string, description: Option<string>, team: Option<Id>,
              ids: seq<Id>, setting: string, now: int) returns (c: ConversationDoc)
    requires db.Valid()
    modifies db`nextId, db`conversations, db`messages
    ensures db.Valid()
    ensures var cid, mid := old(db.nextId), old(db.nextId) + 1;
      c == ConversationDoc(cid, name, kind, description, team, Entries(ids, me, now), setting, me, Some(mid), Some(now))
      && db.conversations == old(db.conversations)[cid := c]
      && db.messages == old(db.messages) + [SystemMessage(mid, cid, me, myName, now)]
  {
    var cid := db.FreshId();
    var mid := db.FreshId();
    db.InsertMessage(SystemMessage(mid, cid, me, myName, now));
    c := ConversationDoc(cid, name, kind, description, team, Entries(ids, me, now), setting, me, Some(mid), Some(now));
    db.SaveConversation(c);
  }

  /** The participant list of a new conversation holds every requested user and the creator
      exactly once each, all active and unmuted, and the creator alone is an administrator. */
  lemma CreatedParticipants(participants: seq<Id>, me: Id, now: int)
    ensures var ps := Entries(Distinct(participants + [me]), me, now);
      && (forall i, j :: 0 <= i < j < |ps| ==> ps[i].user != ps[j].user)
      && (forall x :: x in participants || x == me <==> exists i :: 0 <= i < |ps| && ps[i].user == x)
      && (forall i :: 0 <= i < |ps| ==> ps[i].isActive && !ps[i].isMuted && (ps[i].isAdmin <==> ps[i].user == me))
      && |ps| <= |participants| + 1
  {
    var ids := Distinct(participants + [me]);
    var ps := Entries(ids, me, now);
    forall x | x in participants || x == me
      ensures exists i :: 0 <= i < |ps| && ps[i].user == x
    {
      assert x in participants + [me];
      var i :| 0 <= i < |ids| && ids[i] == x;
      assert ps[i].user == x;
    }
  }

  // ---------------------------------------------------------------------
  // Listing

  /** `find({'participants.user': me, 'participants.isActive': true})`: both conditions are
      matched by any entry, not necessarily the same one. */
  predicate Listed(c: ConversationDoc, me: Id)
  {
    (exists i :: 0 <= i < |c.participants| && c.participants[i].user == me)
    && (exists i :: 0 <= i < |c.participants| && c.participants[i].isActive)
  }

  /** As written, the two conditions need not meet in one entry: a caller whose own entry is
      inactive still gets a conversation listed while another participant is active, although
      every message route refuses that caller. */
  lemma ListedWithoutActiveEntry(c: ConversationDoc, me: Id, other: Participant)
    requires |c.participants| == 2 && c.participants[0] == Participant(me, false, false, false, 0) && c.participants[1] == other
    requires other.isActive && other.user != me
    ensures Listed(c, me) && ActiveEntry(c.participants, me) == -1
    ensures PortalMessages.SendPermission(c, me, "admin") == Failure(403, "Not authorized to access this conversation")
  {
    assert c.participants[0].user == me;
  }

  /** The evidently intended query, `{participants: {$elemMatch: {user: me, isActive: true}}}`:
      the caller's own entry is active. */
  predicate ListedAsIntended(c: ConversationDoc, me: Id)
  {
    ActiveEntry(c.participants, me) != -1
  }

  /** The intended listing shows exactly the conversations whose messages the caller may
      access, and each of them is also listed as written. */
  lemma IntendedListingMatchesAccess(c: ConversationDoc, me: Id, role: string)
    ensures ListedAsIntended(c, me) <==> PortalMessages.SendPermission(c, me, role) != Failure(403, "Not authorized to access this conversation")
    ensures ListedAsIntended(c, me) ==> Listed(c, me)
  {
    var k := ActiveEntry(c.participants, me);
    if k != -1 {
      assert c.participants[k].user == me && c.participants[k].isActive;
    }
  }

  /** The order of `sort({lastMessageAt: -1})`: later first, conversations without a message last. */
  predicate NotBefore(a: Option<int>, b: Option<int>)
  {
    b.None? || (a.Some? && a.value >= b.value)
  }

  predicate SortedByLast(cs: seq<ConversationDoc>)
  {
    forall i, j :: 0 <= i < j < |cs| ==> NotBefore(cs[i].lastMessageAt, cs[j].lastMessageAt)
  }

  function InsertByLast(c: ConversationDoc, cs: seq<ConversationDoc>): (r: seq<ConversationDoc>)
    requires SortedByLast(cs)
    ensures SortedByLast(r)
    ensures multiset(r) == multiset(cs) + multiset{c}
    ensures forall x :: x in r ==> x == c || x in cs
  {
    if cs == [] then [c]
    else if NotBefore(c.lastMessageAt, cs[0].lastMessageAt) then
      assert forall j :: 0 < j < |cs| ==> NotBefore(cs[0].lastMessageAt, cs[j].lastMessageAt);
      [c] + cs
    else
      var rest := InsertByLast(c, cs[1..]);
      assert cs == [cs[0]] + cs[1..];
      FirstOnTop(cs[0], rest, c, cs[1..]);
      [cs[0]] + rest
  }

  /** `first` goes before a sorted list whose elements are `c`, which `first` does not follow,
      or elements that `first` goes before. */
  lemma FirstOnTop(first: ConversationDoc, rest: seq<ConversationDoc>, c: ConversationDoc, tail: seq<ConversationDoc>)
    requires SortedByLast(rest) && !NotBefore(c.lastMessageAt, first.lastMessageAt)
    requires forall x :: x in rest ==> x == c || x in tail
    requires forall x :: x in tail ==> NotBefore(first.lastMessageAt, x.lastMessageAt)
    ensures SortedByLast([first] + rest)
  {
    forall j | 0 <= j < |rest|
      ensures NotBefore(first.lastMessageAt, rest[j].lastMessageAt)
    {
      assert rest[j] in rest;
    }
  }

  /** The caller's conversations, as documents. */
  function ListedDocs(convs: map<Id, ConversationDoc>, me: Id): set<ConversationDoc>
  {
    set id | id in convs && Listed(convs[id], me) :: convs[id]
  }

  /** The caller's conversations among those whose ids are not in `rest`. */
  function ListedOutside(convs: map<Id, ConversationDoc>, me: Id, rest: set<Id>): set<ConversationDoc>
  {
    set id | id in convs && id !in rest && Listed(convs[id], me) :: convs[id]
  }

  /** Taking one more id out of `rest` adds its conversation when it is listed, and nothing else. */
  lemma ListedOutsideStep(convs: map<Id, ConversationDoc>, me: Id, rest: set<Id>, id: Id)
    requires id in rest && id in convs
    requires forall k :: k in convs ==> convs[k].id == k
    ensures Listed(convs[id], me) ==> convs[id] !in ListedOutside(convs, me, rest)
    ensures Listed(convs[id], me) ==> ListedOutside(convs, me, rest - {id}) == ListedOutside(convs, me, rest) + {convs[id]}
    ensures !Listed(convs[id], me) ==> ListedOutside(convs, me, rest - {id}) == ListedOutside(convs, me, rest)
  {
  }

  /** `GET /`: every listed conversation once, latest activity first. The loop stands for the
      query's evaluation over the stored conversations. */
  method List(db: PortalDb, me: Id) returns (r: seq<ConversationDoc>)
    requires db.Valid()
    ensures SortedByLast(r)
    ensures multiset(r) == multiset(ListedDocs(db.conversations, me))
  {
    r := [];
    var rest := db.conversations.Keys;
    assert ListedOutside(db.conversations, me, rest) == {};
    while rest != {}
      invariant rest <= db.conversations.Keys
      invariant SortedByLast(r)
      invariant multiset(r) == multiset(ListedOutside(db.conversations, me, rest))
      decreases rest
    {
      var id :| id in rest;
      ListedOutsideStep(db.conversations, me, rest, id);
      if Listed(db.conversations[id], me) {
        r := InsertByLast(db.conversations[id], r);
      }
      rest := rest - {id};
    }
    assert ListedOutside(db.conversations, me, {}) == ListedDocs(db.conversations, me);
  }
}
