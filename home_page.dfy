/** The web home page's live state (packages/web/src/pages/Home.js): the conversation list,
    the open conversation's messages and who is typing where, each updated by a handler
    that returns a new value from the previous one. */
module HomePage {
  import opened Common
  import Coordinator

  /** An entry of the conversation list; `unreadCount` may be absent. */
  datatype Conversation = Conversation(id: string, name: string, lastMessage: string, timestamp: string, unreadCount: Option<int>)

  datatype Sender = Sender(id: string, firstName: string)

  /** A message as the page keeps it: `_id`, the server's `tempId` echo (if any) and the
      client-side delivery `status` (if any). */
  datatype ChatMessage = ChatMessage(id: string, sender: Sender, group: string, content: string, createdAt: string, tempId: Option<string>, status: Option<string>)

  /** A typing user as the `typing:*` events carry it. */
  datatype Typer = Typer(id: string, firstName: Option<string>)

  /** The page state: the selected conversation's id, the list, the messages and the typing lists. */
  datatype Home = Home(selected: Option<string>, conversations: seq<Conversation>, messages: seq<ChatMessage>, typing: map<string, seq<Typer>>)

  /** The `websocketService.sendMessage(groupId, content, [], tempId)` call of a send. */
  datatype SendCall = SendCall(groupId: string, content: string, tempId: string)

  /** The event name the page listens on for its own messages' confirmation. */
  const ConfirmationEvent: string := "message:sent_confirmation"

  // ---------------------------------------------------------------------
  // Conversation list

  /** `findIndex(conv => conv.id === id)` */
  function IndexOf(cs: seq<Conversation>, id: string): (k: int)
    ensures -1 <= k < |cs|
    ensures k >= 0 ==> cs[k].id == id && forall j :: 0 <= j < k ==> cs[j].id != id
    ensures k == -1 <==> forall j :: 0 <= j < |cs| ==> cs[j].id != id
  {
    FirstMatch(cs, (c: Conversation) => c.id == id)
  }

  /** `filter(conv => conv.id !== id)` */
  function Others(cs: seq<Conversation>, id: string): (r: seq<Conversation>)
    ensures |r| <= |cs|
    ensures forall c {:trigger c in r} :: c in r <==> c in cs && c.id != id
  {
    if cs == [] then []
    else if cs[0].id == id then Others(cs[1..], id)
    else [cs[0]] + Others(cs[1..], id)
  }

  /** No two entries share an id. */
  predicate UniqueIds(cs: seq<Conversation>)
  {
    forall i, j :: 0 <= i < j < |cs| ==> cs[i].id != cs[j].id
  }

  /** `(unreadCount || 0) + 1` */
  function Bumped(u: Option<int>): (r: Option<int>)
    ensures r.Some? && r.value == (if u.Some? then u.value else 0) + 1
  {
    Some((if u.Some? then u.value else 0) + 1)
  }

  /** The entry for `id` moves to the front with the new last message and timestamp (and,
      when `bump`, one more unread message); the rest keep their order. An unknown id
      leaves the list as it was. */
  function Refreshed(cs: seq<Conversation>, id: string, content: string, createdAt: string, bump: bool): (r: seq<Conversation>)
    ensures IndexOf(cs, id) == -1 ==> r == cs
    ensures IndexOf(cs, id) >= 0 ==>
      var c := cs[IndexOf(cs, id)];
      r == [c.(lastMessage := content, timestamp := createdAt,
                unreadCount := if bump then Bumped(c.unreadCount) else c.unreadCount)] + Others(cs, id)
  {
    var k := IndexOf(cs, id);
    if k == -1 then cs
    else
      var c := cs[k];
      [c.(lastMessage := content, timestamp := createdAt,
          unreadCount := if bump then Bumped(c.unreadCount) else c.unreadCount)] + Others(cs, id)
  }

  /** With distinct ids, filtering out the entry at `k` is removing index `k`. */
  lemma {:induction false} OthersRemovesIndex(cs: seq<Conversation>, id: string, k: nat)
    requires UniqueIds(cs) && k < |cs| && cs[k].id == id
    ensures Others(cs, id) == cs[..k] + cs[k + 1..]
    decreases |cs|
  {
    var t := cs[1..];
    UniqueTail(cs);
    OthersCons(cs, id);
    if k == 0 {
      assert forall j :: 0 <= j < |t| ==> t[j].id != id by {
        forall j | 0 <= j < |t| ensures t[j].id != id {
          assert t[j] == cs[j + 1];
        }
      }
      OthersAbsent(t, id);
      assert cs[..0] + cs[1..] == t;
    } else {
      assert cs[0].id != id;
      OthersRemovesIndex(t, id, k - 1);
      assert cs[..k] == [cs[0]] + t[..k - 1];
      assert cs[k + 1..] == t[k..];
    }
  }

  lemma UniqueTail(cs: seq<Conversation>)
    requires UniqueIds(cs) && cs != []
    ensures UniqueIds(cs[1..])
  {
    var t := cs[1..];
    forall i, j | 0 <= i < j < |t| ensures t[i].id != t[j].id {
      assert t[i] == cs[i + 1] && t[j] == cs[j + 1];
    }
  }

  lemma OthersCons(cs: seq<Conversation>, id: string)
    requires cs != []
    ensures Others(cs, id) == if cs[0].id == id then Others(cs[1..], id) else [cs[0]] + Others(cs[1..], id)
  {
  }

  lemma {:induction false} OthersAbsent(cs: seq<Conversation>, id: string)
    requires forall j :: 0 <= j < |cs| ==> cs[j].id != id
    ensures Others(cs, id) == cs
    decreases |cs|
  {
    if cs != [] {
      OthersAbsent(cs[1..], id);
    }
  }

  /** For a known conversation, the refreshed list is the old one with that entry taken out
      and its updated copy put first: same length, everyone else in the same relative order. */
  lemma RefreshMovesToFront(cs: seq<Conversation>, id: string, content: string, createdAt: string, bump: bool)
    requires UniqueIds(cs)
    ensures var k := IndexOf(cs, id); var r := Refreshed(cs, id, content, createdAt, bump);
      k >= 0 ==> |r| == |cs| && r[0].id == id && r[1..] == cs[..k] + cs[k + 1..]
  {
    var k := IndexOf(cs, id);
    if k >= 0 {
      OthersRemovesIndex(cs, id, k);
    }
  }

  // ---------------------------------------------------------------------
  // Handlers

  /** `handleNewMessage`: the message joins the open conversation's messages only if it
      belongs to it; its conversation is refreshed and moved first, counting one more unread
      message unless it is the open one. */
  function NewMessage(h: Home, m: ChatMessage): (r: Home)
    ensures r.selected == h.selected && r.typing == h.typing
    ensures h.selected == Some(m.group) ==> r.messages == h.messages + [m]
    ensures h.selected != Some(m.group) ==> r.messages == h.messages
    ensures r.conversations == Refreshed(h.conversations, m.group, m.content, m.createdAt, h.selected != Some(m.group))
  {
    h.(messages := if h.selected == Some(m.group) then h.messages + [m] else h.messages,
       conversations := Refreshed(h.conversations, m.group, m.content, m.createdAt, h.selected != Some(m.group)))
  }

  /** The unread count of the message's conversation rises by exactly one when it is not
      the open one, and is kept otherwise. */
  lemma UnreadRisesUnlessOpen(h: Home, m: ChatMessage)
    requires IndexOf(h.conversations, m.group) >= 0
    ensures var before := h.conversations[IndexOf(h.conversations, m.group)];
      var after := NewMessage(h, m).conversations[0];
      after.id == m.group && after.lastMessage == m.content && after.timestamp == m.createdAt
      && (h.selected != Some(m.group) ==> after.unreadCount == Some((if before.unreadCount.Some? then before.unreadCount.value else 0) + 1))
      && (h.selected == Some(m.group) ==> after.unreadCount == before.unreadCount)
  {
  }

  /** `msgs.map(msg => msg._id === confirmed.tempId ? { ...confirmed, status: 'sent' } : msg)` */
  function Confirmed(msgs: seq<ChatMessage>, c: ChatMessage): (r: seq<ChatMessage>)
    ensures |r| == |msgs|
    ensures forall i :: 0 <= i < |msgs| && c.tempId == Some(msgs[i].id) ==> r[i] == c.(status := Some("sent"))
    ensures forall i :: 0 <= i < |msgs| && c.tempId != Some(msgs[i].id) ==> r[i] == msgs[i]
  {
    seq(|msgs|, i requires 0 <= i < |msgs| => if c.tempId == Some(msgs[i].id) then c.(status := Some("sent")) else msgs[i])
  }

  /** `handleMessageSent`: the optimistic copy is replaced by the confirmed message and its
      conversation is refreshed and moved first, with no change to its unread count. */
  function MessageSent(h: Home, c: ChatMessage): (r: Home)
    ensures r.selected == h.selected && r.typing == h.typing
    ensures r.messages == Confirmed(h.messages, c)
    ensures r.conversations == Refreshed(h.conversations, c.group, c.content, c.createdAt, false)
  {
    h.(messages := Confirmed(h.messages, c),
       conversations := Refreshed(h.conversations, c.group, c.content, c.createdAt, false))
  }

  /** The typing list of a group, `prev[groupId] || []`. */
  function TypersOf(t: map<string, seq<Typer>>, g: string): seq<Typer>
  {
    if g in t then t[g] else []
  }

  /** `filter(u => u.id !== id)` */
  function Without(us: seq<Typer>, id: string): (r: seq<Typer>)
    ensures |r| <= |us|
    ensures forall i :: 0 <= i < |r| ==> r[i].id != id
    ensures forall u :: u in r <==> u in us && u.id != id
    ensures (forall u :: u in us ==> u.id == id) ==> r == []
  {
    if us == [] then []
    else if us[0].id == id then Without(us[1..], id)
    else [us[0]] + Without(us[1..], id)
  }

  /** `handleTypingStarted` */
  function TypingStarted(h: Home, g: string, u: Typer): (r: Home)
    ensures r.selected == h.selected && r.conversations == h.conversations && r.messages == h.messages
    ensures r.typing == h.typing[g := Without(TypersOf(h.typing, g), u.id) + [u]]
  {
    h.(typing := h.typing[g := Without(TypersOf(h.typing, g), u.id) + [u]])
  }

  /** `handleTypingStopped`: the group's entry is dropped once nobody is left in it. */
  function TypingStopped(h: Home, g: string, u: Typer): (r: Home)
    ensures r.selected == h.selected && r.conversations == h.conversations && r.messages == h.messages
    ensures var rest := Without(TypersOf(h.typing, g), u.id);
      r.typing == if |rest| > 0 then h.typing[g := rest] else h.typing - {g}
  {
    var rest := Without(TypersOf(h.typing, g), u.id);
    h.(typing := if |rest| > 0 then h.typing[g := rest] else h.typing - {g})
  }

  /** After `typing:started` the group's list holds the user exactly once, as its last entry,
      keeps the other typers, and no other group's list changes. */
  lemma TypingStartedOnce(h: Home, g: string, u: Typer)
    ensures var t := TypingStarted(h, g, u).typing;
      g in t && |t[g]| >= 1 && t[g][|t[g]| - 1] == u
      && (forall i :: 0 <= i < |t[g]| - 1 ==> t[g][i].id != u.id)
      && (forall v :: v in TypersOf(h.typing, g) && v.id != u.id ==> v in t[g])
      && (forall k :: k != g ==> TypersOf(t, k) == TypersOf(h.typing, k))
  {
    var t := TypingStarted(h, g, u).typing;
    var rest := Without(TypersOf(h.typing, g), u.id);
    assert t[g] == rest + [u];
    assert forall i :: 0 <= i < |t[g]| - 1 ==> t[g][i] == rest[i];
  }

  /** After `typing:stopped` the user is in no list of that group; a list that would be
      empty is removed rather than kept; no other group's list changes. */
  lemma TypingStoppedRemoves(h: Home, g: string, u: Typer)
    ensures var t := TypingStopped(h, g, u).typing;
      (forall v :: v in TypersOf(t, g) ==> v.id != u.id)
      && (g in t ==> |t[g]| > 0)
      && (g !in t <==> forall v :: v in TypersOf(h.typing, g) ==> v.id == u.id)
      && (forall k :: k != g ==> TypersOf(t, k) == TypersOf(h.typing, k))
  {
    var rest := Without(TypersOf(h.typing, g), u.id);
    if |rest| > 0 {
      assert rest[0] in rest;
    }
  }

  /** A user who starts and then stops typing in a group is no longer shown there, and a
      group where nobody else was typing loses its entry. */
  lemma StartThenStop(h: Home, g: string, u: Typer)
    requires forall v :: v in TypersOf(h.typing, g) ==> v.id == u.id
    ensures g !in TypingStopped(TypingStarted(h, g, u), g, u).typing
  {
    var s := TypingStarted(h, g, u);
    assert TypersOf(s.typing, g) == [u];
    TypingStoppedRemoves(s, g, u);
  }

  /** `conv.id === id ? { ...conv, unreadCount: 0 } : conv` over the list. */
  function Cleared(cs: seq<Conversation>, id: string): (r: seq<Conversation>)
    ensures |r| == |cs|
    ensures forall i :: 0 <= i < |cs| ==> r[i] == (if cs[i].id == id then cs[i].(unreadCount := Some(0)) else cs[i])
  {
    seq(|cs|, i requires 0 <= i < |cs| => if cs[i].id == id then cs[i].(unreadCount := Some(0)) else cs[i])
  }

  /** `handleSelectConversation`: choosing another conversation opens it and zeroes its
      unread count, and the `[selectedConversation]` effect this triggers empties the
      message list before fetching the new conversation's messages; choosing the open one
      changes nothing. */
  function SelectConversation(h: Home, c: Conversation): (r: Home)
    ensures h.selected == Some(c.id) ==> r == h
    ensures h.selected != Some(c.id) ==>
      r == h.(selected := Some(c.id), conversations := Cleared(h.conversations, c.id), messages := [])
  {
    if h.selected != Some(c.id) then h.(selected := Some(c.id), conversations := Cleared(h.conversations, c.id), messages := [])
    else h
  }

  /** Once another conversation is opened, a message for it arriving before the fetch
      completes is the only one shown, and its unread count stays at zero. */
  lemma OpenConversationStaysRead(h: Home, c: Conversation, m: ChatMessage)
    requires h.selected != Some(c.id) && m.group == c.id && IndexOf(h.conversations, c.id) >= 0
    ensures var r := NewMessage(SelectConversation(h, c), m);
      r.messages == [m] && r.conversations[0].id == c.id && r.conversations[0].unreadCount == Some(0)
  {
    var s := SelectConversation(h, c);
    var k := IndexOf(h.conversations, c.id);
    assert s.conversations[k].id == c.id;
    assert forall j :: 0 <= j < k ==> s.conversations[j].id == h.conversations[j].id;
    assert IndexOf(s.conversations, c.id) == k;
  }

  /** `handleSendMessage`: with a conversation open and a user signed in, the optimistic
      message (id `tempId`, status 'sending') is appended and the service is asked to send
      it with the same temporary id; otherwise nothing happens. */
  function SendMessage(h: Home, user: Option<Sender>, content: string, tempId: string, now: string): (r: (Home, Option<SendCall>))
    ensures h.selected.None? || user.None? ==> r == (h, None)
    ensures h.selected.Some? && user.Some? ==>
      r.0 == h.(messages := h.messages + [ChatMessage(tempId, user.value, h.selected.value, content, now, None, Some("sending"))])
      && r.1 == Some(SendCall(h.selected.value, content, tempId))
  {
    if h.selected.None? || user.None? then (h, None)
    else
      var optimistic := ChatMessage(tempId, user.value, h.selected.value, content, now, None, Some("sending"));
      (h.(messages := h.messages + [optimistic]), Some(SendCall(h.selected.value, content, tempId)))
  }

  // ---------------------------------------------------------------------
  // The confirmation path

  /** The server emits nothing under the name the page listens on for confirmations, so
      the optimistic message keeps its 'sending' status. */
  lemma ConfirmationNeverDelivered(e: Coordinator.Event)
    ensures Coordinator.EventName(e) != ConfirmationEvent
  {
  }

  /** The intended path: if the confirmation arrived carrying the temporary id, the optimistic
      message would be replaced in place by the confirmed one, marked 'sent', and nothing
      else in the list would change. */
  lemma {:induction false} OptimisticMessageConfirmed(h: Home, user: Sender, content: string, tempId: string, now: string, c: ChatMessage)
    requires h.selected.Some? && c.tempId == Some(tempId)
    requires forall i :: 0 <= i < |h.messages| ==> h.messages[i].id != tempId
    ensures var sent := SendMessage(h, Some(user), content, tempId, now).0;
      var r := MessageSent(sent, c).messages;
      |r| == |h.messages| + 1 && r[..|h.messages|] == h.messages && r[|h.messages|] == c.(status := Some("sent"))
  {
    var sent := SendMessage(h, Some(user), content, tempId, now).0;
    var r := MessageSent(sent, c).messages;
    assert sent.messages[|h.messages|].id == tempId;
    assert forall i :: 0 <= i < |h.messages| ==> sent.messages[i] == h.messages[i] && r[i] == h.messages[i];
  }
}
