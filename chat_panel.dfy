/** The chat panel's live state (packages/web/src/components/Chat/Chat.jsx and its mobile copy
    packages/mobile/src/components/Chat/Chat.jsx, whose handlers are the same): the groups
    joined, the selected group, its messages, the ids of users typing in it and the unread
    notification counter, each replaced by a handler from the previous value.

    The socket handlers are registered by an effect that depends on `[user]` only, so each
    handler closes over the `selectedGroup` of the render that ran the effect: null at mount,
    whatever is chosen later. The panel keeps that captured selection beside the live one. */
module ChatPanel {
  import opened Common

  /** A group object held by the panel. The panel reads `_id` to compare and `id` to filter;
      the server's `group:joined` payload carries `id` and `name` only. */
  datatype GroupRef = GroupRef(underscoreId: Option<string>, id: Option<string>, name: string)

  /** A message payload (`message:received` / `message:sent`). */
  datatype Incoming = Incoming(id: string, group: string, content: string)

  /** What the `group:left` handler is called with: a bare id, or the `{ id, name }` object
      the server actually emits. */
  datatype LeftArg = IdArg(id: string) | ObjectArg(id: string, name: string)

  /** `selected` is the live selection; `captured` is the selection the registered socket
      handlers read. */
  datatype Panel = Panel(selected: Option<GroupRef>, captured: Option<GroupRef>, groups: seq<GroupRef>,
                         messages: seq<Incoming>, typingUsers: set<string>, unread: int)

  /** `selectedGroup?._id` for a given selection. */
  function IdOf(s: Option<GroupRef>): (r: Option<string>)
    ensures s.None? ==> r.None?
    ensures s.Some? ==> r == s.value.underscoreId
  {
    if s.Some? then s.value.underscoreId else None
  }

  /** `selectedGroup?._id` as the render reads it. */
  function SelectedId(p: Panel): Option<string>
  {
    IdOf(p.selected)
  }

  /** `selectedGroup?._id` as the registered handlers read it. */
  function CapturedId(p: Panel): Option<string>
  {
    IdOf(p.captured)
  }

  /** The handlers read the selection the render shows. */
  predicate Synced(p: Panel)
  {
    p.captured == p.selected
  }

  /** The panel after mounting: nothing selected, and the handlers registered by the first
      render, which saw no selection. */
  const Initial: Panel := Panel(None, None, [], [], {}, 0)

  /** `onSelectGroup={setSelectedGroup}`: the live selection changes and the effect does not
      run again, so the handlers keep the selection they captured. */
  function Select(p: Panel, g: Option<GroupRef>): (r: Panel)
    ensures r.selected == g && r.captured == p.captured
    ensures r.groups == p.groups && r.messages == p.messages && r.typingUsers == p.typingUsers && r.unread == p.unread
  {
    p.(selected := g)
  }

  /** The `[user]` effect running again (a new `user`): the old handlers are removed and new
      ones registered, which read the selection of this render. */
  function Registered(p: Panel): (r: Panel)
    ensures Synced(r) && r.selected == p.selected
    ensures r.groups == p.groups && r.messages == p.messages && r.typingUsers == p.typingUsers && r.unread == p.unread
  {
    p.(captured := p.selected)
  }

  /** `handleMessageReceived`: shown only when it belongs to the group the handler captured. */
  function MessageReceived(p: Panel, m: Incoming): (r: Panel)
    ensures CapturedId(p) == Some(m.group) ==> r == p.(messages := p.messages + [m])
    ensures CapturedId(p) != Some(m.group) ==> r == p
  {
    if CapturedId(p) == Some(m.group) then p.(messages := p.messages + [m]) else p
  }

  /** `handleMessageSent`: the sender's own message is always appended. */
  function MessageSent(p: Panel, m: Incoming): (r: Panel)
    ensures r == p.(messages := p.messages + [m])
  {
    p.(messages := p.messages + [m])
  }

  /** `handleTypingStarted`: the user id joins the set for the captured group only. */
  function TypingStarted(p: Panel, user: string, groupId: string): (r: Panel)
    ensures CapturedId(p) == Some(groupId) ==> r == p.(typingUsers := p.typingUsers + {user})
    ensures CapturedId(p) != Some(groupId) ==> r == p
  {
    if CapturedId(p) == Some(groupId) then p.(typingUsers := p.typingUsers + {user}) else p
  }

  /** `handleTypingStopped`: the user id leaves the set for the captured group only. */
  function TypingStopped(p: Panel, user: string, groupId: string): (r: Panel)
    ensures CapturedId(p) == Some(groupId) ==> r == p.(typingUsers := p.typingUsers - {user})
    ensures CapturedId(p) != Some(groupId) ==> r == p
  {
    if CapturedId(p) == Some(groupId) then p.(typingUsers := p.typingUsers - {user}) else p
  }

  /** `handleGroupJoined`: the payload is appended, even for a group already listed. */
  function GroupJoined(p: Panel, g: GroupRef): (r: Panel)
    ensures r == p.(groups := p.groups + [g])
  {
    p.(groups := p.groups + [g])
  }

  /** `g.id !== groupId` is false only for a bare id equal to the group's `id`. */
  predicate SameId(field: Option<string>, a: LeftArg)
  {
    a.IdArg? && field == Some(a.id)
  }

  /** `prev.filter(g => g.id !== groupId)` */
  function Remaining(gs: seq<GroupRef>, a: LeftArg): (r: seq<GroupRef>)
    ensures |r| <= |gs|
    ensures forall g :: g in r <==> g in gs && !SameId(g.id, a)
  {
    if gs == [] then []
    else if SameId(gs[0].id, a) then Remaining(gs[1..], a)
    else [gs[0]] + Remaining(gs[1..], a)
  }

  /** `handleGroupLeft`: the group is filtered out, and the live selection cleared if the
      captured selection is the group left. */
  function GroupLeft(p: Panel, a: LeftArg): (r: Panel)
    ensures r.messages == p.messages && r.typingUsers == p.typingUsers && r.unread == p.unread && r.captured == p.captured
    ensures r.groups == Remaining(p.groups, a)
    ensures r.selected == if SameId(CapturedId(p), a) then None else p.selected
  {
    p.(groups := Remaining(p.groups, a), selected := if SameId(CapturedId(p), a) then None else p.selected)
  }

  /** `handleNewNotification` */
  function NewNotification(p: Panel): (r: Panel)
    ensures r == p.(unread := p.unread + 1)
  {
    p.(unread := p.unread + 1)
  }

  /** `handleUnreadCount`: the server's count replaces the local one. */
  function UnreadCount(p: Panel, count: int): (r: Panel)
    ensures r == p.(unread := count)
  {
    p.(unread := count)
  }

  /** The group id `sendMessage`, `startTyping` and `stopTyping` are called with, if they
      are called at all: only with a group selected, and then with its `_id`. These callbacks
      are passed to the inputs on every render, so they read the live selection. */
  function OutgoingTarget(p: Panel): (r: Option<Option<string>>)
    ensures r.Some? <==> p.selected.Some?
    ensures r.Some? ==> r.value == SelectedId(p)
  {
    if p.selected.Some? then Some(p.selected.value.underscoreId) else None
  }

  // ---------------------------------------------------------------------
  // Properties

  /** A received message grows the list by one exactly when it is for the captured group,
      and earlier messages stay as they were. */
  lemma ReceivedIffCaptured(p: Panel, m: Incoming)
    ensures var r := MessageReceived(p, m);
      (|r.messages| == |p.messages| + 1 <==> CapturedId(p) == Some(m.group))
      && r.messages[..|p.messages|] == p.messages
  {
    var r := MessageReceived(p, m);
    assert r.messages[..|p.messages|] == p.messages;
  }

  /** With handlers that read the live selection, a received message grows the list exactly
      when it is for the selected group. */
  lemma ReceivedIffSelected(p: Panel, m: Incoming)
    requires Synced(p)
    ensures var r := MessageReceived(p, m);
      (|r.messages| == |p.messages| + 1 <==> SelectedId(p) == Some(m.group))
      && r.messages[..|p.messages|] == p.messages
  {
    ReceivedIffCaptured(p, m);
  }

  /** The typing set has set semantics: starting twice is starting once, and a start
      followed by a stop for the captured group leaves the user out. */
  lemma TypingSetSemantics(p: Panel, user: string, groupId: string)
    ensures TypingStarted(TypingStarted(p, user, groupId), user, groupId) == TypingStarted(p, user, groupId)
    ensures CapturedId(p) == Some(groupId) ==>
      user in TypingStarted(p, user, groupId).typingUsers
      && user !in TypingStopped(TypingStarted(p, user, groupId), user, groupId).typingUsers
    ensures CapturedId(p) != Some(groupId) ==> TypingStopped(TypingStarted(p, user, groupId), user, groupId) == p
  {
  }

  /** Leaving by id removes every entry with that id, keeps the other entries, and clears
      the selection when the captured one is that group, which is the selected one when the
      handlers read the live selection. */
  lemma LeaveByIdRemoves(p: Panel, id: string)
    ensures var r := GroupLeft(p, IdArg(id));
      (forall g :: g in r.groups ==> g.id != Some(id))
      && (forall g :: g in p.groups && g.id != Some(id) ==> g in r.groups)
      && (CapturedId(p) == Some(id) ==> r.selected.None?)
      && (CapturedId(p) != Some(id) ==> r.selected == p.selected)
      && (Synced(p) && SelectedId(p) == Some(id) ==> r.selected.None?)
  {
  }

  /** As written, the handler is given the server's `{ id, name }` object, which no `id`
      field equals, so leaving a group changes nothing in the panel. */
  lemma LeaveWithServerPayloadIgnored(p: Panel, id: string, name: string)
    ensures GroupLeft(p, ObjectArg(id, name)) == p
  {
    assert Remaining(p.groups, ObjectArg(id, name)) == p.groups by {
      RemainingKeepsAll(p.groups, ObjectArg(id, name));
    }
  }

  lemma {:induction false} RemainingKeepsAll(gs: seq<GroupRef>, a: LeftArg)
    requires a.ObjectArg?
    ensures Remaining(gs, a) == gs
    decreases |gs|
  {
    if gs != [] {
      RemainingKeepsAll(gs[1..], a);
    }
  }

  /** `n` notifications after an unread-count update leave the counter at that count plus `n`. */
  function Notified(p: Panel, n: nat): (r: Panel)
    ensures r.groups == p.groups && r.messages == p.messages && r.selected == p.selected && r.typingUsers == p.typingUsers
  {
    if n == 0 then p else NewNotification(Notified(p, n - 1))
  }

  lemma {:induction false} CounterAfterSync(p: Panel, count: int, n: nat)
    ensures Notified(UnreadCount(p, count), n).unread == count + n
  {
    if n > 0 {
      CounterAfterSync(p, count, n - 1);
    }
  }

  /** The server's group payloads carry no `_id`, so with a joined group selected (and
      captured, or nothing captured), no message or typing event ever matches it, and sends
      name no group. */
  lemma JoinedSelectionNeverMatches(p: Panel, g: GroupRef, m: Incoming, user: string)
    requires g.underscoreId.None? && p.selected == Some(g) && CapturedId(p).None?
    ensures MessageReceived(p, m) == p
    ensures TypingStarted(p, user, m.group) == p
    ensures OutgoingTarget(p) == Some(None)
  {
  }

  // ---------------------------------------------------------------------
  // The panel between two registrations of its handlers

  /** What reaches the panel while `user` stays the same: a choice in the group list or one
      of the registered socket events. */
  datatype UiEvent =
    | Chosen(choice: Option<GroupRef>)
    | Received(message: Incoming)
    | Sent(message: Incoming)
    | Started(user: string, groupId: string)
    | Stopped(user: string, groupId: string)
    | Joined(group: GroupRef)
    | Left(arg: LeftArg)
    | Notification
    | Counted(count: int)

  function Step(p: Panel, e: UiEvent): Panel
  {
    match e
    case Chosen(g) => Select(p, g)
    case Received(m) => MessageReceived(p, m)
    case Sent(m) => MessageSent(p, m)
    case Started(u, g) => TypingStarted(p, u, g)
    case Stopped(u, g) => TypingStopped(p, u, g)
    case Joined(g) => GroupJoined(p, g)
    case Left(a) => GroupLeft(p, a)
    case Notification => NewNotification(p)
    case Counted(n) => UnreadCount(p, n)
  }

  function Run(p: Panel, es: seq<UiEvent>): Panel
    decreases |es|
  {
    if es == [] then p else Run(Step(p, es[0]), es[1..])
  }

  /** The messages the sender's own `message:sent` events carry, in order. */
  function SentIn(es: seq<UiEvent>): seq<Incoming>
    decreases |es|
  {
    if es == [] then [] else (if es[0].Sent? then [es[0].message] else []) + SentIn(es[1..])
  }

  /** The last choice made in the group list, or `s` if none was made. */
  function LastChoice(s: Option<GroupRef>, es: seq<UiEvent>): Option<GroupRef>
    decreases |es|
  {
    if es == [] then s else LastChoice(if es[0].Chosen? then es[0].choice else s, es[1..])
  }

  /** As written, with no selection captured (as after mounting), the handlers never match:
      only the sender's own messages are ever listed, the typing set never changes, and only
      the group list changes the selection, whatever groups are chosen and left. */
  lemma {:induction false} StaleHandlersIgnoreGroupEvents(p: Panel, es: seq<UiEvent>)
    requires p.captured.None?
    ensures var r := Run(p, es);
      r.captured.None? && r.messages == p.messages + SentIn(es)
      && r.typingUsers == p.typingUsers && r.selected == LastChoice(p.selected, es)
    decreases |es|
  {
    if es != [] {
      var q := Step(p, es[0]);
      assert q.captured.None?;
      assert q.messages == p.messages + (if es[0].Sent? then [es[0].message] else []);
      assert q.typingUsers == p.typingUsers;
      assert q.selected == if es[0].Chosen? then es[0].choice else p.selected;
      StaleHandlersIgnoreGroupEvents(q, es[1..]);
      assert p.messages + (if es[0].Sent? then [es[0].message] else []) + SentIn(es[1..]) == p.messages + SentIn(es);
    }
  }

  /** After mounting, choosing a group and receiving one of its messages lists nothing. */
  lemma ChosenGroupMessageNotShown(g: GroupRef, m: Incoming)
    requires g.underscoreId == Some(m.group)
    ensures Run(Initial, [Chosen(Some(g)), Received(m)]).messages == []
  {
    var es := [Chosen(Some(g)), Received(m)];
    StaleHandlersIgnoreGroupEvents(Initial, es);
    assert es[1..] == [Received(m)] && es[1..][1..] == [];
    assert SentIn(es[1..]) == [] + SentIn(es[1..][1..]) == [];
    assert SentIn(es) == [] + SentIn(es[1..]);
  }

  /** Had the handlers been registered again for the new selection (an effect depending on
      `selectedGroup` too), the same message would be listed. */
  lemma ChosenGroupMessageShownWhenRegistered(g: GroupRef, m: Incoming)
    requires g.underscoreId == Some(m.group)
    ensures MessageReceived(Registered(Select(Initial, Some(g))), m).messages == [m]
  {
  }
}
