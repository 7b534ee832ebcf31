/** The portal client's message list (client/src/components/messages/MessageList.js): the
    loaded history of one conversation with its paging state, how each message is drawn
    (style, avatar, reaction badges), and the updates from sends and reactions. */
module MessageListView {
  import opened Common
  import opened PortalStore
  import PortalMessages

  // ---------------------------------------------------------------------
  // Reaction badges

  /** One badge: an emoji, how many reactions carry it and who gave them, in order. */
  datatype ReactionGroup = ReactionGroup(emoji: string, count: nat, users: seq<Id>)

  /** The badge for `emoji`, or -1. */
  function GroupIndex(gs: seq<ReactionGroup>, emoji: string): (k: int)
    ensures -1 <= k < |gs|
    ensures k >= 0 ==> gs[k].emoji == emoji
    ensures k == -1 <==> forall j :: 0 <= j < |gs| ==> gs[j].emoji != emoji
  {
    FirstMatch(gs, (g: ReactionGroup) => g.emoji == emoji)
  }

  /** One step of the `reduce`: a new emoji opens a badge at the end, a known one counts up. */
  function AddReaction(gs: seq<ReactionGroup>, r: Reaction): (out: seq<ReactionGroup>)
  {
    var k := GroupIndex(gs, r.reaction);
    if k == -1 then gs + [ReactionGroup(r.reaction, 1, [r.user])]
    else gs[k := gs[k].(count := gs[k].count + 1, users := gs[k].users + [r.user])]
  }

  /** `message.reactions.reduce(...)`, badges in order of first appearance. */
  function Grouped(rs: seq<Reaction>): seq<ReactionGroup>
    decreases |rs|
  {
    if rs == [] then [] else AddReaction(Grouped(rs[..|rs| - 1]), rs[|rs| - 1])
  }

  /** How many reactions carry `emoji`. */
  function Occurrences(rs: seq<Reaction>, emoji: string): nat
    decreases |rs|
  {
    if rs == [] then 0 else Occurrences(rs[..|rs| - 1], emoji) + (if rs[|rs| - 1].reaction == emoji then 1 else 0)
  }

  /** The sum of the badges' counts. */
  function Total(gs: seq<ReactionGroup>): nat
    decreases |gs|
  {
    if gs == [] then 0 else Total(gs[..|gs| - 1]) + gs[|gs| - 1].count
  }

  predicate DistinctEmojis(gs: seq<ReactionGroup>)
  {
    forall i, j :: 0 <= i < j < |gs| ==> gs[i].emoji != gs[j].emoji
  }

  lemma {:induction false} TotalBump(gs: seq<ReactionGroup>, k: nat, g: ReactionGroup)
    requires k < |gs| && g.count == gs[k].count + 1
    ensures Total(gs[k := g]) == Total(gs) + 1
    decreases |gs|
  {
    var n := |gs| - 1;
    if k < n {
      TotalBump(gs[..n], k, g);
      assert gs[k := g][..n] == gs[..n][k := g];
    } else {
      assert gs[k := g][..n] == gs[..n];
    }
  }

  /** The badges describe the reactions: one per distinct emoji, each counting exactly the
      reactions with that emoji and listing one user per reaction; an emoji without a badge
      has no reaction; together the badges count every reaction once. */
  ghost predicate Summarizes(gs: seq<ReactionGroup>, rs: seq<Reaction>)
  {
    DistinctEmojis(gs)
    && (forall i :: 0 <= i < |gs| ==> gs[i].count == Occurrences(rs, gs[i].emoji) && |gs[i].users| == gs[i].count)
    && (forall e :: GroupIndex(gs, e) == -1 ==> Occurrences(rs, e) == 0)
    && Total(gs) == |rs|
  }

  lemma OccurrencesSnoc(rs: seq<Reaction>, r: Reaction, e: string)
    ensures Occurrences(rs + [r], e) == Occurrences(rs, e) + (if r.reaction == e then 1 else 0)
  {
    assert (rs + [r])[..|rs|] == rs;
  }

  /** A reaction with an emoji not seen yet opens a badge at the end. */
  lemma StepNew(gs: seq<ReactionGroup>, rs: seq<Reaction>, r: Reaction)
    requires Summarizes(gs, rs) && GroupIndex(gs, r.reaction) == -1
    ensures Summarizes(gs + [ReactionGroup(r.reaction, 1, [r.user])], rs + [r])
  {
    var out := gs + [ReactionGroup(r.reaction, 1, [r.user])];
    assert out[..|out| - 1] == gs;
    NewCounts(gs, rs, r, out);
    NewCovers(gs, rs, r, out);
  }

  lemma NewCounts(gs: seq<ReactionGroup>, rs: seq<Reaction>, r: Reaction, out: seq<ReactionGroup>)
    requires Summarizes(gs, rs) && GroupIndex(gs, r.reaction) == -1
    requires out == gs + [ReactionGroup(r.reaction, 1, [r.user])]
    ensures DistinctEmojis(out)
    ensures forall i :: 0 <= i < |out| ==> out[i].count == Occurrences(rs + [r], out[i].emoji) && |out[i].users| == out[i].count
  {
    forall i | 0 <= i < |out|
      ensures out[i].count == Occurrences(rs + [r], out[i].emoji) && |out[i].users| == out[i].count
    {
      OccurrencesSnoc(rs, r, out[i].emoji);
    }
  }

  lemma NewCovers(gs: seq<ReactionGroup>, rs: seq<Reaction>, r: Reaction, out: seq<ReactionGroup>)
    requires Summarizes(gs, rs) && GroupIndex(gs, r.reaction) == -1
    requires out == gs + [ReactionGroup(r.reaction, 1, [r.user])]
    ensures forall e :: GroupIndex(out, e) == -1 ==> Occurrences(rs + [r], e) == 0
  {
    forall e | GroupIndex(out, e) == -1
      ensures Occurrences(rs + [r], e) == 0
    {
      OccurrencesSnoc(rs, r, e);
      assert out[|gs|].emoji == r.reaction;
      assert forall j :: 0 <= j < |gs| ==> gs[j] == out[j];
    }
  }

  /** A reaction with a known emoji counts up that badge only. */
  lemma StepKnown(gs: seq<ReactionGroup>, rs: seq<Reaction>, r: Reaction)
    requires Summarizes(gs, rs) && GroupIndex(gs, r.reaction) >= 0
    ensures Summarizes(AddReaction(gs, r), rs + [r])
  {
    var k := GroupIndex(gs, r.reaction);
    var out := AddReaction(gs, r);
    TotalBump(gs, k, out[k]);
    KnownDistinct(gs, r, out);
    KnownCounts(gs, rs, r, k, out);
    KnownCovers(gs, rs, r, out);
  }

  lemma KnownDistinct(gs: seq<ReactionGroup>, r: Reaction, out: seq<ReactionGroup>)
    requires DistinctEmojis(gs) && GroupIndex(gs, r.reaction) >= 0 && out == AddReaction(gs, r)
    ensures DistinctEmojis(out)
  {
    assert forall j :: 0 <= j < |gs| ==> out[j].emoji == gs[j].emoji;
  }

  lemma KnownCounts(gs: seq<ReactionGroup>, rs: seq<Reaction>, r: Reaction, k: int, out: seq<ReactionGroup>)
    requires Summarizes(gs, rs) && k == GroupIndex(gs, r.reaction) >= 0 && out == AddReaction(gs, r)
    ensures forall i :: 0 <= i < |out| ==> out[i].count == Occurrences(rs + [r], out[i].emoji) && |out[i].users| == out[i].count
  {
    forall i | 0 <= i < |out|
      ensures out[i].count == Occurrences(rs + [r], out[i].emoji) && |out[i].users| == out[i].count
    {
      OccurrencesSnoc(rs, r, out[i].emoji);
      if i != k {
        assert out[i] == gs[i];
        assert gs[i].emoji != gs[k].emoji;
      }
    }
  }

  lemma KnownCovers(gs: seq<ReactionGroup>, rs: seq<Reaction>, r: Reaction, out: seq<ReactionGroup>)
    requires Summarizes(gs, rs) && GroupIndex(gs, r.reaction) >= 0 && out == AddReaction(gs, r)
    ensures forall e :: GroupIndex(out, e) == -1 ==> Occurrences(rs + [r], e) == 0
  {
    forall e | GroupIndex(out, e) == -1
      ensures Occurrences(rs + [r], e) == 0
    {
      OccurrencesSnoc(rs, r, e);
      assert forall j :: 0 <= j < |gs| ==> out[j].emoji == gs[j].emoji;
    }
  }

  /** The badges `renderReactions` draws describe the message's reactions exactly. */
  lemma {:induction false} GroupingCounts(rs: seq<Reaction>)
    ensures Summarizes(Grouped(rs), rs)
    decreases |rs|
  {
    if rs != [] {
      var p := rs[..|rs| - 1];
      var last := rs[|rs| - 1];
      GroupingCounts(p);
      assert rs == p + [last];
      if GroupIndex(Grouped(p), last.reaction) == -1 {
        StepNew(Grouped(p), p, last);
      } else {
        StepKnown(Grouped(p), p, last);
      }
    }
  }

  /** `renderReactions`: no badges at all for a message without reactions. */
  function Badges(m: PortalMessage): (r: Option<seq<ReactionGroup>>)
    ensures r.None? <==> m.reactions == []
    ensures r.Some? ==> r.value == Grouped(m.reactions)
  {
    if m.reactions == [] then None else Some(Grouped(m.reactions))
  }

  // ---------------------------------------------------------------------
  // Drawing rules

  /** `getMessageStyle` */
  function Style(m: PortalMessage, user: Id): (s: string)
    ensures m.kind == "system" ==> s == "system-message"
    ensures m.kind != "system" && m.sender == user ==> s == "sent-message"
    ensures m.kind != "system" && m.sender != user ==> s == "received-message"
  {
    if m.kind == "system" then "system-message"
    else if m.sender == user then "sent-message"
    else "received-message"
  }

  /** `showAvatar` for the message at `i`: not for system messages; for the others, only the
      first of a run by the same sender. */
  predicate ShowAvatar(ms: seq<PortalMessage>, i: nat)
    requires i < |ms|
  {
    ms[i].kind != "system" && (i == 0 || ms[i - 1].sender != ms[i].sender)
  }

  /** In a run of consecutive non-system messages by one sender, the avatar shows on the
      first and on none of the others. */
  lemma AvatarOncePerRun(ms: seq<PortalMessage>, i: nat, j: nat)
    requires i <= j < |ms|
    requires forall k :: i <= k <= j ==> ms[k].sender == ms[i].sender && ms[k].kind != "system"
    requires i == 0 || ms[i - 1].sender != ms[i].sender
    ensures ShowAvatar(ms, i)
    ensures forall k :: i < k <= j ==> !ShowAvatar(ms, k)
  {
    forall k | i < k <= j
      ensures !ShowAvatar(ms, k)
    {
      assert ms[k - 1].sender == ms[i].sender;
    }
  }

  /** `messages.map(msg => msg._id === messageId ? updated : msg)` */
  function Replaced(ms: seq<PortalMessage>, id: Id, updated: PortalMessage): (r: seq<PortalMessage>)
    ensures |r| == |ms|
    ensures forall i :: 0 <= i < |ms| ==> r[i] == if ms[i].id == id then updated else ms[i]
  {
    seq(|ms|, i requires 0 <= i < |ms| => if ms[i].id == id then updated else ms[i])
  }

  // ---------------------------------------------------------------------
  // Older pages

  /** `[...page.reverse(), ...messages]`: how the list takes an older page, as written. */
  function PrependOlder(current: seq<PortalMessage>, page: seq<PortalMessage>): (r: seq<PortalMessage>)
    ensures |r| == |page| + |current|
    ensures forall i :: 0 <= i < |page| ==> r[i] == page[|page| - 1 - i]
    ensures r[|page|..] == current
  {
    Reverse(page) + current
  }

  /** The page in the order the server sends it, oldest first, before the loaded messages. */
  function PrependOlderInOrder(current: seq<PortalMessage>, page: seq<PortalMessage>): (r: seq<PortalMessage>)
    ensures |r| == |page| + |current| && r[..|page|] == page && r[|page|..] == current
  {
    page + current
  }

  /** As written: with forty messages or more, after the first page and one older page the
      list starts with the 21st newest message and reaches the 40th newest only at its 20th
      row, so the older page reads newest first above an oldest-first page. */
  lemma OlderPageShownReversed(of: seq<PortalMessage>)
    requires |of| >= 40
    ensures var shown := PrependOlder(PortalMessages.HistoryWindow(of, 0, 20), PortalMessages.HistoryWindow(of, 20, 20));
      |shown| == 40 && shown[0] == of[|of| - 21] && shown[19] == of[|of| - 40] && shown[20..] == of[|of| - 20..]
  {
    PortalMessages.HistoryWindowShape(of, 0, 20);
    PortalMessages.HistoryWindowShape(of, 20, 20);
  }

  /** Intended: keeping the server's order, the two pages together are the last forty
      messages, oldest first. */
  lemma OlderPageShownInOrder(of: seq<PortalMessage>)
    requires |of| >= 40
    ensures PrependOlderInOrder(PortalMessages.HistoryWindow(of, 0, 20), PortalMessages.HistoryWindow(of, 20, 20)) == of[|of| - 40..]
  {
    PortalMessages.HistoryWindowShape(of, 0, 20);
    PortalMessages.HistoryWindowShape(of, 20, 20);
    assert of[|of| - 40..|of| - 20] + of[|of| - 20..] == of[|of| - 40..];
  }

  // ---------------------------------------------------------------------
  // The list component

  /** How an HTTP request ended: it threw, or it resolved with a body that may be empty. */
  datatype Request<T> = Rejected | Resolved(data: Option<T>)

  /** A history response: the page's messages and `pagination.totalPages`. */
  datatype PageResponse = PageResponse(messages: seq<PortalMessage>, totalPages: int)

  class View {
    /** The signed-in user. */
    const user: Id
    var messages: seq<PortalMessage>
    var page: int
    var hasMore: bool
    var error: string

    constructor (user: Id)
      ensures this.user == user && messages == [] && page == 1 && hasMore && error == ""
    {
      this.user := user;
      messages := [];
      page := 1;
      hasMore := true;
      error := "";
    }

    /** The load when a conversation is opened: page 1, and more pages exist unless the
        response says there is at most one. A missing token or a failed request leaves the
        messages and reports an error. */
    method Opened(token: bool, response: Option<PageResponse>)
      modifies this`messages, this`page, this`hasMore, this`error
      ensures page == 1
      ensures !token ==> messages == old(messages) && hasMore && error == "Not authenticated"
      ensures token && response.None? ==> messages == old(messages) && hasMore && error == "Failed to load messages"
      ensures token && response.Some? ==>
        messages == response.value.messages && error == "" && (hasMore <==> response.value.totalPages > 1)
    {
      error := "";
      page := 1;
      hasMore := true;
      if !token {
        error := "Not authenticated";
        return;
      }
      if response.None? {
        error := "Failed to load messages";
        return;
      }
      messages := response.value.messages;
      if response.value.totalPages <= 1 {
        hasMore := false;
      }
    }

    /** `handleScroll`: at the top, with more pages left, the next page is put before the
        loaded messages (reversed, as written), the page number advances, and there are no
        more pages once it reaches the total. */
    method Scroll(atTop: bool, token: bool, response: Option<PageResponse>)
      modifies this`messages, this`page, this`hasMore, this`error
      ensures !old(hasMore) || !atTop ==>
        messages == old(messages) && page == old(page) && hasMore == old(hasMore) && error == old(error)
      ensures old(hasMore) && atTop && !token ==>
        messages == old(messages) && page == old(page) && hasMore && error == "Not authenticated"
      ensures old(hasMore) && atTop && token && response.None? ==>
        messages == old(messages) && page == old(page) && hasMore && error == "Failed to load more messages"
      ensures old(hasMore) && atTop && token && response.Some? ==>
        messages == PrependOlder(old(messages), response.value.messages) && page == old(page) + 1
        && error == old(error) && (hasMore <==> old(page) + 1 < response.value.totalPages)
    {
      if !hasMore || !atTop {
        return;
      }
      if !token {
        error := "Not authenticated";
        return;
      }
      if response.None? {
        error := "Failed to load more messages";
        return;
      }
      var nextPage := page + 1;
      messages := PrependOlder(messages, response.value.messages);
      page := nextPage;
      if nextPage >= response.value.totalPages {
        hasMore := false;
      }
    }

    /** `handleSendMessage`: without a token nothing is sent and an error is reported; a
        request that fails reports an error; a created message, when the server returns
        one, goes last. */
    method Sent(token: bool, response: Request<PortalMessage>)
      modifies this`messages, this`error
      ensures !token ==> messages == old(messages) && error == "Not authenticated"
      ensures token && response.Rejected? ==> messages == old(messages) && error == "Failed to send message"
      ensures token && response.Resolved? && response.data.None? ==>
        messages == old(messages) && error == old(error)
      ensures token && response.Resolved? && response.data.Some? ==>
        messages == old(messages) + [response.data.value] && error == old(error)
    {
      if !token {
        error := "Not authenticated";
        return;
      }
      match response
      case Rejected =>
        error := "Failed to send message";
      case Resolved(data) =>
        if data.Some? {
          messages := messages + [data.value];
        }
    }

    /** `handleReaction`: without a token or when the request fails an error is reported;
        the returned message replaces the one with that id, nothing else. */
    method Reacted(token: bool, messageId: Id, response: Request<PortalMessage>)
      modifies this`messages, this`error
      ensures !token ==> messages == old(messages) && error == "Not authenticated"
      ensures token && response.Rejected? ==> messages == old(messages) && error == "Failed to add reaction"
      ensures token && response.Resolved? && response.data.None? ==>
        messages == old(messages) && error == old(error)
      ensures token && response.Resolved? && response.data.Some? ==>
        messages == Replaced(old(messages), messageId, response.data.value) && error == old(error)
    {
      if !token {
        error := "Not authenticated";
        return;
      }
      match response
      case Rejected =>
        error := "Failed to add reaction";
      case Resolved(data) =>
        if data.Some? {
          messages := Replaced(messages, messageId, data.value);
        }
    }
  }
}
