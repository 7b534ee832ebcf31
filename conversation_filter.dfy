/** The portal client's conversation list (client/src/components/conversations/conversationlist.js):
    which conversations the type filter and the search box let through, and the one-line
    preview of each conversation's last message. */
module ConversationFilter {
  import opened Common

  /** The last message as the list receives it: its type, its content if any, and the
      sender's name. */
  datatype LastMessage = LastMessage(messageType: string, content: Option<string>, senderName: string)

  /** A conversation as listed: participants are given by their users' names. */
  datatype Listed = Listed(
    name: string,
    conversationType: string,
    description: Option<string>,
    participants: seq<string>,
    lastMessage: Option<LastMessage>)

  /** Some participant's name contains `query` (both already lower-cased on the query side). */
  predicate AnyParticipant(participants: seq<string>, query: string)
  {
    exists i :: 0 <= i < |participants| && Includes(Lower(participants[i]), query)
  }

  /** The `filter` callback: a type other than the chosen one is dropped (unless the choice is
      "all"); a non-empty search then keeps the conversation when the lower-cased query occurs
      in its name, in its description when it has a non-empty one, or in a participant's name. */
  predicate Matches(c: Listed, filter: string, search: string)
  {
    if filter != "all" && c.conversationType != filter then false
    else if search != "" then
      var q := Lower(search);
      Includes(Lower(c.name), q)
      || (c.description.Some? && c.description.value != "" && Includes(Lower(c.description.value), q))
      || AnyParticipant(c.participants, q)
    else true
  }

  /** `filteredConversations` */
  function Filtered(cs: seq<Listed>, filter: string, search: string): (r: seq<Listed>)
    ensures |r| <= |cs|
    ensures forall c :: c in r <==> c in cs && Matches(c, filter, search)
    decreases |cs|
  {
    if cs == [] then []
    else (if Matches(cs[0], filter, search) then [cs[0]] else []) + Filtered(cs[1..], filter, search)
  }

  /** `r` can be obtained from `s` by deleting elements, the rest keeping their order. */
  predicate Subsequence<T(==)>(r: seq<T>, s: seq<T>)
    decreases |s|
  {
    if r == [] then true
    else if s == [] then false
    else (r[0] == s[0] && Subsequence(r[1..], s[1..])) || Subsequence(r, s[1..])
  }

  /** The filtered list is the full list with some conversations removed, in the same order. */
  lemma {:induction false} FilteredIsSubsequence(cs: seq<Listed>, filter: string, search: string)
    ensures Subsequence(Filtered(cs, filter, search), cs)
    decreases |cs|
  {
    if cs != [] {
      var rest := Filtered(cs[1..], filter, search);
      FilteredIsSubsequence(cs[1..], filter, search);
      if Matches(cs[0], filter, search) {
        assert Filtered(cs, filter, search) == [cs[0]] + rest;
      } else {
        assert Filtered(cs, filter, search) == rest;
        if rest != [] {
          assert Subsequence(rest, cs[1..]);
        }
      }
    }
  }

  /** Filtering a list in two parts filters each part and keeps them in order. */
  lemma {:induction false} FilteredSplits(a: seq<Listed>, b: seq<Listed>, filter: string, search: string)
    ensures Filtered(a + b, filter, search) == Filtered(a, filter, search) + Filtered(b, filter, search)
    decreases |a|
  {
    if a != [] {
      assert (a + b)[1..] == a[1..] + b;
      FilteredSplits(a[1..], b, filter, search);
    } else {
      assert a + b == b;
    }
  }

  /** With an empty search box only the type filter applies: "all" keeps every conversation,
      any other choice keeps exactly that type. */
  lemma EmptySearchIsTypeFilter(c: Listed, filter: string)
    ensures Matches(c, filter, "") <==> filter == "all" || c.conversationType == filter
  {
  }

  /** "All" with an empty search box shows the whole list unchanged. */
  lemma {:induction false} NoFilterShowsAll(cs: seq<Listed>)
    ensures Filtered(cs, "all", "") == cs
    decreases |cs|
  {
    if cs != [] {
      NoFilterShowsAll(cs[1..]);
      assert [cs[0]] + cs[1..] == cs;
    }
  }

  lemma LowerIdempotent(s: string)
    ensures Lower(Lower(s)) == Lower(s)
  {
    var l := Lower(s);
    assert forall i :: 0 <= i < |s| ==> Lower(l)[i] == LowerChar(LowerChar(s[i])) == l[i];
  }

  /** The search ignores the case of the query: typing it in upper or lower case lets the same
      conversations through. */
  lemma SearchIgnoresCase(c: Listed, filter: string, search: string)
    ensures Matches(c, filter, search) <==> Matches(c, filter, Lower(search))
  {
    LowerIdempotent(search);
    if search != "" {
      assert |Lower(search)| == |search|;
    }
  }

  /** A conversation of the chosen type whose name contains the query, in any case, is shown. */
  lemma NameHitShown(c: Listed, filter: string, search: string)
    requires filter == "all" || c.conversationType == filter
    requires Includes(Lower(c.name), Lower(search))
    ensures Matches(c, filter, search)
  {
  }

  /** The text drawn for a content: the content itself, or `fallback` when it is missing
      (`''` for `content || ''`, "undefined" for `${content}`). */
  function ContentOr(content: Option<string>, fallback: string): (t: string)
    ensures content.Some? ==> t == content.value
    ensures content.None? ==> t == fallback
  {
    if content.Some? then content.value else fallback
  }

  /** `getMessagePreview`; a system message's missing content draws as nothing. */
  function Preview(last: Option<LastMessage>): string
  {
    if last.None? then "No messages yet"
    else
      var m := last.value;
      if m.messageType == "system" then ContentOr(m.content, "")
      else if m.messageType == "image" then m.senderName + ": [Image] " + ContentOr(m.content, "")
      else if m.messageType == "file" then m.senderName + ": [File] " + ContentOr(m.content, "")
      else m.senderName + ": " + ContentOr(m.content, "undefined")
  }

  /** A conversation without messages reads "No messages yet"; a system message is shown as
      it is; any other message starts with its sender's name, then, for images and files, a
      tag naming the kind, and ends with its text. */
  lemma PreviewShape(last: Option<LastMessage>)
    ensures last.None? ==> Preview(last) == "No messages yet"
    ensures last.Some? && last.value.messageType == "system" ==> Preview(last) == ContentOr(last.value.content, "")
    ensures last.Some? && last.value.messageType != "system" ==> (
      var m := last.value;
      var p := Preview(last);
      var rest := p[|m.senderName| + 2..];
      StartsWith(p, m.senderName + ": ")
      && (m.messageType == "image" ==> StartsWith(rest, "[Image] ") && rest[8..] == ContentOr(m.content, ""))
      && (m.messageType == "file" ==> StartsWith(rest, "[File] ") && rest[7..] == ContentOr(m.content, ""))
      && (m.messageType != "image" && m.messageType != "file" ==> rest == ContentOr(m.content, "undefined")))
  {
    if last.Some? && last.value.messageType != "system" {
      var m := last.value;
      var p := Preview(last);
      var head := m.senderName + ": ";
      assert p[..|head|] == head;
      if m.messageType == "image" {
        assert p == head + ("[Image] " + ContentOr(m.content, ""));
      } else if m.messageType == "file" {
        assert p == head + ("[File] " + ContentOr(m.content, ""));
      } else {
        assert p == head + ContentOr(m.content, "undefined");
      }
    }
  }
}
