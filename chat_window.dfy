/** The typing indicator line of the web chat window
    (packages/web/src/components/Chat/ChatWindow.js): a sentence naming who is typing,
    and whether the line is visible. */
module ChatWindow {
  import opened Common
  import opened HomePage

  /** `name || fallback`: an absent or empty first name gives the fallback. */
  function NameOr(f: Option<string>, fallback: string): (r: string)
    ensures f.Some? && f.value != "" ==> r == f.value
    ensures f.None? || f.value == "" ==> r == fallback
  {
    if f.Some? && f.value != "" then f.value else fallback
  }

  /** `getTypingIndicatorText(users)`; `None` stands for a null or undefined list. */
  function TypingText(users: Option<seq<Typer>>): (t: string)
    ensures users.None? || |users.value| == 0 ==> t == ""
    ensures users.Some? && |users.value| == 1 ==> t == NameOr(users.value[0].firstName, "Someone") + " is typing..."
    ensures users.Some? && |users.value| == 2 ==>
      t == NameOr(users.value[0].firstName, "User1") + " and " + NameOr(users.value[1].firstName, "User2") + " are typing..."
    ensures users.Some? && |users.value| >= 3 ==> t == "Several people are typing..."
  {
    if users.None? || |users.value| == 0 then ""
    else if |users.value| == 1 then NameOr(users.value[0].firstName, "Someone") + " is typing..."
    else if |users.value| == 2 then
      NameOr(users.value[0].firstName, "User1") + " and " + NameOr(users.value[1].firstName, "User2") + " are typing..."
    else "Several people are typing..."
  }

  /** The indicator row is visible exactly when someone is typing. */
  lemma IndicatorVisibleIffTyping(users: Option<seq<Typer>>)
    ensures TypingText(users) != "" <==> users.Some? && |users.value| > 0
  {
    if users.Some? && |users.value| > 0 {
      var t := TypingText(users);
      if |users.value| == 1 {
        assert t[|t| - 1] == '.';
      } else if |users.value| == 2 {
        assert t[|t| - 1] == '.';
      } else {
        assert t[0] == 'S';
      }
    }
  }

  /** Once a user starts typing in the open conversation of the home page, the indicator is
      shown; when nobody else was typing there, it names that user alone. */
  lemma IndicatorAfterTypingStarted(h: Home, g: string, u: Typer)
    ensures var typers := TypersOf(TypingStarted(h, g, u).typing, g);
      TypingText(Some(typers)) != ""
      && ((forall v :: v in TypersOf(h.typing, g) ==> v.id == u.id) ==>
            TypingText(Some(typers)) == NameOr(u.firstName, "Someone") + " is typing...")
  {
    var typers := TypersOf(TypingStarted(h, g, u).typing, g);
    TypingStartedOnce(h, g, u);
    IndicatorVisibleIffTyping(Some(typers));
    if forall v :: v in TypersOf(h.typing, g) ==> v.id == u.id {
      assert typers == [u];
    }
  }
}
