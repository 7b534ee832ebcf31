/** The web chat window's message input (packages/web/src/components/Chat/MessageInput.js):
    a text field that tells the server when the user starts and stops typing, with a
    1.5-second stop timer that every keystroke re-arms, and a send action. The timer is an
    explicit "timer fired" event; `signals` records the `startTyping`/`stopTyping` calls. */
module TypingInput {
  import opened Common

  /** `websocketService.startTyping(id)` / `websocketService.stopTyping(id)` */
  datatype Signal = Start(conversation: string) | Stop(conversation: string)

  /** `TYPING_TIMER_LENGTH` */
  const TypingTimerLength: nat := 1500

  /** Starts and stops alternate, beginning with a start, all for conversation `c`. */
  ghost predicate Alternating(signals: seq<Signal>, c: string)
  {
    forall i :: 0 <= i < |signals| ==>
      signals[i].conversation == c && (signals[i].Start? <==> i % 2 == 0)
  }

  /** Whether a keystroke or send may produce `startTyping`/`stopTyping` at all. */
  predicate Active(conversationId: Option<string>, disabled: bool)
  {
    conversationId.Some? && conversationId.value != "" && !disabled
  }

  /** Enter without Shift sends; so does submitting the form. */
  predicate SendKey(key: string, shift: bool)
  {
    key == "Enter" && !shift
  }

  class Input {
    /** The component's props. */
    const conversationId: Option<string>
    const disabled: bool
    var message: string
    /** `isTypingRef.current` */
    var isTyping: bool
    /** A stop timer is pending (`typingTimeoutRef.current` not yet fired or cleared). */
    var timerArmed: bool
    var signals: seq<Signal>
    /** The texts handed to `onSendMessage`, in order. */
    var sent: seq<string>

    /** The stop timer is pending exactly while the user counts as typing, which only an
        active input can be; the signals sent so far alternate, so an odd number of them
        means the server was last told "started". */
    ghost predicate Valid()
      reads this
    {
      (timerArmed <==> isTyping)
      && (isTyping ==> Active(conversationId, disabled))
      && (Active(conversationId, disabled) ==> Alternating(signals, conversationId.value))
      && (!Active(conversationId, disabled) ==> signals == [])
      && (isTyping <==> |signals| % 2 == 1)
    }

    constructor (conversationId: Option<string>, disabled: bool)
      ensures Valid()
      ensures this.conversationId == conversationId && this.disabled == disabled
      ensures message == "" && !isTyping && !timerArmed && signals == [] && sent == []
    {
      this.conversationId := conversationId;
      this.disabled := disabled;
      message := "";
      isTyping := false;
      timerArmed := false;
      signals := [];
      sent := [];
    }

    /** `handleInputChange`: takes the text; on an active input, says "started" only when
        the user was not typing yet, and re-arms the single stop timer. */
    method Change(value: string)
      requires Valid()
      modifies this`message, this`isTyping, this`timerArmed, this`signals
      ensures Valid()
      ensures message == value && sent == old(sent)
      ensures !Active(conversationId, disabled) ==>
        isTyping == old(isTyping) && timerArmed == old(timerArmed) && signals == old(signals)
      ensures Active(conversationId, disabled) ==>
        isTyping && timerArmed
        && signals == old(signals) + (if old(isTyping) then [] else [Start(conversationId.value)])
    {
      message := value;
      if !Active(conversationId, disabled) {
        return;
      }
      if !isTyping {
        signals := signals + [Start(conversationId.value)];
        isTyping := true;
      }
      timerArmed := true;
    }

    /** The stop timer fires: the server is told "stopped" and the user no longer counts as
        typing. A cleared timer never fires. */
    method TimerFired()
      requires Valid()
      modifies this`isTyping, this`timerArmed, this`signals
      ensures Valid()
      ensures !old(timerArmed) ==> isTyping == old(isTyping) && signals == old(signals) && !timerArmed
      ensures old(timerArmed) ==> !isTyping && !timerArmed && signals == old(signals) + [Stop(conversationId.value)]
    {
      if timerArmed {
        signals := signals + [Stop(conversationId.value)];
        isTyping := false;
        timerArmed := false;
      }
    }

    /** `handleSend`: text that is not blank is sent as typed (untrimmed) on an enabled input
        and the field cleared; the pending timer is cancelled and "stopped" is said at once
        if the user was typing. */
    method Send()
      requires Valid()
      modifies this`message, this`isTyping, this`timerArmed, this`signals, this`sent
      ensures Valid()
      ensures Trim(old(message)) == [] || disabled ==>
        message == old(message) && sent == old(sent) && isTyping == old(isTyping)
        && timerArmed == old(timerArmed) && signals == old(signals)
      ensures Trim(old(message)) != [] && !disabled ==>
        message == "" && sent == old(sent) + [old(message)] && !isTyping && !timerArmed
        && signals == old(signals) + (if old(isTyping) then [Stop(conversationId.value)] else [])
    {
      if Trim(message) == [] || disabled {
        return;
      }
      sent := sent + [message];
      message := "";
      timerArmed := false;
      if isTyping && conversationId.Some? && conversationId.value != "" {
        signals := signals + [Stop(conversationId.value)];
        isTyping := false;
      }
    }

    /** `handleKeyPress`: Enter without Shift on an enabled input sends; other keys do nothing. */
    method KeyPress(key: string, shift: bool)
      requires Valid()
      modifies this`message, this`isTyping, this`timerArmed, this`signals, this`sent
      ensures Valid()
      ensures !SendKey(key, shift) || disabled || Trim(old(message)) == [] ==>
        message == old(message) && sent == old(sent) && isTyping == old(isTyping)
        && timerArmed == old(timerArmed) && signals == old(signals)
      ensures SendKey(key, shift) && !disabled && Trim(old(message)) != [] ==>
        message == "" && sent == old(sent) + [old(message)] && !isTyping && !timerArmed
        && signals == old(signals) + (if old(isTyping) then [Stop(conversationId.value)] else [])
    {
      if SendKey(key, shift) && !disabled {
        Send();
      }
    }
  }

  /** A disabled input, or one without a conversation, never signals typing, however the
      user types, waits or sends. */
  method InactiveInputIsSilent(conversationId: Option<string>, disabled: bool, text: string) returns (signals: seq<Signal>)
    requires !Active(conversationId, disabled)
    ensures signals == []
  {
    var input := new Input(conversationId, disabled);
    input.Change(text);
    input.TimerFired();
    input.Send();
    signals := input.signals;
  }

  /** Typing a burst of keys and pausing says "started" once and "stopped" once. */
  method BurstThenPause(id: string, keys: seq<string>) returns (signals: seq<Signal>)
    requires id != "" && |keys| >= 1
    ensures signals == [Start(id), Stop(id)]
  {
    var input := new Input(Some(id), false);
    var i := 0;
    while i < |keys|
      invariant 0 <= i <= |keys|
      invariant input.Valid() && input.conversationId == Some(id) && !input.disabled
      invariant i == 0 ==> input.signals == [] && !input.isTyping
      invariant i > 0 ==> input.signals == [Start(id)] && input.isTyping
      modifies input
    {
      input.Change(keys[i]);
      i := i + 1;
    }
    input.TimerFired();
    signals := input.signals;
  }
}
