/** The chat panel's message composer (packages/web/src/components/Chat/MessageInput.jsx and
    its mobile copy packages/mobile/src/components/Chat/MessageInput.jsx): a text, a list of
    attachments, and the typing callbacks. Every keystroke says "started" and re-arms one
    1-second stop timer; the timer is an explicit "timer fired" event, and `calls` records
    the `onStartTyping`/`onStopTyping` calls. */
module Composer {
  import opened Common

  datatype Call = StartTyping | StopTyping

  /** Every "stopped" comes straight after a "started". */
  predicate StopsFollowStarts(calls: seq<Call>)
  {
    forall i :: 0 <= i < |calls| && calls[i] == StopTyping ==> i > 0 && calls[i - 1] == StartTyping
  }

  /** What `handleSend` passes to `onSendMessage`, if anything: the trimmed text and the
      attachments, when the text is not blank or there is an attachment. */
  function Outgoing<F>(message: string, attachments: seq<F>): (r: Option<(string, seq<F>)>)
    ensures r.Some? <==> Trim(message) != [] || |attachments| > 0
    ensures r.Some? ==> r.value == (Trim(message), attachments)
  {
    if Trim(message) != [] || |attachments| > 0 then Some((Trim(message), attachments)) else None
  }

  /** `prev.filter((_, i) => i !== index)` */
  function RemoveAt<F>(s: seq<F>, index: int): (r: seq<F>)
    ensures 0 <= index < |s| ==> r == s[..index] + s[index + 1..]
    ensures !(0 <= index < |s|) ==> r == s
  {
    if s == [] then []
    else if index == 0 then s[1..]
    else [s[0]] + RemoveAt(s[1..], index - 1)
  }

  class Composer<F> {
    var message: string
    var attachments: seq<F>
    /** A stop timer is pending (set by the last keystroke and not yet fired). */
    var timerArmed: bool
    var calls: seq<Call>
    /** What was handed to `onSendMessage`, in order. */
    var sent: seq<(string, seq<F>)>

    /** A pending timer belongs to the last "started"; "stopped" never comes on its own. */
    ghost predicate Valid()
      reads this
    {
      (timerArmed ==> |calls| > 0 && calls[|calls| - 1] == StartTyping)
      && StopsFollowStarts(calls)
    }

    constructor ()
      ensures Valid()
      ensures message == "" && attachments == [] && !timerArmed && calls == [] && sent == []
    {
      message := "";
      attachments := [];
      timerArmed := false;
      calls := [];
      sent := [];
    }

    /** `handleMessageChange`: takes the text, says "started" and re-arms the one stop timer. */
    method Change(text: string)
      requires Valid()
      modifies this`message, this`timerArmed, this`calls
      ensures Valid()
      ensures message == text && timerArmed && calls == old(calls) + [StartTyping]
    {
      message := text;
      TimerStepKeepsProtocol(calls, StartTyping, timerArmed);
      calls := calls + [StartTyping];
      timerArmed := true;
    }

    /** The pending stop timer fires and says "stopped"; a timer that was replaced or never
        set does not fire. */
    method TimerFired()
      requires Valid()
      modifies this`timerArmed, this`calls
      ensures Valid()
      ensures !timerArmed
      ensures old(timerArmed) ==> calls == old(calls) + [StopTyping]
      ensures !old(timerArmed) ==> calls == old(calls)
    {
      if timerArmed {
        TimerStepKeepsProtocol(calls, StopTyping, timerArmed);
        calls := calls + [StopTyping];
        timerArmed := false;
      }
    }

    /** `handleSend`: sends the trimmed text and the attachments when there is something to
        send, then empties both; the typing timer is left alone. */
    method Send()
      requires Valid()
      modifies this`message, this`attachments, this`sent
      ensures Valid()
      ensures var out := Outgoing(old(message), old(attachments));
        (out.None? ==> message == old(message) && attachments == old(attachments) && sent == old(sent))
        && (out.Some? ==> message == "" && attachments == [] && sent == old(sent) + [out.value])
    {
      var out := Outgoing(message, attachments);
      if out.Some? {
        sent := sent + [out.value];
        message := "";
        attachments := [];
      }
    }

    /** `handleKeyPress` (web): Enter without Shift sends. */
    method KeyPress(key: string, shift: bool)
      requires Valid()
      modifies this`message, this`attachments, this`sent
      ensures Valid()
      ensures !(key == "Enter" && !shift) ==>
        message == old(message) && attachments == old(attachments) && sent == old(sent)
      ensures key == "Enter" && !shift ==>
        var out := Outgoing(old(message), old(attachments));
        (out.None? ==> message == old(message) && attachments == old(attachments) && sent == old(sent))
        && (out.Some? ==> message == "" && attachments == [] && sent == old(sent) + [out.value])
    {
      if key == "Enter" && !shift {
        Send();
      }
    }

    /** The drop zone's `onDrop` (web): accepted files go after those already attached. */
    method Dropped(files: seq<F>)
      modifies this`attachments
      ensures attachments == old(attachments) + files
    {
      attachments := attachments + files;
    }

    /** The document and image pickers (mobile): a picked file is attached at the end; a
        cancelled or failed pick attaches nothing. */
    method Picked(result: Option<F>)
      modifies this`attachments
      ensures result.None? ==> attachments == old(attachments)
      ensures result.Some? ==> attachments == old(attachments) + [result.value]
    {
      if result.Some? {
        attachments := attachments + [result.value];
      }
    }

    /** `removeAttachment(index)` */
    method RemoveAttachment(index: int)
      modifies this`attachments
      ensures attachments == RemoveAt(old(attachments), index)
    {
      attachments := RemoveAt(attachments, index);
    }
  }

  /** One step of the typing protocol keeps it: a "started" at any time, a "stopped" only
      while the timer of a "started" is pending. */
  lemma TimerStepKeepsProtocol(calls: seq<Call>, c: Call, armed: bool)
    requires StopsFollowStarts(calls)
    requires armed ==> |calls| > 0 && calls[|calls| - 1] == StartTyping
    requires c == StopTyping ==> armed
    ensures StopsFollowStarts(calls + [c])
  {
    var n := calls + [c];
    forall i | 0 <= i < |n| && n[i] == StopTyping
      ensures i > 0 && n[i - 1] == StartTyping
    {
      if i < |calls| {
        assert n[i] == calls[i];
      }
    }
  }

  /** Something is sent exactly when the text has a non-blank character or there is an
      attachment. */
  lemma SendGate<F>(message: string, attachments: seq<F>)
    ensures Outgoing(message, attachments).Some? <==>
      (exists i :: 0 <= i < |message| && !IsSpace(message[i])) || |attachments| > 0
  {
    TrimEmptyIffBlank(message);
  }

  /** Removing an attachment keeps the others in their order, one fewer, and removing the
      one just attached gives the list back. */
  lemma {:induction false} RemoveKeepsOrder<F>(s: seq<F>, index: int, f: F)
    ensures 0 <= index < |s| ==> (
      |RemoveAt(s, index)| == |s| - 1
      && (forall j :: 0 <= j < index ==> RemoveAt(s, index)[j] == s[j])
      && (forall j :: index <= j < |s| - 1 ==> RemoveAt(s, index)[j] == s[j + 1]))
    ensures RemoveAt(s + [f], |s|) == s
  {
    assert (s + [f])[..|s|] == s;
  }
}
