/** The client's outgoing message retry queue (the shared `MessageQueue`): messages wait in
    arrival order, only the oldest is attempted, and it leaves the queue only once the
    WebSocket service has taken it. */
module MessageQueue {
  import opened Common
  import opened MessageModel
  import opened WebSocketClient

  /** A message handed to `add`. */
  datatype Outgoing = Outgoing(groupId: string, content: string, attachments: Option<seq<Attachment>>)

  /** A queued message: the caller's fields plus the id, timestamp and status `add` gives it. */
  datatype Entry = Entry(groupId: string, content: string, attachments: Option<seq<Attachment>>, id: string, timestamp: int, status: string)

  /** The entry `add` queues at time `now`: id is the time's decimal text, status 'pending'. */
  function Pending(m: Outgoing, now: nat): (e: Entry)
    ensures e.status == "pending" && e.timestamp == now && e.id == IdText(now) && DigitsValue(e.id) == now
    ensures e.groupId == m.groupId && e.content == m.content && e.attachments == m.attachments
  {
    IdTextRoundTrip(now);
    Entry(m.groupId, m.content, m.attachments, IdText(now), now, "pending")
  }

  /** One attempt on the queue: the head leaves iff it was delivered; nothing else moves. */
  function Attempt(q: seq<Entry>, delivered: bool): (r: seq<Entry>)
    ensures q == [] || !delivered ==> r == q
    ensures q != [] && delivered ==> [q[0]] + r == q
  {
    if q != [] && delivered then q[1..] else q
  }

  /** A run of attempts with the given delivery outcomes: the messages delivered and the
      queue left. Delivered messages are a prefix of the queue, in queue order. */
  function Drain(q: seq<Entry>, outcomes: seq<bool>): (r: (seq<Entry>, seq<Entry>))
    ensures r.0 + r.1 == q
    ensures |r.0| <= |outcomes|
    decreases |outcomes|
  {
    if outcomes == [] then ([], q)
    else
      var left := Attempt(q, outcomes[0]);
      var rest := Drain(left, outcomes[1..]);
      if q != [] && outcomes[0] then
        assert ([q[0]] + rest.0) + rest.1 == [q[0]] + left;
        ([q[0]] + rest.0, rest.1)
      else rest
  }

  /** A message added behind others is delivered only after every one of them. */
  lemma AddedWaitsItsTurn(q: seq<Entry>, e: Entry, outcomes: seq<bool>)
    ensures var d := Drain(q + [e], outcomes).0;
      |d| <= |q| ==> d == q[..|d|]
    ensures var d := Drain(q + [e], outcomes).0;
      |d| > |q| ==> d == q + [e]
  {
    var r := Drain(q + [e], outcomes);
    assert r.0 + r.1 == q + [e];
    if |r.0| <= |q| {
      assert r.0 == (q + [e])[..|r.0|];
    } else {
      assert |r.0| <= |q + [e]|;
      assert r.0 == (r.0 + r.1)[..|r.0|];
    }
  }

  class Queue {
    var queue: seq<Entry>
    var isProcessing: bool

    constructor ()
      ensures queue == [] && !isProcessing
    {
      queue := [];
      isProcessing := false;
    }

    /** `sendMessage(message)`: hands the message to the service iff it reports a
        connection, and says whether it did. */
    method SendMessage(e: Entry, ws: Service) returns (ok: bool)
      requires ws.Valid()
      modifies ws`sent
      ensures ws.Valid()
      ensures ok == ws.isConnected
      ensures !ok ==> ws.sent == old(ws.sent)
      ensures ok ==> ws.socket.Some?
      ensures ok ==> ws.sent == old(ws.sent) + [Frame(ws.socket.value, e.groupId, e.content, if e.attachments.Some? then e.attachments.value else [], None)]
    {
      if !ws.isConnected {
        return false;
      }
      ws.SendMessage(e.groupId, e.content, Some(if e.attachments.Some? then e.attachments.value else []), None);
      ok := true;
    }

    /** `processQueue()`: attempts the head once, unless an attempt is under way or the
        queue is empty; `retry` says whether the one-second retry timer is set. */
    method ProcessQueue(ws: Service) returns (retry: bool)
      requires ws.Valid()
      modifies this`queue, this`isProcessing, ws`sent
      ensures ws.Valid()
      ensures old(isProcessing) || old(queue) == [] ==>
        queue == old(queue) && isProcessing == old(isProcessing) && ws.sent == old(ws.sent) && !retry
      ensures !old(isProcessing) && old(queue) != [] ==>
        !isProcessing
        && queue == Attempt(old(queue), ws.isConnected)
        && retry == (queue != [])
        && (ws.isConnected ==> ws.socket.Some? && ws.sent == old(ws.sent) + [Frame(ws.socket.value, old(queue)[0].groupId, old(queue)[0].content,
          if old(queue)[0].attachments.Some? then old(queue)[0].attachments.value else [], None)])
        && (!ws.isConnected ==> ws.sent == old(ws.sent))
    {
      if isProcessing || |queue| == 0 {
        return false;
      }
      isProcessing := true;
      var success := SendMessage(queue[0], ws);
      if success {
        queue := queue[1..];
      }
      isProcessing := false;
      retry := |queue| > 0;
    }

    /** `add(message)`: queues the message as pending at the back, then processes the queue. */
    method Add(m: Outgoing, now: nat, ws: Service) returns (retry: bool)
      requires ws.Valid()
      modifies this`queue, this`isProcessing, ws`sent
      ensures ws.Valid()
      ensures old(isProcessing) ==> queue == old(queue) + [Pending(m, now)] && ws.sent == old(ws.sent) && isProcessing
      ensures !old(isProcessing) ==> !isProcessing && queue == Attempt(old(queue) + [Pending(m, now)], ws.isConnected) && retry == (queue != [])
      ensures !old(isProcessing) && ws.isConnected ==>
        var head := (old(queue) + [Pending(m, now)])[0];
        ws.socket.Some? && ws.sent == old(ws.sent) + [Frame(ws.socket.value, head.groupId, head.content,
          if head.attachments.Some? then head.attachments.value else [], None)]
      ensures !ws.isConnected ==> ws.sent == old(ws.sent)
    {
      queue := queue + [Pending(m, now)];
      retry := ProcessQueue(ws);
    }

    /** `clearQueue()` */
    method ClearQueue()
      modifies this`queue
      ensures queue == []
    {
      queue := [];
    }
  }
}
