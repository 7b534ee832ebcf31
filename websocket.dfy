/** The client's WebSocket service (the shared `WebSocketService`): one socket at a time, a
    connection flag kept by the socket's own events, and a registry of handlers per event
    name that the service calls when it re-emits an event. */
module WebSocketClient {
  import opened Common
  import opened MessageModel

  /** A registered handler, by identity. */
  type Handler = nat

  /** A `message:send` frame written to socket number `socket`. */
  datatype Frame = Frame(socket: nat, groupId: string, content: string, attachments: seq<Attachment>, tempId: Option<string>)

  /** No handler is listed twice. */
  predicate NoDup(hs: seq<Handler>)
  {
    forall i, j :: 0 <= i < j < |hs| ==> hs[i] != hs[j]
  }

  /** `set.add(h)` on an insertion-ordered set. */
  function AddHandler(hs: seq<Handler>, h: Handler): (r: seq<Handler>)
    ensures h in r
    ensures forall g :: g in r <==> g in hs || g == h
    ensures h in hs ==> r == hs
    ensures h !in hs ==> r == hs + [h]
    ensures NoDup(hs) ==> NoDup(r)
  {
    if h in hs then hs else hs + [h]
  }

  /** `set.delete(h)`: drops `h` and keeps the others in their order. */
  function RemoveHandler(hs: seq<Handler>, h: Handler): (r: seq<Handler>)
    ensures h !in r
    ensures forall g :: g in r <==> g in hs && g != h
    ensures h !in hs ==> r == hs
    ensures NoDup(hs) ==> NoDup(r)
    ensures |r| <= |hs|
  {
    if hs == [] then []
    else
      assert forall j :: 0 < j < |hs| ==> hs[j] == hs[1..][j - 1];
      if hs[0] == h then RemoveHandler(hs[1..], h)
      else
        var rest := RemoveHandler(hs[1..], h);
        assert NoDup(hs) ==> hs[0] !in hs[1..];
        NoDupCons(hs[0], rest);
        [hs[0]] + rest
  }

  lemma NoDupCons(x: Handler, hs: seq<Handler>)
    ensures NoDup(hs) && x !in hs ==> NoDup([x] + hs)
  {
    if NoDup(hs) && x !in hs {
      forall i, j | 0 <= i < j < |[x] + hs|
        ensures ([x] + hs)[i] != ([x] + hs)[j]
      {
        if i == 0 {
          assert ([x] + hs)[j] == hs[j - 1];
        }
      }
    }
  }

  /** Removing a handler just registered gives back the list it was added to. */
  lemma {:induction false} RemoveUndoesAdd(hs: seq<Handler>, h: Handler)
    requires h !in hs
    ensures RemoveHandler(AddHandler(hs, h), h) == hs
  {
    RemoveAbsentAppended(hs, h);
  }

  lemma {:induction false} RemoveAbsentAppended(hs: seq<Handler>, h: Handler)
    requires h !in hs
    ensures RemoveHandler(hs + [h], h) == hs
  {
    if hs != [] {
      assert (hs + [h])[1..] == hs[1..] + [h];
      RemoveAbsentAppended(hs[1..], h);
    }
  }

  class Service {
    /** The live socket, by number, or none (`this.socket`). */
    var socket: Option<nat>
    var isConnected: bool
    var eventHandlers: map<string, seq<Handler>>
    /** The token each socket opened so far was created with; socket `i` used `auths[i]`. */
    var auths: seq<string>
    /** Sockets closed by `disconnect`, in order. */
    var closed: seq<nat>
    /** `message:send` frames written, in order. */
    var sent: seq<Frame>

    /** No socket means not connected, and no handler is registered twice for an event. */
    ghost predicate Valid()
      reads this
    {
      (socket.None? ==> !isConnected)
      && (socket.Some? ==> socket.value < |auths|)
      && forall e :: e in eventHandlers ==> NoDup(eventHandlers[e])
    }

    /** The handlers registered for `e`, in registration order. */
    function Handlers(e: string): seq<Handler>
      reads this
    {
      if e in eventHandlers then eventHandlers[e] else []
    }

    constructor ()
      ensures Valid()
      ensures socket == None && !isConnected && eventHandlers == map[]
      ensures auths == [] && closed == [] && sent == []
    {
      socket := None;
      isConnected := false;
      eventHandlers := map[];
      auths := [];
      closed := [];
      sent := [];
    }

    /** `on(event, handler)` */
    method On(e: string, h: Handler)
      requires Valid()
      modifies this`eventHandlers
      ensures Valid()
      ensures eventHandlers == old(eventHandlers)[e := AddHandler(old(Handlers(e)), h)]
    {
      eventHandlers := eventHandlers[e := AddHandler(Handlers(e), h)];
    }

    /** `off(event, handler)`: nothing happens for an event never registered. */
    method Off(e: string, h: Handler)
      requires Valid()
      modifies this`eventHandlers
      ensures Valid()
      ensures e !in old(eventHandlers) ==> eventHandlers == old(eventHandlers)
      ensures e in old(eventHandlers) ==> eventHandlers == old(eventHandlers)[e := RemoveHandler(old(eventHandlers)[e], h)]
    {
      if e in eventHandlers {
        eventHandlers := eventHandlers[e := RemoveHandler(eventHandlers[e], h)];
      }
    }

    /** `emit(event, data)`: the handlers called, in order; each registered one exactly once. */
    method Emit(e: string) returns (calls: seq<Handler>)
      requires Valid()
      ensures calls == Handlers(e)
      ensures NoDup(calls)
      ensures forall h :: h in calls <==> h in Handlers(e)
    {
      calls := [];
      if e in eventHandlers {
        var hs := eventHandlers[e];
        var i := 0;
        while i < |hs|
          invariant 0 <= i <= |hs|
          invariant calls == hs[..i]
        {
          calls := calls + [hs[i]];
          i := i + 1;
        }
        assert hs[..|hs|] == hs;
      }
    }

    /** `disconnect()`: closes the live socket, if any. */
    method Disconnect()
      requires Valid()
      modifies this`socket, this`isConnected, this`closed
      ensures Valid()
      ensures socket == None && !isConnected
      ensures old(socket).None? ==> closed == old(closed)
      ensures old(socket).Some? ==> closed == old(closed) + [old(socket).value]
    {
      if socket.Some? {
        closed := closed + [socket.value];
        socket := None;
        isConnected := false;
      }
    }

    /** `connect(token)`: closes any live socket first, then opens a fresh one with the token.
        The new socket counts as connected only once it reports `connect`. */
    method Connect(token: string)
      requires Valid()
      modifies this`socket, this`isConnected, this`closed, this`auths
      ensures Valid()
      ensures socket == Some(|old(auths)|) && auths == old(auths) + [token]
      ensures !isConnected
      ensures old(socket).None? ==> closed == old(closed)
      ensures old(socket).Some? ==> closed == old(closed) + [old(socket).value]
    {
      if socket.Some? {
        Disconnect();
      }
      socket := Some(|auths|);
      auths := auths + [token];
    }

    /** An event reported by the live socket: `connect` and `disconnect` set the flag and
        are re-emitted as `connection:established` and `connection:lost`; the relayed
        events are re-emitted under their own name; anything else has no listener. */
    method SocketEvent(name: string) returns (calls: seq<Handler>)
      requires Valid() && socket.Some?
      modifies this`isConnected
      ensures Valid()
      ensures name == "connect" ==> isConnected && calls == Handlers("connection:established")
      ensures name == "disconnect" ==> !isConnected && calls == Handlers("connection:lost")
      ensures name != "connect" && name != "disconnect" ==> isConnected == old(isConnected)
      ensures name in Relayed ==> calls == Handlers(name)
      ensures name !in Relayed && name != "connect" && name != "disconnect" ==> calls == []
    {
      if name == "connect" {
        isConnected := true;
        calls := Emit("connection:established");
      } else if name == "disconnect" {
        isConnected := false;
        calls := Emit("connection:lost");
      } else if name in Relayed {
        calls := Emit(name);
      } else {
        calls := [];
      }
    }

    /** `sendMessage(groupId, content, attachments = [], tempId = null)`: a frame only when
        a socket exists, connected or not. */
    method SendMessage(groupId: string, content: string, attachments: Option<seq<Attachment>>, tempId: Option<string>)
      requires Valid()
      modifies this`sent
      ensures Valid()
      ensures old(socket).None? ==> sent == old(sent)
      ensures old(socket).Some? ==>
        sent == old(sent) + [Frame(socket.value, groupId, content, if attachments.Some? then attachments.value else [], tempId)]
    {
      if socket.Some? {
        sent := sent + [Frame(socket.value, groupId, content, if attachments.Some? then attachments.value else [], tempId)];
      }
    }
  }

  /** The socket events re-emitted to handlers under their own name. */
  const Relayed: set<string> := {
    "error", "message:received", "message:sent", "typing:started", "typing:stopped",
    "group:joined", "group:left", "group:member-joined", "group:member-left",
    "notification:new", "notification:unread-count" }

  /** Registering, emitting and unregistering one handler: it is called exactly once while
      registered, however often it was registered, and not at all after `off`. */
  lemma HandlerLifecycle(hs: seq<Handler>, h: Handler)
    requires NoDup(hs)
    ensures var once := AddHandler(hs, h);
      AddHandler(once, h) == once
      && |set i | 0 <= i < |once| && once[i] == h| == 1
      && h !in RemoveHandler(AddHandler(once, h), h)
  {
    var once := AddHandler(hs, h);
    var k :| 0 <= k < |once| && once[k] == h;
    assert (set i | 0 <= i < |once| && once[i] == h) == {k};
  }
}
