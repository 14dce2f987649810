/** The dashboard's realtime connection manager (`frontend/src/api/websocket.js`).

    The manager owns the current socket, at most one pending reconnect interval
    and two handler sets. The browser is modelled explicitly: every socket ever
    constructed is an entry of `sockets` (its index is its identity), the
    intervals the browser keeps alive are `liveTimers`, and the transport's
    events (open, message, error, close, an interval firing) are methods that
    the environment may call whenever the socket's ready state allows them.
    Handlers are function identities (`nat`); what a handler does is not
    modelled, only that it was called and whether it threw. `JSON.parse` and
    `JSON.stringify` are parameters. */
module Realtime {
  import opened Base

  /** A JSON value as produced by `JSON.parse`. */
  datatype Json =
    | JNull
    | JBool(b: bool)
    | JNumber(n: real)
    | JString(s: string)
    | JArray(items: seq<Json>)
    | JObject(fields: seq<(string, Json)>)

  /** Milliseconds between reconnect attempts; there is no backoff and no cap. */
  const ReconnectIntervalMs: nat := 5000

  /** The `readyState` of a browser socket. */
  datatype ReadyState = Connecting | Open | Closing | Closed

  /** What a notification passes to each handler. */
  datatype Event = ConnectionChanged(connected: bool) | Message(data: Json)

  /** One call of one registered handler. */
  datatype Delivery = Delivery(handler: nat, event: Event)

  /** The console lines the manager writes. */
  datatype LogEntry =
    | ConnectedLog
    | DisconnectedLog
    | SocketErrorLog
    | ParseFailedLog
    | CreateFailedLog
    | ReconnectingLog
    | NotConnectedLog
    | HandlerFailed(handler: nat, event: Event)

  /** The remover returned by `onMessage` / `onConnectionChange`. */
  datatype Subscription = MessageSubscription(handler: nat) | ConnectionSubscription(handler: nat)

  /** No handler occurs twice: the sequence is a JavaScript `Set` in insertion order. */
  predicate NoDup(s: seq<nat>)
  {
    forall i, j :: 0 <= i < j < |s| ==> s[i] != s[j]
  }

  /** `Set.prototype.add`: appends `h` unless it is already present. */
  function AddHandler(hs: seq<nat>, h: nat): (r: seq<nat>)
    ensures NoDup(hs) ==> NoDup(r)
    ensures forall x :: x in r <==> x in hs || x == h
    ensures |r| == if h in hs then |hs| else |hs| + 1
  {
    if h in hs then hs else hs + [h]
  }

  lemma NoDupTail(hs: seq<nat>)
    requires hs != [] && NoDup(hs)
    ensures NoDup(hs[1..]) && hs[0] !in hs[1..]
  {
    forall i, j | 0 <= i < j < |hs| - 1 ensures hs[1..][i] != hs[1..][j] {
      assert hs[i + 1] != hs[j + 1];
    }
    forall k | 0 <= k < |hs| - 1 ensures hs[1..][k] != hs[0] {
      assert hs[0] != hs[k + 1];
    }
  }

  lemma NoDupCons(x: nat, t: seq<nat>)
    requires NoDup(t) && x !in t
    ensures NoDup([x] + t)
  {
    var s := [x] + t;
    forall i, j | 0 <= i < j < |s| ensures s[i] != s[j] {
      assert s[j] == t[j - 1];
      if i > 0 {
        assert s[i] == t[i - 1];
      }
    }
  }

  /** `Set.prototype.delete`: removes `h` and keeps the order of the rest. */
  function RemoveHandler(hs: seq<nat>, h: nat): (r: seq<nat>)
    ensures forall x :: x in r <==> x in hs && x != h
    ensures |r| <= |hs|
  {
    if hs == [] then []
    else if hs[0] == h then RemoveHandler(hs[1..], h)
    else [hs[0]] + RemoveHandler(hs[1..], h)
  }

  /** Removing a handler from a set keeps it free of duplicates. */
  lemma {:induction false} RemoveHandlerNoDup(hs: seq<nat>, h: nat)
    requires NoDup(hs)
    ensures NoDup(RemoveHandler(hs, h))
    decreases |hs|
  {
    if hs != [] {
      NoDupTail(hs);
      RemoveHandlerNoDup(hs[1..], h);
      if hs[0] != h {
        NoDupCons(hs[0], RemoveHandler(hs[1..], h));
      }
    }
  }

  /** Registering the same handler twice is one registration. */
  lemma AddHandlerIdempotent(hs: seq<nat>, h: nat)
    ensures AddHandler(AddHandler(hs, h), h) == AddHandler(hs, h)
  {
  }

  lemma {:induction false} RemoveAbsent(hs: seq<nat>, h: nat)
    requires h !in hs
    ensures RemoveHandler(hs, h) == hs
  {
    if hs != [] {
      RemoveAbsent(hs[1..], h);
    }
  }

  /** Removing a handler from a set that holds it once takes out exactly that
      element and keeps the others in order. */
  lemma {:induction false} RemoveExactly(a: seq<nat>, h: nat, b: seq<nat>)
    requires NoDup(a + [h] + b)
    ensures RemoveHandler(a + [h] + b, h) == a + b
  {
    var hs := a + [h] + b;
    NoDupTail(hs);
    if a == [] {
      assert hs[1..] == b;
      RemoveAbsent(b, h);
    } else {
      assert hs[1..] == a[1..] + [h] + b;
      assert hs[0] == a[0] && h in hs[1..];
      RemoveExactly(a[1..], h, b);
      assert [a[0]] + (a[1..] + b) == a + b;
    }
  }

  /** The remover returned for a fresh handler undoes its registration. */
  lemma RemoveUndoesAdd(hs: seq<nat>, h: nat)
    requires NoDup(hs) && h !in hs
    ensures RemoveHandler(AddHandler(hs, h), h) == hs
  {
    assert AddHandler(hs, h) == hs + [h] + [];
    RemoveExactly(hs, h, []);
    assert hs + [] == hs;
  }

  /** The calls made by one notification: each handler once, in set order. */
  function Deliveries(hs: seq<nat>, e: Event): (r: seq<Delivery>)
    ensures |r| == |hs|
  {
    if hs == [] then [] else Deliveries(hs[..|hs| - 1], e) + [Delivery(hs[|hs| - 1], e)]
  }

  lemma DeliveriesOfOne(h: nat, e: Event)
    ensures Deliveries([h], e) == [Delivery(h, e)]
  {
    assert [h][..0] == [];
  }

  /** A notification calls every registered handler exactly once, in order,
      whether or not an earlier one threw. */
  lemma {:induction false} DeliveriesEach(hs: seq<nat>, e: Event)
    ensures forall i :: 0 <= i < |hs| ==> Deliveries(hs, e)[i] == Delivery(hs[i], e)
  {
    if hs != [] {
      DeliveriesEach(hs[..|hs| - 1], e);
    }
  }

  /** The error lines of one notification: one per handler that threw. */
  function FailureLog(hs: seq<nat>, e: Event, fails: nat -> bool): (r: seq<LogEntry>)
    ensures |r| <= |hs|
  {
    if hs == [] then []
    else
      var last := hs[|hs| - 1];
      FailureLog(hs[..|hs| - 1], e, fails) + (if fails(last) then [HandlerFailed(last, e)] else [])
  }

  /** Every error line names a handler of the notification that threw, with the
      event it was given; when no handler throws, nothing is written. */
  lemma {:induction false} FailureLogEntries(hs: seq<nat>, e: Event, fails: nat -> bool)
    ensures forall i :: 0 <= i < |FailureLog(hs, e, fails)| ==>
      var entry := FailureLog(hs, e, fails)[i];
      entry.HandlerFailed? && entry.handler in hs && fails(entry.handler) && entry.event == e
    ensures (forall i :: 0 <= i < |hs| ==> !fails(hs[i])) ==> FailureLog(hs, e, fails) == []
  {
    if hs != [] {
      var front := hs[..|hs| - 1];
      FailureLogEntries(front, e, fails);
      forall h | h in front
        ensures h in hs
      {
        var k :| 0 <= k < |front| && front[k] == h;
        assert hs[k] == h;
      }
    }
  }

  /** The effect of `ws.close()` on a socket's ready state. */
  function AfterCloseCall(s: ReadyState): ReadyState
  {
    if s == Connecting || s == Open then Closing else s
  }

  class WebSocketManager {
    const url: string
    /** Every socket constructed so far; `ws` indexes the current one. */
    var sockets: seq<ReadyState>
    var ws: Option<nat>
    var reconnectTimer: Option<nat>
    /** The intervals the browser keeps firing. */
    var liveTimers: set<nat>
    /** The id the browser gives the next interval (ids are positive). */
    var nextTimerId: nat
    var messageHandlers: seq<nat>
    var connectionHandlers: seq<nat>
    /** Every handler call made so far. */
    var deliveries: seq<Delivery>
    /** Every frame written, with the index of the socket it was written to. */
    var sent: seq<(nat, string)>
    var log: seq<LogEntry>

    /** At most one interval is alive, and it is the one `reconnectTimer` names. */
    ghost predicate Valid()
      reads this
    {
      && (ws.Some? ==> ws.value < |sockets|)
      && 1 <= nextTimerId
      && (reconnectTimer.Some? ==> 1 <= reconnectTimer.value < nextTimerId)
      && liveTimers == (if reconnectTimer.Some? then {reconnectTimer.value} else {})
      && NoDup(messageHandlers)
      && NoDup(connectionHandlers)
    }

    /** `this.ws && this.ws.readyState === WebSocket.OPEN`. */
    predicate IsOpen()
      reads this
    {
      ws.Some? && ws.value < |sockets| && sockets[ws.value] == Open
    }

    constructor (url: string)
      ensures Valid()
      ensures this.url == url && sockets == [] && ws == None
      ensures reconnectTimer == None && liveTimers == {}
      ensures messageHandlers == [] && connectionHandlers == []
      ensures deliveries == [] && sent == [] && log == []
    {
      this.url := url;
      sockets := [];
      ws := None;
      reconnectTimer := None;
      liveTimers := {};
      nextTimerId := 1;
      messageHandlers := [];
      connectionHandlers := [];
      deliveries := [];
      sent := [];
      log := [];
    }

    /** Opens a new socket unless the current one is open. `createFails`
        says whether the `WebSocket` constructor throws. */
    method Connect(createFails: bool)
      requires Valid()
      modifies this`sockets, this`ws, this`reconnectTimer, this`liveTimers, this`nextTimerId, this`log
      ensures Valid()
      ensures old(IsOpen()) ==>
        sockets == old(sockets) && ws == old(ws) && reconnectTimer == old(reconnectTimer)
        && liveTimers == old(liveTimers) && log == old(log)
      ensures !old(IsOpen()) && !createFails ==>
        sockets == old(sockets) + [Connecting] && ws == Some(|old(sockets)|)
        && reconnectTimer == old(reconnectTimer) && liveTimers == old(liveTimers) && log == old(log)
      ensures !old(IsOpen()) && createFails ==>
        sockets == old(sockets) && ws == old(ws) && reconnectTimer.Some?
        && (old(reconnectTimer).Some? ==> reconnectTimer == old(reconnectTimer))
        && log == old(log) + [CreateFailedLog]
    {
      if IsOpen() {
        return;
      }
      if createFails {
        log := log + [CreateFailedLog];
        StartReconnect();
      } else {
        sockets := sockets + [Connecting];
        ws := Some(|sockets| - 1);
      }
    }

    /** Clears the interval and closes and forgets the current socket. */
    method Disconnect()
      requires Valid()
      modifies this`sockets, this`ws, this`reconnectTimer, this`liveTimers
      ensures Valid()
      ensures ws == None && reconnectTimer == None && liveTimers == {}
      ensures old(ws).Some? ==>
        sockets == old(sockets)[old(ws).value := AfterCloseCall(old(sockets)[old(ws).value])]
      ensures old(ws).None? ==> sockets == old(sockets)
    {
      if reconnectTimer.Some? {
        liveTimers := liveTimers - {reconnectTimer.value};
        reconnectTimer := None;
      }
      if ws.Some? {
        sockets := sockets[ws.value := AfterCloseCall(sockets[ws.value])];
        ws := None;
      }
    }

    /** Installs the reconnect interval unless one is already pending. */
    method StartReconnect()
      requires Valid()
      modifies this`reconnectTimer, this`liveTimers, this`nextTimerId
      ensures Valid()
      ensures reconnectTimer.Some?
      ensures old(reconnectTimer).Some? ==>
        reconnectTimer == old(reconnectTimer) && liveTimers == old(liveTimers)
        && nextTimerId == old(nextTimerId)
      ensures old(reconnectTimer).None? ==>
        reconnectTimer == Some(old(nextTimerId)) && liveTimers == {old(nextTimerId)}
        && nextTimerId == old(nextTimerId) + 1
    {
      if reconnectTimer.None? {
        reconnectTimer := Some(nextTimerId);
        liveTimers := {nextTimerId};
        nextTimerId := nextTimerId + 1;
      }
    }

    /** `onMessage(handler)`: registers the handler and hands back its remover. */
    method OnMessage(h: nat) returns (u: Subscription)
      requires Valid()
      modifies this`messageHandlers
      ensures Valid()
      ensures messageHandlers == AddHandler(old(messageHandlers), h)
      ensures u == MessageSubscription(h)
    {
      messageHandlers := AddHandler(messageHandlers, h);
      u := MessageSubscription(h);
    }

    /** `onConnectionChange(handler)`: registers the handler and hands back its remover. */
    method OnConnectionChange(h: nat) returns (u: Subscription)
      requires Valid()
      modifies this`connectionHandlers
      ensures Valid()
      ensures connectionHandlers == AddHandler(old(connectionHandlers), h)
      ensures u == ConnectionSubscription(h)
    {
      connectionHandlers := AddHandler(connectionHandlers, h);
      u := ConnectionSubscription(h);
    }

    /** Calling a remover deletes exactly its handler from its own set. */
    method Unsubscribe(u: Subscription)
      requires Valid()
      modifies this`messageHandlers, this`connectionHandlers
      ensures Valid()
      ensures u.MessageSubscription? ==>
        messageHandlers == RemoveHandler(old(messageHandlers), u.handler)
        && connectionHandlers == old(connectionHandlers)
      ensures u.ConnectionSubscription? ==>
        connectionHandlers == RemoveHandler(old(connectionHandlers), u.handler)
        && messageHandlers == old(messageHandlers)
    {
      match u
      case MessageSubscription(h) =>
        RemoveHandlerNoDup(messageHandlers, h);
        messageHandlers := RemoveHandler(messageHandlers, h);
      case ConnectionSubscription(h) =>
        RemoveHandlerNoDup(connectionHandlers, h);
        connectionHandlers := RemoveHandler(connectionHandlers, h);
    }

    /** Calls every message handler with `data`; `fails` says which ones throw. */
    method NotifyMessageHandlers(data: Json, fails: nat -> bool)
      requires Valid()
      modifies this`deliveries, this`log
      ensures Valid()
      ensures deliveries == old(deliveries) + Deliveries(messageHandlers, Message(data))
      ensures log == old(log) + FailureLog(messageHandlers, Message(data), fails)
    {
      var hs := messageHandlers;
      var e := Message(data);
      var i := 0;
      while i < |hs|
        invariant 0 <= i <= |hs|
        invariant deliveries == old(deliveries) + Deliveries(hs[..i], e)
        invariant log == old(log) + FailureLog(hs[..i], e, fails)
      {
        assert hs[..i + 1][..i] == hs[..i];
        deliveries := deliveries + [Delivery(hs[i], e)];
        if fails(hs[i]) {
          log := log + [HandlerFailed(hs[i], e)];
        }
        i := i + 1;
      }
      assert hs[..i] == hs;
    }

    /** Calls every connection handler with `connected`; `fails` says which ones throw. */
    method NotifyConnectionHandlers(connected: bool, fails: nat -> bool)
      requires Valid()
      modifies this`deliveries, this`log
      ensures Valid()
      ensures deliveries == old(deliveries) + Deliveries(connectionHandlers, ConnectionChanged(connected))
      ensures log == old(log) + FailureLog(connectionHandlers, ConnectionChanged(connected), fails)
    {
      var hs := connectionHandlers;
      var e := ConnectionChanged(connected);
      var i := 0;
      while i < |hs|
        invariant 0 <= i <= |hs|
        invariant deliveries == old(deliveries) + Deliveries(hs[..i], e)
        invariant log == old(log) + FailureLog(hs[..i], e, fails)
      {
        assert hs[..i + 1][..i] == hs[..i];
        deliveries := deliveries + [Delivery(hs[i], e)];
        if fails(hs[i]) {
          log := log + [HandlerFailed(hs[i], e)];
        }
        i := i + 1;
      }
      assert hs[..i] == hs;
    }

    /** Writes `stringify(data)` to the socket if it is open; otherwise only warns. */
    method Send(data: Json, stringify: Json -> string)
      requires Valid()
      modifies this`sent, this`log
      ensures Valid()
      ensures old(IsOpen()) ==> sent == old(sent) + [(ws.value, stringify(data))] && log == old(log)
      ensures !old(IsOpen()) ==> sent == old(sent) && log == old(log) + [NotConnectedLog]
    {
      if IsOpen() {
        sent := sent + [(ws.value, stringify(data))];
      } else {
        log := log + [NotConnectedLog];
      }
    }

    /** The `open` event of socket `i`: the pending interval is cleared, then
        every connection handler hears `true`. */
    method HandleOpen(i: nat, fails: nat -> bool)
      requires Valid() && i < |sockets| && sockets[i] == Connecting
      modifies this`sockets, this`reconnectTimer, this`liveTimers, this`deliveries, this`log
      ensures Valid()
      ensures sockets == old(sockets)[i := Open]
      ensures reconnectTimer == None && liveTimers == {}
      ensures deliveries == old(deliveries) + Deliveries(connectionHandlers, ConnectionChanged(true))
      ensures log == old(log) + [ConnectedLog] + FailureLog(connectionHandlers, ConnectionChanged(true), fails)
    {
      sockets := sockets[i := Open];
      log := log + [ConnectedLog];
      if reconnectTimer.Some? {
        liveTimers := liveTimers - {reconnectTimer.value};
        reconnectTimer := None;
      }
      NotifyConnectionHandlers(true, fails);
    }

    /** The `message` event of socket `i`: only a frame that parses reaches the handlers. */
    method HandleMessage(i: nat, text: string, parse: string -> Option<Json>, fails: nat -> bool)
      requires Valid() && i < |sockets| && sockets[i] == Open
      modifies this`deliveries, this`log
      ensures Valid()
      ensures parse(text).Some? ==>
        deliveries == old(deliveries) + Deliveries(messageHandlers, Message(parse(text).value))
        && log == old(log) + FailureLog(messageHandlers, Message(parse(text).value), fails)
      ensures parse(text).None? ==> deliveries == old(deliveries) && log == old(log) + [ParseFailedLog]
    {
      var parsed := parse(text);
      if parsed.Some? {
        NotifyMessageHandlers(parsed.value, fails);
      } else {
        log := log + [ParseFailedLog];
      }
    }

    /** The `error` event of socket `i` is only logged. */
    method HandleError(i: nat)
      requires Valid() && i < |sockets|
      modifies this`log
      ensures Valid()
      ensures log == old(log) + [SocketErrorLog]
    {
      log := log + [SocketErrorLog];
    }

    /** The `close` event of socket `i`: every connection handler hears `false`,
        then the reconnect interval is installed if none is pending. Nothing
        records that `Disconnect` was called, so a close that arrives after it
        re-arms reconnection as well. */
    method HandleClose(i: nat, fails: nat -> bool)
      requires Valid() && i < |sockets| && sockets[i] != Closed
      modifies this`sockets, this`reconnectTimer, this`liveTimers, this`nextTimerId, this`deliveries, this`log
      ensures Valid()
      ensures sockets == old(sockets)[i := Closed]
      ensures deliveries == old(deliveries) + Deliveries(connectionHandlers, ConnectionChanged(false))
      ensures log == old(log) + [DisconnectedLog] + FailureLog(connectionHandlers, ConnectionChanged(false), fails)
      ensures reconnectTimer.Some?
      ensures old(reconnectTimer).Some? ==> reconnectTimer == old(reconnectTimer)
    {
      sockets := sockets[i := Closed];
      log := log + [DisconnectedLog];
      NotifyConnectionHandlers(false, fails);
      StartReconnect();
    }

    /** The pending interval fires: the manager tries to connect again. */
    method HandleTimer(createFails: bool)
      requires Valid() && reconnectTimer.Some?
      modifies this`sockets, this`ws, this`reconnectTimer, this`liveTimers, this`nextTimerId, this`log
      ensures Valid()
      ensures reconnectTimer == old(reconnectTimer)
      ensures !old(IsOpen()) && !createFails ==>
        sockets == old(sockets) + [Connecting] && ws == Some(|old(sockets)|)
      ensures old(IsOpen()) || createFails ==> sockets == old(sockets) && ws == old(ws)
    {
      log := log + [ReconnectingLog];
      Connect(createFails);
    }
  }

  /** Every handler returns normally. */
  function NoHandlerFails(h: nat): bool
  {
    false
  }

  /** A socket that was connected, then disconnected, still delivers its close
      event, and that event installs a new reconnect interval. */
  method LateCloseAfterDisconnect() returns (rearmed: bool, delivered: seq<Delivery>)
    ensures rearmed
    ensures delivered == [Delivery(7, ConnectionChanged(true)), Delivery(7, ConnectionChanged(false))]
  {
    var m := new WebSocketManager("ws://host/ws/realtime");
    var _ := m.OnConnectionChange(7);
    assert m.connectionHandlers == [7];
    DeliveriesOfOne(7, ConnectionChanged(true));
    DeliveriesOfOne(7, ConnectionChanged(false));
    m.Connect(false);
    assert m.sockets == [Connecting] && m.ws == Some(0);
    m.HandleOpen(0, NoHandlerFails);
    assert m.deliveries == [Delivery(7, ConnectionChanged(true))];
    assert m.sockets == [Open] && m.ws == Some(0);
    m.Disconnect();
    assert m.sockets == [Closing];
    m.HandleClose(0, NoHandlerFails);
    rearmed := m.reconnectTimer.Some?;
    delivered := m.deliveries;
  }
}
