/** The client side of lib/websocket.ts: `WebSocketService`, its handler registry, the
    dispatch of incoming messages, the bounded exponential reconnect counter and the
    connect, send and disconnect guards. The socket itself is simulated in the source;
    here it is its `readyState` and the frames handed to `send`. */
module WebSocketClient {
  import opened Wrappers
  import opened Seqs

  datatype ReadyState = Connecting | Open | Closing | Closed

  /** A `WebSocketMessage`: its `type`, its payload fields, its timestamp and sender. */
  datatype Message = Message(kind: string, payload: map<string, string>, timestamp: int, userId: Option<string>)

  /** A registered callback, identified the way `indexOf` compares functions: by identity. */
  type Handler = nat

  /** The closure `subscribe` returns, as the data it captures. */
  datatype Unsubscriber = Unsubscriber(messageType: string, handler: Handler)

  /** `2^n`. */
  function Pow2(n: nat): (r: nat)
    ensures r >= 1
  {
    if n == 0 then 1 else 2 * Pow2(n - 1)
  }

  const MaxReconnectAttempts: nat := 5
  const ReconnectDelay: nat := 1000

  /** `reconnectDelay * Math.pow(2, attempt - 1)`: the wait before reconnect attempt `attempt`. */
  function BackoffDelay(attempt: nat): nat
    requires attempt >= 1
  {
    ReconnectDelay * Pow2(attempt - 1)
  }

  /** The five delays the source can schedule, and each one doubles the previous. */
  lemma BackoffSchedule()
    ensures BackoffDelay(1) == 1000 && BackoffDelay(2) == 2000 && BackoffDelay(3) == 4000
    ensures BackoffDelay(4) == 8000 && BackoffDelay(5) == 16000
    ensures forall n :: 1 <= n ==> BackoffDelay(n + 1) == 2 * BackoffDelay(n)
  {
    assert Pow2(4) == 16 by {
      assert Pow2(1) == 2 && Pow2(2) == 4 && Pow2(3) == 8;
    }
  }

  /** The `indexOf` test for one handler. */
  function Is(h: Handler): Handler -> bool
  {
    (x: Handler) => x == h
  }

  /** The list with the first occurrence of `h` removed; unchanged when `h` is absent
      (the `indexOf`/`splice` of the unsubscribe closure). */
  function RemoveFirst(s: seq<Handler>, h: Handler): (r: seq<Handler>)
    ensures h !in s ==> r == s
    ensures h in s ==> |r| == |s| - 1 && multiset(r) == multiset(s) - multiset{h}
    ensures h in s ==> exists i :: 0 <= i < |s| && s[i] == h && h !in s[..i] && r == s[..i] + s[i + 1..]
  {
    match FirstIndex(s, Is(h))
    case None => s
    case Some(i) =>
      assert s == s[..i] + [s[i]] + s[i + 1..];
      assert h !in s[..i] by {
        forall j | 0 <= j < i ensures s[..i][j] != h {
          assert !Is(h)(s[j]);
        }
      }
      RemoveAt(s, i)
  }

  /** Unsubscribing right after subscribing a handler that was not yet on the list gives
      the list back; when it was already there, it is its earlier entry that goes. */
  lemma {:induction false} RemoveFirstAfterAppend(s: seq<Handler>, h: Handler)
    ensures h !in s ==> RemoveFirst(s + [h], h) == s
    ensures h in s ==> RemoveFirst(s + [h], h) == RemoveFirst(s, h) + [h]
  {
    var p := Is(h);
    var t := s + [h];
    assert p(t[|s|]);
    var k := FirstIndex(t, p);
    assert k.Some?;
    if h !in s {
      assert k.value == |s|;
    } else {
      var i := FirstIndex(s, p).value;
      assert k.value == i by {
        assert t[i] == s[i];
      }
      assert t[..i] + t[i + 1..] == s[..i] + s[i + 1..] + [h];
    }
  }

  class WebSocketService {
    /** `ws`: null, or the socket's ready state. */
    var ws: Option<ReadyState>
    var handlers: map<string, seq<Handler>>
    var reconnectAttempts: nat
    var isConnecting: bool
    /** The frames handed to `ws.send`, oldest first. */
    var sent: seq<Message>

    ghost predicate Valid()
      reads this
    {
      reconnectAttempts <= MaxReconnectAttempts
    }

    /** The handlers registered for `messageType`, in registration order. */
    function HandlersFor(messageType: string): seq<Handler>
      reads this
    {
      if messageType in handlers then handlers[messageType] else []
    }

    /** `isConnected()`. */
    function IsConnected(): bool
      reads this
    {
      ws == Some(Open)
    }

    /** The service connects as soon as it is created. */
    constructor ()
      ensures Valid() && IsConnected()
      ensures handlers == map[] && reconnectAttempts == 0 && !isConnecting && sent == []
    {
      ws := None;
      handlers := map[];
      reconnectAttempts := 0;
      isConnecting := false;
      sent := [];
      new;
      var _ := Connect(false);
    }

    /** `connect()`. It does nothing while a connection is under way. Otherwise it marks
        one as under way and opens the socket; `transportFails` stands for the socket
        constructor throwing, which the catch answers with `handleReconnect()` (returning
        the delay it scheduled). On success `isConnecting` is cleared and the attempt count
        reset to 0. After a failure `isConnecting` is left set. */
    method Connect(transportFails: bool) returns (scheduled: Option<nat>)
      requires Valid()
      modifies this
      ensures Valid()
      ensures handlers == old(handlers) && sent == old(sent)
      ensures old(isConnecting) || old(ws) == Some(Connecting) ==>
        scheduled.None? && ws == old(ws) && isConnecting == old(isConnecting)
        && reconnectAttempts == old(reconnectAttempts)
      ensures !old(isConnecting) && old(ws) != Some(Connecting) && !transportFails ==>
        scheduled.None? && ws == Some(Open) && !isConnecting && reconnectAttempts == 0
      ensures !old(isConnecting) && old(ws) != Some(Connecting) && transportFails ==>
        ws == old(ws) && isConnecting
        && (old(reconnectAttempts) >= MaxReconnectAttempts ==> scheduled.None? && reconnectAttempts == old(reconnectAttempts))
        && (old(reconnectAttempts) < MaxReconnectAttempts ==>
              reconnectAttempts == old(reconnectAttempts) + 1 && scheduled == Some(BackoffDelay(reconnectAttempts)))
    {
      if isConnecting || ws == Some(Connecting) {
        return None;
      }
      isConnecting := true;
      if transportFails {
        scheduled := HandleReconnect();
      } else {
        ws := Some(Open);
        isConnecting := false;
        reconnectAttempts := 0;
        scheduled := None;
      }
    }

    /** `handleReconnect()`: with 5 attempts used it schedules nothing; otherwise it counts
        one more attempt and returns the delay `1000 * 2^(attempts - 1)` after which
        `connect()` is to be called again. */
    method HandleReconnect() returns (scheduled: Option<nat>)
      requires Valid()
      modifies this`reconnectAttempts
      ensures Valid()
      ensures old(reconnectAttempts) >= MaxReconnectAttempts ==> scheduled.None? && reconnectAttempts == old(reconnectAttempts)
      ensures old(reconnectAttempts) < MaxReconnectAttempts ==>
        reconnectAttempts == old(reconnectAttempts) + 1 && scheduled == Some(BackoffDelay(reconnectAttempts))
    {
      if reconnectAttempts >= MaxReconnectAttempts {
        return None;
      }
      reconnectAttempts := reconnectAttempts + 1;
      scheduled := Some(BackoffDelay(reconnectAttempts));
    }

    /** `handleMessage(message)`: calls every handler registered for the message's type,
        in registration order; `throws(h)` says whether handler `h` throws, and a handler
        that throws is logged and the rest still run. Returns the handlers called and the
        ones that threw. The handlers are assumed not to call back into the service. */
    method HandleMessage(message: Message, throws: Handler -> bool) returns (called: seq<Handler>, failed: seq<Handler>)
      ensures called == HandlersFor(message.kind)
      ensures failed == Filter(HandlersFor(message.kind), throws)
    {
      var list := HandlersFor(message.kind);
      called, failed := [], [];
      var i := 0;
      while i < |list|
        invariant 0 <= i <= |list|
        invariant called == list[..i]
        invariant failed == Filter(list[..i], throws)
      {
        var h := list[i];
        called := called + [h];
        if throws(h) {
          failed := failed + [h];
        }
        FilterAppend(list[..i], [h], throws);
        assert list[..i + 1] == list[..i] + [h];
        i := i + 1;
      }
      assert list[..i] == list;
    }

    /** `subscribe(messageType, handler)`: appends the handler to its type's list, creating
        the list when absent; other types keep theirs. Returns the unsubscribe closure. */
    method Subscribe(messageType: string, handler: Handler) returns (u: Unsubscriber)
      modifies this`handlers
      ensures handlers == old(handlers)[messageType := old(HandlersFor(messageType)) + [handler]]
      ensures u == Unsubscriber(messageType, handler)
    {
      handlers := handlers[messageType := HandlersFor(messageType) + [handler]];
      u := Unsubscriber(messageType, handler);
    }

    /** Calling the closure `subscribe` returned: removes the first occurrence of the
        handler from its type's list, if the list and the handler are still there. */
    method Unsubscribe(u: Unsubscriber)
      modifies this`handlers
      ensures u.messageType !in old(handlers) ==> handlers == old(handlers)
      ensures u.messageType in old(handlers) ==>
        handlers == old(handlers)[u.messageType := RemoveFirst(old(handlers)[u.messageType], u.handler)]
    {
      if u.messageType in handlers {
        handlers := handlers[u.messageType := RemoveFirst(handlers[u.messageType], u.handler)];
      }
    }

    /** `send(message)`: hands the message to the socket only when it is open. */
    method Send(message: Message)
      modifies this`sent
      ensures sent == if IsConnected() then old(sent) + [message] else old(sent)
    {
      if ws == Some(Open) {
        sent := sent + [message];
      }
    }

    /** `disconnect()`: closes and drops the socket and forgets every handler. The attempt
        count and `isConnecting` are left as they were. */
    method Disconnect()
      modifies this`ws, this`handlers
      ensures ws.None? && handlers == map[] && !IsConnected()
    {
      if ws.Some? {
        ws := None;
      }
      handlers := map[];
    }
  }

  /** As written, a failed connection attempt leaves `isConnecting` set, so the
      `connect()` that the scheduled reconnect later runs returns at once: the service
      never reconnects after a failure. */
  method FailedConnectBlocksReconnect(svc: WebSocketService)
    requires svc.Valid() && !svc.isConnecting && svc.ws != Some(Connecting)
    modifies svc
    ensures svc.isConnecting && svc.ws == old(svc.ws)
  {
    var delay := svc.Connect(true);
    var retry := svc.Connect(false);
    assert retry.None?;
  }

  /** A subscriber that joins and leaves again leaves the registry as it found it. */
  method SubscribeThenUnsubscribe(svc: WebSocketService, messageType: string, h: Handler)
    requires h !in svc.HandlersFor(messageType)
    modifies svc
    ensures svc.HandlersFor(messageType) == old(svc.HandlersFor(messageType))
  {
    var u := svc.Subscribe(messageType, h);
    RemoveFirstAfterAppend(old(svc.HandlersFor(messageType)), h);
    svc.Unsubscribe(u);
  }
}
