/**
 * The shared price-feed connection (src/contexts/WebSocketContext.jsx):
 * the provider's refs and state, driven by its own calls (`connect`,
 * `disconnect`, `sendMessage`, `subscribe` and its disposer) and by the
 * socket's events (open, message, close with a code, error) and the firing
 * of a reconnect timer, each an explicit method.
 *
 * The socket itself is abstracted to the ready state of the one `wsRef`
 * holds; subscriber callbacks are identified by numbers, and whether one
 * throws on a frame is an input to the delivery.
 */
module WebSocketContext {
  import opened Common
  import opened Messages

  /** `WebSocket.readyState`. */
  datatype ReadyState = Connecting | Open | Closing | Closed

  /** A frame the provider transmits. */
  datatype Outbound = SubscribePrice | SubscribeBalance | Custom(payload: string)

  /** A reconnect timer that has been set and not yet fired or cleared. */
  datatype Timer = Timer(id: nat, delay: nat)

  /** What one subscriber call did with a frame. */
  datatype Delivery = Delivered(subscriber: nat) | Threw(subscriber: nat)

  const MaxReconnectAttempts: nat := 5

  /** The close code of a normal closure (section 7.4.1 of RFC 6455). */
  const NormalClosure: int := 1000

  function Pow2(n: nat): (p: nat)
    ensures p >= 1
  {
    if n == 0 then 1 else 2 * Pow2(n - 1)
  }

  lemma {:induction false} Pow2Monotone(m: nat, n: nat)
    requires m <= n
    ensures Pow2(m) <= Pow2(n)
    decreases n
  {
    if m < n {
      Pow2Monotone(m, n - 1);
    }
  }

  /** The wait before the next reconnect: `min(1000 * 2^attempts, 10000)`
      milliseconds, computed before the attempt counter is incremented. */
  function BackoffDelay(attempts: nat): (d: nat)
    ensures 1000 <= d <= 10000
  {
    if 1000 * Pow2(attempts) < 10000 then 1000 * Pow2(attempts) else 10000
  }

  /** The delays run 1, 2, 4, 8 and then 10 seconds, and stay at 10
      seconds; they never shrink as attempts grow. */
  lemma BackoffSchedule(m: nat, n: nat)
    requires m <= n
    ensures BackoffDelay(0) == 1000 && BackoffDelay(1) == 2000 && BackoffDelay(2) == 4000
    ensures BackoffDelay(3) == 8000 && BackoffDelay(4) == 10000
    ensures n >= 4 ==> BackoffDelay(n) == 10000
    ensures BackoffDelay(m) <= BackoffDelay(n)
  {
    assert Pow2(4) == 16;
    Pow2Monotone(m, n);
    if n >= 4 {
      Pow2Monotone(4, n);
    }
  }

  /** The close handler's test: the provider still wants a connection, the
      closure was not normal, and fewer than five reconnects have fired
      since the last successful open. */
  predicate ShouldReconnect(shouldConnect: bool, code: int, attempts: nat)
    ensures !shouldConnect ==> !ShouldReconnect(shouldConnect, code, attempts)
    ensures code == NormalClosure ==> !ShouldReconnect(shouldConnect, code, attempts)
    ensures attempts >= MaxReconnectAttempts ==> !ShouldReconnect(shouldConnect, code, attempts)
    ensures ShouldReconnect(shouldConnect, code, attempts) ==> BackoffDelay(attempts) <= 10000
  {
    shouldConnect && code != NormalClosure && attempts < MaxReconnectAttempts
  }

  /** A socket whose close event is still to come: constructed and not
      yet closed. */
  predicate Live(socket: Option<ReadyState>) {
    socket.Some? && socket.value != Closed
  }

  predicate NoDuplicates(s: seq<nat>) {
    forall i, j :: 0 <= i < j < |s| ==> s[i] != s[j]
  }

  /** `Set.delete`: the subscribers without `cb`, the rest in insertion
      order. */
  function Without(subs: seq<nat>, cb: nat): (r: seq<nat>)
    ensures forall x :: x in r <==> x in subs && x != cb
    ensures |r| <= |subs|
    ensures NoDuplicates(subs) ==> NoDuplicates(r)
    decreases |subs|
  {
    if subs == [] then []
    else if subs[0] == cb then Without(subs[1..], cb)
    else
      var rest := Without(subs[1..], cb);
      assert NoDuplicates(subs) ==> subs[0] !in subs[1..];
      [subs[0]] + rest
  }

  /** Removing a subscriber twice is removing it once, and removing one
      that is absent changes nothing. */
  lemma {:induction false} WithoutIdempotent(subs: seq<nat>, cb: nat)
    ensures Without(Without(subs, cb), cb) == Without(subs, cb)
    ensures cb !in subs ==> Without(subs, cb) == subs
    decreases |subs|
  {
    if subs != [] {
      WithoutIdempotent(subs[1..], cb);
      if subs[0] != cb {
        assert Without(subs, cb) == [subs[0]] + Without(subs[1..], cb);
        assert ([subs[0]] + Without(subs[1..], cb))[1..] == Without(subs[1..], cb);
      }
    }
  }

  /** `clearTimeout(id)`: the armed timers other than `id`. */
  function CancelTimer(armed: seq<Timer>, id: nat): (r: seq<Timer>)
    ensures forall t :: t in r <==> t in armed && t.id != id
    decreases |armed|
  {
    if armed == [] then []
    else if armed[0].id == id then CancelTimer(armed[1..], id)
    else [armed[0]] + CancelTimer(armed[1..], id)
  }

  /** The `forEach` over the subscriber set: every subscriber is called
      with the frame, in insertion order, and one that throws is logged
      without stopping the calls to the ones after it. */
  method Dispatch(subs: seq<nat>, failing: set<nat>) returns (outcomes: seq<Delivery>)
    ensures |outcomes| == |subs|
    ensures forall i :: 0 <= i < |subs| ==> outcomes[i].subscriber == subs[i]
    ensures forall i :: 0 <= i < |subs| ==> (outcomes[i].Threw? <==> subs[i] in failing)
  {
    outcomes := [];
    var i := 0;
    while i < |subs|
      invariant 0 <= i <= |subs|
      invariant |outcomes| == i
      invariant forall j :: 0 <= j < i ==> outcomes[j].subscriber == subs[j]
      invariant forall j :: 0 <= j < i ==> (outcomes[j].Threw? <==> subs[j] in failing)
    {
      if subs[i] in failing {
        outcomes := outcomes + [Threw(subs[i])];
      } else {
        outcomes := outcomes + [Delivered(subs[i])];
      }
      i := i + 1;
    }
  }

  /** Something that happens to a mounted provider: an event of the socket
      `wsRef` holds, the firing of a pending reconnect timer, or a call of
      the provider's API. */
  datatype Event =
    | SocketOpened
    | FrameArrived(frame: Option<Message>, failing: set<nat>)
    | SocketClosed(code: int)
    | SocketFailed
    | TimerFired(creationFails: bool)
    | ConnectCalled(creationFails: bool)
    | MessageSent(msg: Outbound)
    | Subscribed(cb: nat)
    | Unsubscribed(cb: nat)
    | DisconnectCalled

  /** Every field of the provider at once, to state what a call leaves
      alone. */
  datatype State = State(
    isConnected: bool, lastMessage: Option<Message>, error: Option<string>,
    socket: Option<ReadyState>, socketsCreated: nat,
    armed: seq<Timer>, timerRef: Option<nat>, nextTimerId: nat,
    reconnectAttempts: nat, isConnecting: bool, shouldConnect: bool,
    subscribers: seq<nat>, sent: seq<Outbound>, closeRequests: nat,
    deliveries: seq<Delivery>)

  /** The close handler: disconnected, and the socket `wsRef` holds (if
      any) closed and kept. A reconnect timer with the backoff delay of the
      current attempt count is set, and named by the ref, exactly when
      `ShouldReconnect` holds. */
  function AfterClose(st: State, code: int): (r: State)
    ensures !r.isConnected && !r.isConnecting && r.socket.Some? == st.socket.Some?
    ensures ShouldReconnect(st.shouldConnect, code, st.reconnectAttempts) ==>
      && r.armed == st.armed + [Timer(st.nextTimerId, BackoffDelay(st.reconnectAttempts))]
      && r.timerRef == Some(st.nextTimerId) && r.nextTimerId == st.nextTimerId + 1
    ensures !ShouldReconnect(st.shouldConnect, code, st.reconnectAttempts) ==>
      r.armed == st.armed && r.timerRef == st.timerRef && r.nextTimerId == st.nextTimerId
    ensures r.reconnectAttempts == st.reconnectAttempts && r.shouldConnect == st.shouldConnect
    ensures r.subscribers == st.subscribers && r.sent == st.sent && r.socketsCreated == st.socketsCreated
  {
    var base := st.(isConnected := false, isConnecting := false,
      socket := if st.socket.Some? then Some(Closed) else None);
    if ShouldReconnect(st.shouldConnect, code, st.reconnectAttempts) then
      base.(armed := st.armed + [Timer(st.nextTimerId, BackoffDelay(st.reconnectAttempts))],
            timerRef := Some(st.nextTimerId), nextTimerId := st.nextTimerId + 1)
    else base
  }

  class Provider {
    var isConnected: bool
    var lastMessage: Option<Message>
    var error: Option<string>
    /** The ready state of the socket `wsRef` holds; `None` when it is null. */
    var socket: Option<ReadyState>
    /** How many sockets have been constructed. */
    var socketsCreated: nat
    /** The reconnect timers set and neither fired nor cleared. */
    var armed: seq<Timer>
    /** `reconnectTimeoutRef`: the id of the last timer set. */
    var timerRef: Option<nat>
    var nextTimerId: nat
    var reconnectAttempts: nat
    var isConnecting: bool
    var shouldConnect: bool
    /** The subscriber set, in insertion order. */
    var subscribers: seq<nat>
    /** Every frame transmitted, in order. */
    var sent: seq<Outbound>
    /** How many times a socket was closed with code 1000 by `disconnect`. */
    var closeRequests: nat
    /** Every subscriber call made, in order. */
    var deliveries: seq<Delivery>
    /** How many reconnect timers have been set since the last successful
        open (or since mount, before the first). */
    ghost var scheduledSinceOpen: nat

    function Snapshot(): State
      reads this
    {
      State(isConnected, lastMessage, error, socket, socketsCreated, armed, timerRef, nextTimerId,
            reconnectAttempts, isConnecting, shouldConnect, subscribers, sent, closeRequests, deliveries)
    }

    /** Subscribers are a set; timer ids are positive (so a set timer is
        truthy) and below the next id. */
    ghost predicate Valid()
      reads this
    {
      && NoDuplicates(subscribers)
      && nextTimerId >= 1
      && (forall t :: t in armed ==> 1 <= t.id < nextTimerId)
      && (timerRef.Some? ==> 1 <= timerRef.value < nextTimerId)
    }

    /** Nothing will reconnect on its own: the provider no longer wants a
        connection and no reconnect timer is pending. */
    ghost predicate Quiescent()
      reads this
    {
      !shouldConnect && armed == []
    }

    /** The reconnect budget: at most five reconnect timers are set between
        two successful opens, each fired one counted in `reconnectAttempts`.
        At most one timer is pending at a time, only while a connection is
        wanted and no socket is live, and the ref names it; while a
        connection is wanted, the timers set since the last open are exactly
        those fired and the one pending. */
    ghost predicate ReconnectBudget()
      reads this
    {
      && |armed| <= 1
      && (armed != [] ==> shouldConnect && !Live(socket) && timerRef == Some(armed[0].id))
      && reconnectAttempts + |armed| <= scheduledSinceOpen <= MaxReconnectAttempts
      && (shouldConnect ==> scheduledSinceOpen == reconnectAttempts + |armed|)
    }

    constructor()
      ensures Valid() && ReconnectBudget() && scheduledSinceOpen == 0
      ensures Snapshot() == State(false, None, None, None, 0, [], None, 1, 0, false, true, [], [], 0, [])
    {
      isConnected := false;
      lastMessage := None;
      error := None;
      socket := None;
      socketsCreated := 0;
      armed := [];
      timerRef := None;
      nextTimerId := 1;
      reconnectAttempts := 0;
      isConnecting := false;
      shouldConnect := true;
      subscribers := [];
      sent := [];
      closeRequests := 0;
      deliveries := [];
      scheduledSinceOpen := 0;
    }

    /** `connect`. A no-op while a connection is under way or the socket is
        open; otherwise exactly one socket is constructed, or, when the
        constructor throws, the error is recorded and `wsRef` keeps its old
        socket. The attempt counter is not touched. */
    method Connect(creationFails: bool)
      requires Valid()
      modifies this
      ensures Valid()
      ensures scheduledSinceOpen == old(scheduledSinceOpen)
      ensures old(ReconnectBudget()) && old(armed) == [] ==> ReconnectBudget()
      ensures Snapshot() ==
        if old(isConnecting) || old(socket) == Some(Open) then old(Snapshot())
        else if creationFails then old(Snapshot()).(error := Some("Failed to create WebSocket connection"), isConnecting := false)
        else old(Snapshot()).(socket := Some(Connecting), socketsCreated := old(socketsCreated) + 1, isConnecting := true)
    {
      if isConnecting || socket == Some(Open) {
        return;
      }
      isConnecting := true;
      if creationFails {
        error := Some("Failed to create WebSocket connection");
        isConnecting := false;
      } else {
        CreateSocket();
      }
    }

    /** `new WebSocket(url)` succeeds: `wsRef` holds a new, connecting
        socket. */
    method CreateSocket()
      modifies this
      ensures scheduledSinceOpen == old(scheduledSinceOpen)
      ensures Snapshot() == old(Snapshot()).(socket := Some(Connecting), socketsCreated := old(socketsCreated) + 1)
    {
      socket := Some(Connecting);
      socketsCreated := socketsCreated + 1;
    }

    /** The socket opens: connected, error cleared, attempts reset, and the
        two subscription frames sent, price first. */
    method OnOpen()
      requires Valid() && socket == Some(Connecting)
      modifies this
      ensures Valid()
      ensures old(Quiescent()) ==> Quiescent()
      ensures scheduledSinceOpen == 0
      ensures old(ReconnectBudget()) ==> ReconnectBudget()
      ensures Snapshot() == old(Snapshot()).(socket := Some(Open), isConnected := true, error := None,
        reconnectAttempts := 0, isConnecting := false, sent := old(sent) + [SubscribePrice, SubscribeBalance])
    {
      MarkOpen();
      Transmit(SubscribePrice);
      Transmit(SubscribeBalance);
    }

    /** `setIsConnected(true)`, `setError(null)`, the attempt counter reset
        and `isConnecting` lowered, on the socket now open. */
    method MarkOpen()
      modifies this
      ensures scheduledSinceOpen == 0
      ensures Snapshot() == old(Snapshot()).(socket := Some(Open), isConnected := true, error := None,
        reconnectAttempts := 0, isConnecting := false)
    {
      socket := Some(Open);
      isConnected := true;
      error := None;
      ResetAttempts();
    }

    /** A successful open ends the connection attempt and starts a new
        reconnect budget. */
    method ResetAttempts()
      modifies this
      ensures scheduledSinceOpen == 0
      ensures Snapshot() == old(Snapshot()).(reconnectAttempts := 0, isConnecting := false)
    {
      reconnectAttempts := 0;
      isConnecting := false;
      scheduledSinceOpen := 0;
    }

    /** `ws.send` on an open socket. */
    method Transmit(msg: Outbound)
      modifies this
      ensures scheduledSinceOpen == old(scheduledSinceOpen)
      ensures Snapshot() == old(Snapshot()).(sent := old(sent) + [msg])
    {
      sent := sent + [msg];
    }

    /** A frame arrives. One that does not parse (`None`) is dropped
        without touching `lastMessage`; a parsed one becomes `lastMessage`
        and is handed to every subscriber, `failing` naming those that
        throw on it. */
    method OnMessage(frame: Option<Message>, failing: set<nat>)
      requires Valid()
      modifies this
      ensures Valid()
      ensures old(Quiescent()) ==> Quiescent()
      ensures scheduledSinceOpen == old(scheduledSinceOpen)
      ensures old(ReconnectBudget()) ==> ReconnectBudget()
      ensures frame.None? ==> Snapshot() == old(Snapshot())
      ensures frame.Some? ==>
        && |deliveries| == |old(deliveries)| + |subscribers|
        && deliveries[..|old(deliveries)|] == old(deliveries)
        && (forall i :: 0 <= i < |subscribers| ==>
              var d := deliveries[|old(deliveries)| + i];
              d.subscriber == subscribers[i] && (d.Threw? <==> subscribers[i] in failing))
        && Snapshot() == old(Snapshot()).(lastMessage := frame, deliveries := deliveries)
    {
      if frame.Some? {
        lastMessage := frame;
        var outcomes := Dispatch(subscribers, failing);
        deliveries := deliveries + outcomes;
      }
    }

    /** The socket closes with `code`, as `AfterClose` says. */
    method OnClose(code: int)
      requires Valid()
      modifies this
      ensures Valid()
      ensures old(Quiescent()) ==> Quiescent()
      ensures scheduledSinceOpen == old(scheduledSinceOpen) +
        if ShouldReconnect(old(shouldConnect), code, old(reconnectAttempts)) then 1 else 0
      ensures var closingLive := Live(old(socket)) || !ShouldReconnect(old(shouldConnect), code, old(reconnectAttempts));
        old(ReconnectBudget()) && closingLive ==> ReconnectBudget()
      ensures Snapshot() == AfterClose(old(Snapshot()), code)
    {
      MarkClosed();
      if ShouldReconnect(shouldConnect, code, reconnectAttempts) {
        ArmTimer(BackoffDelay(reconnectAttempts));
      }
    }

    /** The connection is marked down and the socket `wsRef` holds, if
        any, is closed; the ref keeps it. */
    method MarkClosed()
      modifies this
      ensures scheduledSinceOpen == old(scheduledSinceOpen)
      ensures Snapshot() == old(Snapshot()).(isConnected := false, isConnecting := false,
        socket := if old(socket).Some? then Some(Closed) else None)
    {
      isConnected := false;
      isConnecting := false;
      if socket.Some? {
        socket := Some(Closed);
      }
    }

    /** `setTimeout`: a new timer with `delay`, whose id the ref now
        holds. */
    method ArmTimer(delay: nat)
      modifies this
      ensures scheduledSinceOpen == old(scheduledSinceOpen) + 1
      ensures Snapshot() == old(Snapshot()).(armed := old(armed) + [Timer(old(nextTimerId), delay)],
        timerRef := Some(old(nextTimerId)), nextTimerId := old(nextTimerId) + 1)
    {
      armed := armed + [Timer(nextTimerId, delay)];
      timerRef := Some(nextTimerId);
      nextTimerId := nextTimerId + 1;
      scheduledSinceOpen := scheduledSinceOpen + 1;
    }

    /** The socket reports an error. */
    method OnError()
      requires Valid()
      modifies this
      ensures Valid()
      ensures old(Quiescent()) ==> Quiescent()
      ensures scheduledSinceOpen == old(scheduledSinceOpen)
      ensures old(ReconnectBudget()) ==> ReconnectBudget()
      ensures Snapshot() == old(Snapshot()).(error := Some("WebSocket connection error"), isConnecting := false)
    {
      error := Some("WebSocket connection error");
      isConnecting := false;
    }

    /** The `k`-th pending reconnect timer fires: it counts one more
        attempt and calls `connect`. The ref still names it. */
    method TimerFire(k: nat, creationFails: bool)
      requires Valid() && k < |armed|
      modifies this
      ensures Valid()
      ensures scheduledSinceOpen == old(scheduledSinceOpen)
      ensures old(ReconnectBudget()) ==> ReconnectBudget()
      ensures armed == old(armed[..k] + armed[k + 1..])
      ensures reconnectAttempts == old(reconnectAttempts) + 1
      ensures timerRef == old(timerRef) && shouldConnect == old(shouldConnect)
      ensures var fired := old(Snapshot()).(armed := armed, reconnectAttempts := reconnectAttempts);
        if fired.isConnecting || fired.socket == Some(Open) then Snapshot() == fired
        else if creationFails then Snapshot() == fired.(error := Some("Failed to create WebSocket connection"))
        else Snapshot() == fired.(socket := Some(Connecting), socketsCreated := old(socketsCreated) + 1, isConnecting := true)
    {
      Fire(k);
      Connect(creationFails);
    }

    /** The `k`-th pending timer leaves the pending list and counts one
        more attempt. */
    method Fire(k: nat)
      requires Valid() && k < |armed|
      modifies this
      ensures Valid()
      ensures scheduledSinceOpen == old(scheduledSinceOpen)
      ensures Snapshot() == old(Snapshot()).(armed := old(armed[..k] + armed[k + 1..]),
        reconnectAttempts := old(reconnectAttempts) + 1)
    {
      forall t | t in armed[..k] + armed[k + 1..]
        ensures t in armed
      {
      }
      armed := armed[..k] + armed[k + 1..];
      reconnectAttempts := reconnectAttempts + 1;
    }

    /** `disconnect`, as written: no further reconnects wanted, the timer
        the ref names cleared, the socket closed with code 1000 and
        dropped. A timer set earlier whose id the ref no longer holds stays
        armed. */
    method Disconnect()
      requires Valid()
      modifies this
      ensures Valid()
      ensures scheduledSinceOpen == old(scheduledSinceOpen)
      ensures old(ReconnectBudget()) ==> ReconnectBudget() && Quiescent()
      ensures Snapshot() == old(Snapshot()).(
        shouldConnect := false, isConnected := false, isConnecting := false,
        armed := if old(timerRef).Some? then CancelTimer(old(armed), old(timerRef).value) else old(armed),
        timerRef := None, socket := None,
        closeRequests := if old(socket).Some? then old(closeRequests) + 1 else old(closeRequests))
    {
      shouldConnect := false;
      if timerRef.Some? {
        ClearRefTimer();
      }
      DropSocket();
    }

    /** `clearTimeout(reconnectTimeoutRef.current)` and the ref emptied. */
    method ClearRefTimer()
      requires Valid() && timerRef.Some?
      modifies this
      ensures Valid()
      ensures scheduledSinceOpen == old(scheduledSinceOpen)
      ensures Snapshot() == old(Snapshot()).(armed := CancelTimer(old(armed), old(timerRef).value), timerRef := None)
    {
      armed := CancelTimer(armed, timerRef.value);
      timerRef := None;
    }

    /** The socket, if any, is closed with code 1000 and the ref emptied;
        the provider is disconnected. */
    method DropSocket()
      modifies this
      ensures scheduledSinceOpen == old(scheduledSinceOpen)
      ensures Snapshot() == old(Snapshot()).(isConnected := false, isConnecting := false, socket := None,
        closeRequests := if old(socket).Some? then old(closeRequests) + 1 else old(closeRequests))
    {
      if socket.Some? {
        closeRequests := closeRequests + 1;
        socket := None;
      }
      isConnected := false;
      isConnecting := false;
    }

    /** `disconnect` clearing every pending reconnect timer, so that after
        it no event reconnects on its own. */
    method DisconnectCancellingAll()
      requires Valid()
      modifies this
      ensures Valid() && Quiescent()
      ensures scheduledSinceOpen == old(scheduledSinceOpen)
      ensures old(ReconnectBudget()) ==> ReconnectBudget()
      ensures Snapshot() == old(Snapshot()).(
        shouldConnect := false, isConnected := false, isConnecting := false,
        armed := [], timerRef := None, socket := None,
        closeRequests := if old(socket).Some? then old(closeRequests) + 1 else old(closeRequests))
    {
      shouldConnect := false;
      armed := [];
      timerRef := None;
      DropSocket();
    }

    /** `sendMessage`: transmitted exactly when the socket is open;
        otherwise dropped, neither queued nor thrown. */
    method SendMessage(msg: Outbound) returns (transmitted: bool)
      requires Valid()
      modifies this
      ensures Valid()
      ensures old(Quiescent()) ==> Quiescent()
      ensures scheduledSinceOpen == old(scheduledSinceOpen)
      ensures old(ReconnectBudget()) ==> ReconnectBudget()
      ensures transmitted <==> socket == Some(Open)
      ensures Snapshot() == old(Snapshot()).(sent := if transmitted then old(sent) + [msg] else old(sent))
    {
      transmitted := socket == Some(Open);
      if transmitted {
        sent := sent + [msg];
      }
    }

    /** `subscribe`: the callback joins the set (once). */
    method Subscribe(cb: nat)
      requires Valid()
      modifies this
      ensures Valid()
      ensures old(Quiescent()) ==> Quiescent()
      ensures scheduledSinceOpen == old(scheduledSinceOpen)
      ensures old(ReconnectBudget()) ==> ReconnectBudget()
      ensures forall x :: x in subscribers <==> x in old(subscribers) || x == cb
      ensures Snapshot() == old(Snapshot()).(subscribers := if cb in old(subscribers) then old(subscribers) else old(subscribers) + [cb])
    {
      if cb !in subscribers {
        subscribers := subscribers + [cb];
      }
    }

    /** The disposer `subscribe` returns: only that callback leaves the
        set, and calling it again changes nothing. */
    method Unsubscribe(cb: nat)
      requires Valid()
      modifies this
      ensures Valid()
      ensures old(Quiescent()) ==> Quiescent()
      ensures scheduledSinceOpen == old(scheduledSinceOpen)
      ensures old(ReconnectBudget()) ==> ReconnectBudget()
      ensures forall x :: x in subscribers <==> x in old(subscribers) && x != cb
      ensures Snapshot() == old(Snapshot()).(subscribers := Without(old(subscribers), cb))
    {
      subscribers := Without(subscribers, cb);
    }

    /** One event, where it can happen: a socket opens only while it is
        connecting and closes only while it is live (a socket already
        dropped still reports its close, which then reconnects nothing),
        and a timer fires only while it is pending. `connect` is called only
        while no reconnect timer is pending. Any other event is ignored.
        Each keeps the reconnect budget. */
    method Apply(e: Event)
      requires Valid() && ReconnectBudget()
      modifies this
      ensures Valid() && ReconnectBudget()
    {
      match e {
        case SocketOpened =>
          if socket == Some(Connecting) {
            OnOpen();
          }
        case FrameArrived(frame, failing) =>
          OnMessage(frame, failing);
        case SocketClosed(code) =>
          if Live(socket) || !ShouldReconnect(shouldConnect, code, reconnectAttempts) {
            OnClose(code);
          }
        case SocketFailed =>
          OnError();
        case TimerFired(creationFails) =>
          if armed != [] {
            TimerFire(0, creationFails);
          }
        case ConnectCalled(creationFails) =>
          if armed == [] {
            Connect(creationFails);
          }
        case MessageSent(msg) =>
          var _ := SendMessage(msg);
        case Subscribed(cb) =>
          Subscribe(cb);
        case Unsubscribed(cb) =>
          Unsubscribe(cb);
        case DisconnectCalled =>
          Disconnect();
      }
    }

    /** The mount effect: a connection is wanted, and `connect` runs. */
    method Mount(creationFails: bool)
      requires Valid()
      modifies this
      ensures Valid() && shouldConnect
      ensures scheduledSinceOpen == old(scheduledSinceOpen)
      ensures var wanted := old(Snapshot()).(shouldConnect := true);
        if old(isConnecting) || old(socket) == Some(Open) then Snapshot() == wanted
        else if creationFails then Snapshot() == wanted.(error := Some("Failed to create WebSocket connection"), isConnecting := false)
        else Snapshot() == wanted.(socket := Some(Connecting), socketsCreated := old(socketsCreated) + 1, isConnecting := true)
    {
      shouldConnect := true;
      Connect(creationFails);
    }
  }

  /** A server that keeps dropping the connection abnormally: the provider
      waits 1, 2, 4, 8 and 10 seconds before its five reconnects, and the
      sixth abnormal close sets no timer. */
  method BackoffScenario() returns (delays: seq<nat>, sixthScheduled: bool)
    ensures delays == [1000, 2000, 4000, 8000, 10000]
    ensures !sixthScheduled
  {
    var p := new Provider();
    p.Mount(false);
    delays := [];
    var i := 0;
    while i < 5
      invariant 0 <= i <= 5
      invariant p.Valid() && p.shouldConnect && p.isConnecting && p.socket == Some(Connecting)
      invariant p.armed == [] && p.reconnectAttempts == i
      invariant |delays| == i && forall j :: 0 <= j < i ==> delays[j] == BackoffDelay(j)
    {
      p.OnClose(1006);
      delays := delays + [p.armed[0].delay];
      p.TimerFire(0, false);
      i := i + 1;
    }
    BackoffSchedule(0, 4);
    p.OnClose(1006);
    sixthScheduled := p.armed != [];
  }

  /** A mounted provider driven by any sequence of events in which
      `connect` is never called while a reconnect timer is pending: at
      every point, at most five reconnect timers have been set since the
      last successful open, those fired plus the one pending, if any. */
  method BudgetOverAnyTrace(events: seq<Event>, creationFails: bool)
    returns (attempts: nat, pending: nat, ghost scheduled: nat)
    ensures pending <= 1 && attempts + pending <= scheduled <= MaxReconnectAttempts
  {
    var p := new Provider();
    p.Mount(creationFails);
    var i := 0;
    while i < |events|
      invariant 0 <= i <= |events|
      invariant p.Valid() && p.ReconnectBudget()
    {
      p.Apply(events[i]);
      i := i + 1;
    }
    attempts, pending, scheduled := p.reconnectAttempts, |p.armed|, p.scheduledSinceOpen;
  }

  /** Calling the exported `connect` while a reconnect timer is pending
      breaks the budget: six abnormal closes, each followed by a manual
      `connect`, leave six reconnect timers pending, with no open between
      them and no attempt counted. */
  method ManualConnectExceedsBudget() returns (pending: nat, attempts: nat)
    ensures pending == 6 > MaxReconnectAttempts && attempts == 0
  {
    var p := new Provider();
    p.Mount(false);
    var i := 0;
    while i < 6
      invariant 0 <= i <= 6
      invariant p.Valid() && p.shouldConnect && p.isConnecting && p.socket == Some(Connecting)
      invariant |p.armed| == i && p.reconnectAttempts == 0
    {
      p.OnClose(1006);
      p.Connect(false);
      i := i + 1;
    }
    pending, attempts := |p.armed|, p.reconnectAttempts;
  }

  /** `disconnect` as written can be followed by a reconnect: a manual
      `connect` while a reconnect timer is pending, then a second abnormal
      close, leaves two timers armed and the ref naming only the second;
      `disconnect` clears that one, and the first still fires and opens a
      third socket although no connection is wanted any more. */
  method StaleTimerAfterDisconnect() returns (socketsCreated: nat, wanted: bool, opening: bool)
    ensures socketsCreated == 3 && !wanted && opening
  {
    var p := new Provider();
    p.Mount(false);
    p.OnClose(1006);
    p.Connect(false);
    p.OnClose(1006);
    var before := p.armed;
    assert before == [Timer(1, 1000), Timer(2, 1000)];
    assert before[1..] == [Timer(2, 1000)] && before[1..][1..] == [];
    assert CancelTimer(before[1..], 2) == [];
    assert CancelTimer(before, 2) == [Timer(1, 1000)];
    p.Disconnect();
    assert p.armed == [Timer(1, 1000)];
    p.TimerFire(0, false);
    socketsCreated, wanted, opening := p.socketsCreated, p.shouldConnect, p.socket == Some(Connecting);
  }

  /** The same sequence with every pending timer cleared: nothing is left
      to fire, and no third socket is created. */
  method NoReconnectAfterCorrectedDisconnect() returns (socketsCreated: nat, pendingTimers: nat)
    ensures socketsCreated == 2 && pendingTimers == 0
  {
    var p := new Provider();
    p.Mount(false);
    p.OnClose(1006);
    p.Connect(false);
    p.OnClose(1006);
    p.DisconnectCancellingAll();
    p.OnClose(NormalClosure);
    socketsCreated, pendingTimers := p.socketsCreated, |p.armed|;
  }
}
