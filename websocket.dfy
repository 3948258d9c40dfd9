/**
 * The reconnecting WebSocket hook of the web client. Browser sockets and
 * timers are abstract: sockets and timers are numbered as they are created,
 * and their events (open, close, error, message, timer fired) are methods the
 * environment calls. Messages are strings. Events of a socket that is no longer
 * current are handled like any other: the hook does not filter them.
 */
module WebSocketHook {
  import opened Wrappers

  datatype Status = Idle | Connecting | Open | Closed | Error

  /** A browser socket's `readyState`. */
  datatype ReadyState = CONNECTING | OPEN | CLOSING | CLOSED

  /**
   * The hook's options after defaults; `parse`, when given, turns the raw data
   * into the payload, and `hasOnMessage` says whether an `onMessage` callback was given.
   */
  datatype Options = Options(url: string, reconnect: bool, retryMs: int, parse: Option<string -> string>,
                             hasOnMessage: bool)

  /** Reconnecting is on and the retry delay is 2000 ms unless the caller says otherwise. */
  function WithDefaults(url: string, reconnect: Option<bool>, retryMs: Option<int>,
                        parse: Option<string -> string>, hasOnMessage: bool): (o: Options)
    ensures reconnect.None? ==> o.reconnect
    ensures retryMs.None? ==> o.retryMs == 2000
    ensures reconnect.Some? ==> o.reconnect == reconnect.value
    ensures retryMs.Some? ==> o.retryMs == retryMs.value
    ensures o.url == url && o.parse == parse && o.hasOnMessage == hasOnMessage
  {
    Options(url, reconnect.GetOr(true), retryMs.GetOr(2000), parse, hasOnMessage)
  }

  /**
   * Everything the hook and its environment hold: the rendered `status` and
   * `lastMessage`, `socketRef` and `retryRef`, every socket made so far with its
   * ready state, the pending timers with their delays, what was sent on which
   * socket, and the payloads handed to `onMessage`.
   */
  datatype HookState = HookState(
    status: Status, lastMessage: Option<string>,
    socket: Option<nat>, retry: Option<nat>,
    sockets: map<nat, ReadyState>, nextSocket: nat,
    timers: map<nat, int>, nextTimer: nat,
    sent: seq<(nat, string)>, delivered: seq<string>)

  /** Before mounting: idle, no message, nothing created. */
  function Initial(): (s: HookState)
    ensures s.status == Idle && s.lastMessage.None? && s.socket.None? && s.retry.None?
  {
    HookState(Idle, None, None, None, map[], 0, map[], 0, [], [])
  }

  /** Identifiers handed out are below the counters, and the current socket exists. */
  predicate Inv(s: HookState) {
    && (forall k | k in s.sockets :: k < s.nextSocket)
    && (forall t | t in s.timers :: t < s.nextTimer)
    && (s.socket.Some? ==> s.socket.value in s.sockets)
    && (s.retry.Some? ==> s.retry.value < s.nextTimer)
  }

  /** `socket.close()`: a connecting or open socket starts closing; otherwise nothing happens. */
  function CloseSocket(sockets: map<nat, ReadyState>, ws: nat): map<nat, ReadyState> {
    if ws in sockets && (sockets[ws] == CONNECTING || sockets[ws] == OPEN) then sockets[ws := CLOSING] else sockets
  }

  /** `cleanup`: cancel the timer `retryRef` names, close the current socket, drop it. */
  function CleanupStep(s: HookState): (r: HookState)
    ensures r.socket.None? && r.retry == s.retry
    ensures s.retry.Some? ==> s.retry.value !in r.timers
    ensures r.status == s.status && r.lastMessage == s.lastMessage
    ensures s.socket.Some? && s.socket.value in s.sockets && s.sockets[s.socket.value] in {CONNECTING, OPEN} ==>
      s.socket.value in r.sockets && r.sockets[s.socket.value] == CLOSING
    ensures Inv(s) ==> Inv(r)
  {
    var timers := if s.retry.Some? then s.timers - {s.retry.value} else s.timers;
    var sockets := if s.socket.Some? then CloseSocket(s.sockets, s.socket.value) else s.sockets;
    s.(timers := timers, sockets := sockets, socket := None)
  }

  /** `connect`: clean up, then a new socket becomes current and the status is `connecting`. */
  function ConnectStep(s: HookState): (r: HookState)
    ensures r.status == Connecting && r.socket == Some(s.nextSocket)
    ensures s.nextSocket in r.sockets && r.sockets[s.nextSocket] == CONNECTING
    ensures r.lastMessage == s.lastMessage
    ensures Inv(s) ==> Inv(r)
  {
    var c := CleanupStep(s);
    var ws := c.nextSocket;
    c.(status := Connecting, socket := Some(ws), sockets := c.sockets[ws := CONNECTING], nextSocket := ws + 1)
  }

  /** `onopen`: the socket is open and so is the status. */
  function OpenStep(s: HookState, ws: nat): (r: HookState)
    requires ws in s.sockets && s.sockets[ws] == CONNECTING
    ensures Inv(s) ==> Inv(r)
  {
    s.(status := Open, sockets := s.sockets[ws := OPEN])
  }

  /** `onclose`: status `closed` and, when reconnecting, one new timer of `retryMs` kept in `retryRef`. */
  function CloseStep(opts: Options, s: HookState, ws: nat): (r: HookState)
    requires ws in s.sockets && s.sockets[ws] != CLOSED
    ensures Inv(s) ==> Inv(r)
  {
    var closed := s.(status := Closed, sockets := s.sockets[ws := CLOSED]);
    if opts.reconnect then
      closed.(timers := s.timers[s.nextTimer := opts.retryMs], retry := Some(s.nextTimer), nextTimer := s.nextTimer + 1)
    else closed
  }

  /** `onerror`: status `error`; nothing is scheduled. */
  function ErrorStep(s: HookState, ws: nat): (r: HookState)
    requires ws in s.sockets && s.sockets[ws] != CLOSED
    ensures Inv(s) ==> Inv(r)
  {
    s.(status := Error)
  }

  /** The payload of a message: parsed when a parser is given, else the raw data. */
  function Payload(opts: Options, data: string): string {
    match opts.parse
    case Some(parse) => parse(data)
    case None => data
  }

  /** `onmessage`: the payload becomes `lastMessage` and goes to `onMessage` when there is one. */
  function MessageStep(opts: Options, s: HookState, ws: nat, data: string): (r: HookState)
    requires ws in s.sockets && s.sockets[ws] == OPEN
    ensures Inv(s) ==> Inv(r)
  {
    var payload := Payload(opts, data);
    s.(lastMessage := Some(payload), delivered := if opts.hasOnMessage then s.delivered + [payload] else s.delivered)
  }

  /**
   * A message sets `lastMessage` to its payload, reaches `onMessage` exactly
   * when one was given, and changes nothing else: no socket, timer or status.
   */
  lemma MessageDelivery(opts: Options, s: HookState, ws: nat, data: string)
    requires ws in s.sockets && s.sockets[ws] == OPEN
    ensures MessageStep(opts, s, ws, data).lastMessage == Some(Payload(opts, data))
    ensures opts.hasOnMessage <==> MessageStep(opts, s, ws, data).delivered == s.delivered + [Payload(opts, data)]
    ensures MessageStep(opts, s, ws, data).(lastMessage := s.lastMessage, delivered := s.delivered) == s
  {
    if !opts.hasOnMessage {
      assert |s.delivered + [Payload(opts, data)]| != |s.delivered|;
    }
  }

  /** A retry timer fires: it is no longer pending, and `connect` runs. */
  function FireStep(s: HookState, t: nat): (r: HookState)
    requires t in s.timers
    ensures Inv(s) ==> Inv(r)
  {
    ConnectStep(s.(timers := s.timers - {t}))
  }

  /** `send`: forwarded only on a current socket that is open. */
  function SendStep(s: HookState, data: string): (r: HookState)
  {
    if s.socket.Some? && s.socket.value in s.sockets && s.sockets[s.socket.value] == OPEN
    then s.(sent := s.sent + [(s.socket.value, data)])
    else s
  }

  // ---------------------------------------------------------------- properties

  /** `send` sends exactly when the current socket is open, on that socket, and changes nothing else. */
  lemma SendOnlyWhenOpen(s: HookState, data: string)
    requires Inv(s)
    ensures SendStep(s, data).sent != s.sent <==> s.socket.Some? && s.sockets[s.socket.value] == OPEN
    ensures SendStep(s, data).sent != s.sent ==> SendStep(s, data).sent == s.sent + [(s.socket.value, data)]
    ensures SendStep(s, data).(sent := s.sent) == s
  {
    if s.socket.Some? && s.sockets[s.socket.value] == OPEN {
      assert SendStep(s, data).sent[|s.sent|] == (s.socket.value, data);
    }
  }

  /** `connect` cancels the timer `retryRef` names and starts closing the previous socket. */
  lemma ConnectCancelsRetry(s: HookState)
    requires Inv(s)
    ensures s.retry.Some? ==> s.retry.value !in ConnectStep(s).timers
    ensures s.socket.Some? && s.sockets[s.socket.value] in {CONNECTING, OPEN} ==>
      ConnectStep(s).sockets[s.socket.value] == CLOSING
    ensures forall t | t in ConnectStep(s).timers :: t in s.timers
  {
    var c := CleanupStep(s);
    assert s.nextSocket !in s.sockets;
  }

  /** A close event sets `closed` and schedules exactly one retry iff reconnecting, whichever socket it comes from. */
  lemma CloseAlwaysCounts(opts: Options, s: HookState, ws: nat)
    requires Inv(s) && ws in s.sockets && s.sockets[ws] != CLOSED
    ensures CloseStep(opts, s, ws).status == Closed
    ensures CloseStep(opts, s, ws).socket == s.socket
    ensures opts.reconnect <==> |CloseStep(opts, s, ws).timers| == |s.timers| + 1
    ensures opts.reconnect ==> CloseStep(opts, s, ws).timers == s.timers[s.nextTimer := opts.retryMs]
    ensures !opts.reconnect ==> CloseStep(opts, s, ws).timers == s.timers
  {
    if opts.reconnect {
      assert s.nextTimer !in s.timers;
      assert s.timers[s.nextTimer := opts.retryMs].Keys == s.timers.Keys + {s.nextTimer};
    }
  }

  /**
   * With reconnecting on: a first socket opens, a second `connect` replaces it,
   * and the first socket's late close event still sets `closed` while the new
   * socket is connecting; the retry it schedules then closes the new socket.
   */
  lemma StaleCloseDisruptsCurrent(opts: Options)
    requires opts.reconnect
    ensures
      var s1 := OpenStep(ConnectStep(Initial()), 0);
      var s2 := ConnectStep(s1);
      var s3 := CloseStep(opts, s2, 0);
      && s3.status == Closed && s3.socket == Some(1) && s3.sockets[1] == CONNECTING
      && 0 in s3.timers && s3.timers[0] == opts.retryMs
      && FireStep(s3, 0).sockets[1] == CLOSING && FireStep(s3, 0).socket == Some(2)
  {
    var s0 := ConnectStep(Initial());
    var s1 := OpenStep(s0, 0);
    var s2 := ConnectStep(s1);
    assert s2.sockets[0] == CLOSING && s2.sockets[1] == CONNECTING;
    var s3 := CloseStep(opts, s2, 0);
    assert s3.retry == Some(0);
  }

  // ---------------------------------------------------------------- the hook

  class SocketHook {
    const opts: Options
    var status: Status
    var lastMessage: Option<string>
    var socketRef: Option<nat>
    var retryRef: Option<nat>
    var sockets: map<nat, ReadyState>
    var nextSocket: nat
    var timers: map<nat, int>
    var nextTimer: nat
    var sent: seq<(nat, string)>
    var delivered: seq<string>

    function State(): HookState
      reads this
    {
      HookState(status, lastMessage, socketRef, retryRef, sockets, nextSocket, timers, nextTimer, sent, delivered)
    }

    constructor (opts: Options)
      ensures this.opts == opts && State() == Initial()
    {
      this.opts := opts;
      status := Idle;
      lastMessage := None;
      socketRef := None;
      retryRef := None;
      sockets := map[];
      nextSocket := 0;
      timers := map[];
      nextTimer := 0;
      sent := [];
      delivered := [];
    }

    method Cleanup()
      modifies this
      ensures State() == CleanupStep(old(State()))
    {
      if retryRef.Some? {
        timers := timers - {retryRef.value};
      }
      if socketRef.Some? {
        sockets := CloseSocket(sockets, socketRef.value);
      }
      socketRef := None;
    }

    method Connect()
      modifies this
      ensures State() == ConnectStep(old(State()))
    {
      Cleanup();
      status := Connecting;
      var ws := nextSocket;
      nextSocket := nextSocket + 1;
      sockets := sockets[ws := CONNECTING];
      socketRef := Some(ws);
    }

    /** The mount effect: the first `connect`. */
    method Mount()
      modifies this
      ensures State() == ConnectStep(old(State()))
    {
      Connect();
    }

    /** The unmount effect: `cleanup`. */
    method Unmount()
      modifies this
      ensures State() == CleanupStep(old(State()))
    {
      Cleanup();
    }

    method OnOpen(ws: nat)
      requires ws in sockets && sockets[ws] == CONNECTING
      modifies this
      ensures State() == OpenStep(old(State()), ws)
    {
      sockets := sockets[ws := OPEN];
      status := Open;
    }

    method OnClose(ws: nat)
      requires ws in sockets && sockets[ws] != CLOSED
      modifies this
      ensures State() == CloseStep(opts, old(State()), ws)
    {
      sockets := sockets[ws := CLOSED];
      status := Closed;
      if opts.reconnect {
        var t := nextTimer;
        nextTimer := nextTimer + 1;
        timers := timers[t := opts.retryMs];
        retryRef := Some(t);
      }
    }

    method OnError(ws: nat)
      requires ws in sockets && sockets[ws] != CLOSED
      modifies this
      ensures State() == ErrorStep(old(State()), ws)
    {
      status := Error;
    }

    method OnMessage(ws: nat, data: string)
      requires ws in sockets && sockets[ws] == OPEN
      modifies this
      ensures State() == MessageStep(opts, old(State()), ws, data)
    {
      var payload := if opts.parse.Some? then opts.parse.value(data) else data;
      lastMessage := Some(payload);
      if opts.hasOnMessage {
        delivered := delivered + [payload];
      }
    }

    /** A pending retry timer fires and calls `connect`. */
    method FireTimer(t: nat)
      requires t in timers
      modifies this
      ensures State() == FireStep(old(State()), t)
    {
      timers := timers - {t};
      Connect();
    }

    method Send(data: string)
      modifies this
      ensures State() == SendStep(old(State()), data)
    {
      if socketRef.Some? && socketRef.value in sockets && sockets[socketRef.value] == OPEN {
        sent := sent + [(socketRef.value, data)];
      }
    }
  }
}
