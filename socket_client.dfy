/**
 * The reconnecting socket client of the `useWebSocket` hook.
 *
 * Every socket `connect` creates gets a number (its index in `sockets`); the
 * browser's events arrive for a numbered socket, and the handlers, like the
 * hook's closures, act on the hook's shared state whichever socket they belong
 * to.  Timers are numbered handles: `setTimeout` adds one to `timers`,
 * `clearTimeout` and firing remove it.  JSON is a codec passed in by the caller.
 */
module SocketClient {
  import opened Options

  const DefaultReconnect: bool := true
  const DefaultReconnectInterval: int := 3000

  /** `WebSocket.readyState`. */
  datatype ReadyState = Connecting | Open | Closing | Closed

  /** What `lastMessage` holds: the decoded frame, or its raw text when decoding failed. */
  datatype Inbound<J> = Parsed(value: J) | Raw(text: string)

  /** One frame handed to `send` on socket number `socket`. */
  datatype Frame = Frame(socket: nat, text: string)

  /** The hook's options once their defaults are applied. */
  datatype Config = Config(reconnect: bool, interval: int)

  /** `JSON.parse` (which may throw, hence `None`) and `JSON.stringify`. */
  datatype Codec<!J> = Codec(decode: string -> Option<J>, encode: J -> string)

  /** The hook's React state, its two refs, and what the transport has seen. */
  datatype Client<J> = Client(
    isConnected: bool,
    lastMessage: Option<Inbound<J>>,
    current: Option<nat>,       // wsRef.current
    sockets: seq<ReadyState>,   // every socket created so far, oldest first
    timerRef: Option<nat>,      // reconnectTimer.current
    timers: map<nat, int>,      // pending reconnect timers: handle to delay
    nextHandle: nat,            // the handle the next setTimeout returns
    sent: seq<Frame>)           // every frame transmitted so far

  /** Configuration with the defaults of the hook's destructuring applied to absent options. */
  function Configure(reconnect: Option<bool>, interval: Option<int>): (cfg: Config)
    ensures reconnect.None? ==> cfg.reconnect == true
    ensures interval.None? ==> cfg.interval == 3000
    ensures reconnect.Some? ==> cfg.reconnect == reconnect.value
    ensures interval.Some? ==> cfg.interval == interval.value
  {
    Config(reconnect.GetOr(DefaultReconnect), interval.GetOr(DefaultReconnectInterval))
  }

  /** Before the mount effect: not connected, no message, no socket, no timer. */
  function Initial<J>(): Client<J> {
    Client(false, None, None, [], None, map[], 1, [])
  }

  /** Handles are never reused and the socket ref names a socket that exists. */
  ghost predicate WellFormed<J>(c: Client<J>) {
    && (c.current.Some? ==> c.current.value < |c.sockets|)
    && (forall h :: h in c.timers ==> h < c.nextHandle)
  }

  /** `clearTimeout(reconnectTimer.current)`: only the timer the ref names is cancelled. */
  function ClearRef<J>(c: Client<J>): map<nat, int> {
    if c.timerRef.Some? then c.timers - {c.timerRef.value} else c.timers
  }

  /** `connect()`: a new socket, still connecting, becomes `wsRef.current`. */
  function AfterConnect<J>(c: Client<J>): Client<J> {
    c.(current := Some(|c.sockets|), sockets := c.sockets + [Connecting])
  }

  predicate IsConnecting<J>(c: Client<J>, k: nat) {
    k < |c.sockets| && c.sockets[k] == Connecting
  }

  predicate IsOpen<J>(c: Client<J>, k: nat) {
    k < |c.sockets| && c.sockets[k] == Open
  }

  predicate NotClosed<J>(c: Client<J>, k: nat) {
    k < |c.sockets| && c.sockets[k] != Closed
  }

  /** `onopen` of socket `k`. */
  function AfterOpen<J>(c: Client<J>, k: nat): Client<J>
    requires IsConnecting(c, k)
  {
    c.(isConnected := true, sockets := c.sockets[k := Open], timers := ClearRef(c))
  }

  /** The decoded value when `JSON.parse` succeeds, the raw text otherwise. */
  function DecodeOrRaw<J>(data: string, decode: string -> Option<J>): (m: Inbound<J>)
    ensures m.Raw? <==> decode(data).None?
    ensures m.Raw? ==> m.text == data
    ensures m.Parsed? ==> decode(data) == Some(m.value)
  {
    match decode(data)
    case Some(v) => Parsed(v)
    case None => Raw(data)
  }

  /** `onmessage` of socket `k`: the new value replaces the last one. */
  function AfterMessage<J>(c: Client<J>, k: nat, data: string, decode: string -> Option<J>): Client<J>
    requires IsOpen(c, k)
  {
    c.(lastMessage := Some(DecodeOrRaw(data, decode)))
  }

  /** `onclose` of socket `k`: disconnected, and with `reconnect` one retry timer. */
  function AfterClose<J>(c: Client<J>, k: nat, cfg: Config): Client<J>
    requires NotClosed(c, k)
  {
    var closed := c.(isConnected := false, sockets := c.sockets[k := Closed]);
    if cfg.reconnect then
      closed.(timers := c.timers[c.nextHandle := cfg.interval],
              timerRef := Some(c.nextHandle),
              nextHandle := c.nextHandle + 1)
    else closed
  }

  /** `ws.close()` on socket `k`; its close event follows separately. */
  function CloseSocket(sockets: seq<ReadyState>, k: nat): seq<ReadyState>
    requires k < |sockets|
  {
    if sockets[k] == Connecting || sockets[k] == Open then sockets[k := Closing] else sockets
  }

  /**
   * `onerror` of socket `k`: it only asks that socket to close.  A browser
   * dispatches `error` when the socket is already CLOSED, right before
   * `close`; the intermediate `Closing` state here is not observable, since
   * `isConnected` and `CanSend` come out the same either way.
   */
  function AfterError<J>(c: Client<J>, k: nat): Client<J>
    requires NotClosed(c, k)
  {
    c.(sockets := CloseSocket(c.sockets, k))
  }

  /** The reconnect timer `h` fires and runs `connect`. */
  function AfterTimer<J>(c: Client<J>, h: nat): Client<J>
    requires h in c.timers
  {
    AfterConnect(c.(timers := c.timers - {h}))
  }

  /** `wsRef.current` exists and is OPEN. */
  predicate CanSend<J>(c: Client<J>) {
    c.current.Some? && IsOpen(c, c.current.value)
  }

  /** `sendMessage(v)`: one encoded frame on the current socket when it is open, otherwise nothing. */
  function AfterSend<J>(c: Client<J>, v: J, encode: J -> string): Client<J> {
    if CanSend(c) then c.(sent := c.sent + [Frame(c.current.value, encode(v))]) else c
  }

  /** The effect's cleanup: close the current socket, clear the timer the ref names. */
  function AfterCleanup<J>(c: Client<J>): Client<J> {
    var sockets :=
      if c.current.Some? && c.current.value < |c.sockets| then CloseSocket(c.sockets, c.current.value)
      else c.sockets;
    c.(sockets := sockets, timers := ClearRef(c))
  }

  /** Everything that can happen to the hook: its lifecycle, the browser's events and the caller's sends. */
  datatype Event<J> =
    | Mounted
    | SocketOpened(socket: nat)
    | SocketMessage(socket: nat, data: string)
    | SocketClosed(socket: nat)
    | SocketError(socket: nat)
    | TimerFired(handle: nat)
    | SendRequested(value: J)
    | Unmounted

  /** One event; `None` when the browser cannot deliver it in this state. */
  function Step<J>(c: Client<J>, e: Event<J>, cfg: Config, codec: Codec<J>): Option<Client<J>> {
    match e
    case Mounted => Some(AfterConnect(c))
    case SocketOpened(k) => if IsConnecting(c, k) then Some(AfterOpen(c, k)) else None
    case SocketMessage(k, data) => if IsOpen(c, k) then Some(AfterMessage(c, k, data, codec.decode)) else None
    case SocketClosed(k) => if NotClosed(c, k) then Some(AfterClose(c, k, cfg)) else None
    case SocketError(k) => if NotClosed(c, k) then Some(AfterError(c, k)) else None
    case TimerFired(h) => if h in c.timers then Some(AfterTimer(c, h)) else None
    case SendRequested(v) => Some(AfterSend(c, v, codec.encode))
    case Unmounted => Some(AfterCleanup(c))
  }

  /** A sequence of events; `None` as soon as one cannot be delivered. */
  function Run<J>(c: Client<J>, es: seq<Event<J>>, cfg: Config, codec: Codec<J>): Option<Client<J>>
    decreases |es|
  {
    if es == [] then Some(c)
    else match Step(c, es[0], cfg, codec)
      case None => None
      case Some(d) => Run(d, es[1..], cfg, codec)
  }

  /** Events of a mounted hook between its mount and its cleanup. */
  predicate WhileMounted<J>(e: Event<J>) {
    !e.Mounted? && !e.Unmounted?
  }

  /**
   * The invariant of a mounted hook: only the newest socket is not closed and
   * it is `wsRef.current`; `isConnected` is set while it is open (and may stay
   * set while it is closing, until its close event); a reconnect timer is
   * pending exactly when it is closed and `reconnect` is on, and it is the one
   * the ref names.
   */
  ghost predicate Live<J>(c: Client<J>, cfg: Config) {
    && |c.sockets| > 0
    && c.current == Some(|c.sockets| - 1)
    && (forall k :: 0 <= k < |c.sockets| - 1 ==> c.sockets[k] == Closed)
    && (forall h :: h in c.timers ==> h < c.nextHandle)
    && var state := c.sockets[|c.sockets| - 1];
    && (state == Open ==> c.isConnected)
    && (c.isConnected ==> state == Open || state == Closing)
    && (state != Closed ==> c.timers == map[])
    && (state == Closed ==> !c.isConnected)
    && (state == Closed && cfg.reconnect ==> c.timerRef.Some? && c.timers.Keys == {c.timerRef.value})
    && (!cfg.reconnect ==> c.timers == map[])
  }

  /** The mount effect starts a live hook: one connecting socket, nothing pending. */
  lemma MountStartsLive<J>(cfg: Config)
    ensures Live(AfterConnect(Initial<J>()), cfg)
    ensures !AfterConnect(Initial<J>()).isConnected
    ensures AfterConnect(Initial<J>()).lastMessage == None
  {
  }

  /** What a live hook promises its callers. */
  lemma LiveFacts<J>(c: Client<J>, cfg: Config)
    requires Live(c, cfg)
    ensures WellFormed(c)
    ensures forall h :: h in c.timers ==> c.timerRef == Some(h)
    ensures c.isConnected ==> c.sockets[c.current.value] in {Open, Closing}
    ensures CanSend(c) ==> c.isConnected
    ensures forall k :: 0 <= k < |c.sockets| && c.sockets[k] != Closed ==> c.current == Some(k)
  {
  }

  /** Every event the browser can deliver to a mounted hook keeps it live. */
  lemma StepKeepsLive<J>(c: Client<J>, e: Event<J>, cfg: Config, codec: Codec<J>)
    requires Live(c, cfg) && WhileMounted(e)
    requires Step(c, e, cfg, codec).Some?
    ensures Live(Step(c, e, cfg, codec).value, cfg)
  {
    var d := Step(c, e, cfg, codec).value;
    var last := |c.sockets| - 1;
    match e
    case SocketOpened(k) =>
      assert k == last;
    case SocketMessage(k, data) =>
    case SocketClosed(k) =>
      assert k == last;
      if cfg.reconnect {
        assert d.timers.Keys == {c.nextHandle};
      }
    case SocketError(k) =>
      assert k == last;
    case TimerFired(h) =>
      assert c.timers.Keys == {h};
      assert d.timers == map[];
      assert d.sockets[last] == Closed;
    case SendRequested(v) =>
  }

  /**
   * However the browser's events and the caller's sends interleave between
   * mount and cleanup, the hook stays live: never more than one reconnect
   * timer is pending, and never more than one socket is not closed.
   */
  lemma {:induction false} RunKeepsLive<J>(c: Client<J>, es: seq<Event<J>>, cfg: Config, codec: Codec<J>)
    requires Live(c, cfg)
    requires forall k :: 0 <= k < |es| ==> WhileMounted(es[k])
    ensures Run(c, es, cfg, codec).Some? ==> Live(Run(c, es, cfg, codec).value, cfg)
    decreases |es|
  {
    if es != [] && Step(c, es[0], cfg, codec).Some? {
      StepKeepsLive(c, es[0], cfg, codec);
      RunKeepsLive(Step(c, es[0], cfg, codec).value, es[1..], cfg, codec);
    }
  }

  /**
   * A close schedules exactly one retry after `interval` when `reconnect` is
   * on and nothing when it is off; either way the hook reports disconnected.
   */
  lemma CloseSchedulesOneRetry<J>(c: Client<J>, k: nat, cfg: Config)
    requires WellFormed(c) && NotClosed(c, k)
    ensures !AfterClose(c, k, cfg).isConnected
    ensures AfterClose(c, k, cfg).sockets[k] == Closed
    ensures cfg.reconnect ==>
      && |AfterClose(c, k, cfg).timers| == |c.timers| + 1
      && AfterClose(c, k, cfg).timers.Keys - c.timers.Keys == {AfterClose(c, k, cfg).timerRef.value}
      && AfterClose(c, k, cfg).timers[AfterClose(c, k, cfg).timerRef.value] == cfg.interval
    ensures !cfg.reconnect ==> AfterClose(c, k, cfg).timers == c.timers
  {
    if cfg.reconnect {
      assert c.nextHandle !in c.timers;
    }
  }

  /** An error only requests a close: followed by its close event it ends where the close alone would. */
  lemma ErrorThenClose<J>(c: Client<J>, k: nat, cfg: Config)
    requires NotClosed(c, k)
    ensures NotClosed(AfterError(c, k), k)
    ensures AfterError(c, k).isConnected == c.isConnected
    ensures AfterError(c, k).timers == c.timers
    ensures AfterClose(AfterError(c, k), k, cfg) == AfterClose(c, k, cfg)
  {
  }

  /**
   * A message replaces `lastMessage` (last write wins, no history) with the
   * decoded value or the raw text, and changes nothing else.
   */
  lemma MessageReplacesLast<J>(c: Client<J>, k: nat, d1: string, d2: string, decode: string -> Option<J>)
    requires IsOpen(c, k)
    ensures AfterMessage(AfterMessage(c, k, d1, decode), k, d2, decode) == AfterMessage(c, k, d2, decode)
    ensures AfterMessage(c, k, d2, decode).(lastMessage := c.lastMessage) == c
    ensures decode(d2).Some? ==> AfterMessage(c, k, d2, decode).lastMessage == Some(Parsed(decode(d2).value))
    ensures decode(d2).None? ==> AfterMessage(c, k, d2, decode).lastMessage == Some(Raw(d2))
  {
  }

  /**
   * A send transmits exactly one frame, the encoded value on the current
   * socket, when that socket is open; otherwise it changes nothing at all.
   */
  lemma SendOnlyWhenOpen<J>(c: Client<J>, v: J, encode: J -> string)
    ensures CanSend(c) ==> AfterSend(c, v, encode).sent == c.sent + [Frame(c.current.value, encode(v))]
    ensures !CanSend(c) ==> AfterSend(c, v, encode) == c
    ensures AfterSend(c, v, encode).(sent := c.sent) == c
  {
  }

  /**
   * A connection that opens, closes and retries: disconnected with one retry
   * timer of 3000 ms, which starts a new socket; when that one opens the hook
   * is connected again with nothing pending.
   */
  lemma ReconnectScenario<J>(codec: Codec<J>)
    ensures var cfg := Configure(None, None);
      var mounted := AfterConnect(Initial<J>());
      var up := AfterOpen(mounted, 0);
      var closed := AfterClose(up, 0, cfg);
      && !closed.isConnected
      && closed.timerRef.Some?
      && closed.timers == map[closed.timerRef.value := 3000]
      && var retried := AfterTimer(closed, closed.timerRef.value);
      && retried.current == Some(1) && retried.sockets == [Closed, Connecting]
      && AfterOpen(retried, 1).isConnected
      && AfterOpen(retried, 1).timers == map[]
  {
    var cfg := Configure(None, None);
    var closed := AfterClose(AfterOpen(AfterConnect(Initial<J>()), 0), 0, cfg);
    assert closed.timers.Keys == {closed.timerRef.value};
  }

  /**
   * Cleanup leaves no reconnect timer pending, whatever state the hook is in.
   * When the socket had already closed (the one case where a retry can be
   * pending), every socket stays closed, so no later close event can schedule
   * another retry.
   */
  lemma CleanupClearsRetry<J>(c: Client<J>, cfg: Config)
    requires Live(c, cfg)
    ensures AfterCleanup(c).timers == map[]
    ensures AfterCleanup(c).isConnected == c.isConnected
    ensures c.timers != map[] ==>
      forall k :: 0 <= k < |AfterCleanup(c).sockets| ==> AfterCleanup(c).sockets[k] == Closed
  {
    LiveFacts(c, cfg);
  }

  /**
   * Cleanup of a socket that has not closed yet leaves it closing, but the
   * close handler is not guarded: the close event that follows the cleanup
   * still schedules a retry, and when it fires a new socket is created.
   */
  lemma CleanupThenCloseStillReconnects<J>(c: Client<J>, cfg: Config)
    requires Live(c, cfg) && cfg.reconnect
    requires NotClosed(c, c.current.value)
    ensures var d := AfterCleanup(c);
      var k := c.current.value;
      && d.sockets[k] == Closing && d.timers == map[]
      && var e := AfterClose(d, k, cfg);
      && e.timerRef.Some? && e.timerRef.value in e.timers
      && |AfterTimer(e, e.timerRef.value).sockets| == |c.sockets| + 1
      && AfterTimer(e, e.timerRef.value).sockets[|c.sockets|] == Connecting
  {
  }

  /** The `useWebSocket` hook instance: its state cells and refs as fields, each handler as a method. */
  class Hook<J> {
    const config: Config
    const codec: Codec<J>
    var isConnected: bool
    var lastMessage: Option<Inbound<J>>
    var wsRef: Option<nat>
    var sockets: seq<ReadyState>
    var reconnectTimer: Option<nat>
    var timers: map<nat, int>
    var nextHandle: nat
    var sent: seq<Frame>

    function State(): Client<J>
      reads this
    {
      Client(isConnected, lastMessage, wsRef, sockets, reconnectTimer, timers, nextHandle, sent)
    }

    /** The hook is mounted and live: at most one reconnect timer, at most one unclosed socket. */
    ghost predicate Valid()
      reads this
    {
      Live(State(), config)
    }

    constructor (reconnect: Option<bool>, reconnectInterval: Option<int>, codec: Codec<J>)
      ensures config == Configure(reconnect, reconnectInterval) && this.codec == codec
      ensures State() == Initial()
    {
      config := Configure(reconnect, reconnectInterval);
      this.codec := codec;
      isConnected, lastMessage := false, None;
      wsRef, sockets := None, [];
      reconnectTimer, timers, nextHandle := None, map[], 1;
      sent := [];
    }

    /** `connect`: create a socket and store it in the ref. */
    method Connect()
      modifies this
      ensures State() == AfterConnect(old(State()))
    {
      wsRef := Some(|sockets|);
      sockets := sockets + [Connecting];
    }

    /** The mount effect; on a fresh hook it makes the hook live. */
    method Mount()
      modifies this
      ensures State() == AfterConnect(old(State()))
      ensures old(State()) == Initial() ==> Valid()
    {
      Connect();
      MountStartsLive<J>(config);
    }

    method OnOpen(k: nat)
      requires IsConnecting(State(), k)
      modifies this
      ensures State() == AfterOpen(old(State()), k)
      ensures old(Valid()) ==> Valid()
    {
      ghost var c := State();
      if Live(c, config) {
        StepKeepsLive(c, SocketOpened(k), config, codec);
      }
      isConnected := true;
      sockets := sockets[k := Open];
      if reconnectTimer.Some? {
        timers := timers - {reconnectTimer.value};
      }
    }

    method OnMessage(k: nat, data: string)
      requires IsOpen(State(), k)
      modifies this
      ensures State() == AfterMessage(old(State()), k, data, codec.decode)
      ensures old(Valid()) ==> Valid()
    {
      ghost var c := State();
      if Live(c, config) {
        StepKeepsLive(c, SocketMessage(k, data), config, codec);
      }
      match codec.decode(data)
      case Some(v) => lastMessage := Some(Parsed(v));
      case None => lastMessage := Some(Raw(data));
    }

    method OnClose(k: nat)
      requires NotClosed(State(), k)
      modifies this
      ensures State() == AfterClose(old(State()), k, config)
      ensures old(Valid()) ==> Valid()
    {
      ghost var c := State();
      if Live(c, config) {
        StepKeepsLive(c, SocketClosed(k), config, codec);
      }
      isConnected := false;
      sockets := sockets[k := Closed];
      if config.reconnect {
        timers := timers[nextHandle := config.interval];
        reconnectTimer := Some(nextHandle);
        nextHandle := nextHandle + 1;
      }
    }

    method OnError(k: nat)
      requires NotClosed(State(), k)
      modifies this
      ensures State() == AfterError(old(State()), k)
      ensures old(Valid()) ==> Valid()
    {
      ghost var c := State();
      if Live(c, config) {
        StepKeepsLive(c, SocketError(k), config, codec);
      }
      if sockets[k] == Connecting || sockets[k] == Open {
        sockets := sockets[k := Closing];
      }
    }

    /** The reconnect timer `h` fires. */
    method OnTimer(h: nat)
      requires h in timers
      modifies this
      ensures State() == AfterTimer(old(State()), h)
      ensures old(Valid()) ==> Valid()
    {
      ghost var c := State();
      if Live(c, config) {
        StepKeepsLive(c, TimerFired(h), config, codec);
      }
      timers := timers - {h};
      Connect();
    }

    method SendMessage(v: J)
      modifies this
      ensures State() == AfterSend(old(State()), v, codec.encode)
      ensures old(Valid()) ==> Valid()
    {
      ghost var c := State();
      if Live(c, config) {
        StepKeepsLive(c, SendRequested(v), config, codec);
      }
      if wsRef.Some? && wsRef.value < |sockets| && sockets[wsRef.value] == Open {
        sent := sent + [Frame(wsRef.value, codec.encode(v))];
      }
    }

    /** The effect's cleanup on unmount. */
    method Cleanup()
      modifies this
      ensures State() == AfterCleanup(old(State()))
      ensures old(Valid()) ==> timers == map[]
    {
      ghost var c := State();
      if Live(c, config) {
        CleanupClearsRetry(c, config);
      }
      if wsRef.Some? && wsRef.value < |sockets| {
        sockets := CloseSocket(sockets, wsRef.value);
      }
      if reconnectTimer.Some? {
        timers := timers - {reconnectTimer.value};
      }
    }
  }
}
