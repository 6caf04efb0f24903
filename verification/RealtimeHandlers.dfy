/**
 What each handler and method of the realtime client does to its fields.

 One function per handler. The browser's side of the client is kept by value:
 the current socket with its ready state and everything sent on it, whether the
 two timers are armed, and how many continuations wait on a token refresh.
 `RealtimeClient` implements these functions on mutable fields; `RealtimeRuns`
 composes them with a network and a server.
 */
module RealtimeHandlers {
  import opened Basics

  datatype Status = Connecting | Connected | Reconnecting | Offline

  datatype ReadyState = CONNECTING | OPEN | CLOSING

  type Listener = nat

  datatype ClientMessage =
    | Auth(token: string)
    | Bye
    | SubscribeSession(sessionId: string, fromSequence: Option<int>)
    | UnsubscribeSession(sessionId: string)
    | SubscribeDevice(deviceId: string)
    | UnsubscribeDevice(deviceId: string)

  datatype Envelope = Envelope(sessionId: Option<string>, deviceId: Option<string>, sequence: Option<int>)

  datatype ServerMessage =
    | Welcome
    | Event(sessionId: Option<string>, deviceId: Option<string>, sequence: Option<int>, envelope: Option<Envelope>)
    | Notice  // integration_update, integration_data and usage_alert
    | Disconnected(source: string)
    | Unknown // any other type, or text that does not parse

  /** Callback invocations, one record per notified listener set: the listeners of it that were called. */
  datatype Call =
    | GlobalCall(listeners: set<Listener>, message: ServerMessage)
    | SessionCall(sessionId: string, listeners: set<Listener>, sequence: Option<int>)
    | DeviceCall(deviceId: string, listeners: set<Listener>, message: ServerMessage)

  /**
   How the calls for one message end: all return, or a listener throws and the
   surrounding catch drops the rest. `called` are the listeners of its set that
   were called, itself included.
   */
  datatype Fate =
    | Returns
    | GlobalThrows(called: set<Listener>)
    | SessionThrows(called: set<Listener>)
    | DeviceThrows(called: set<Listener>)

  datatype Socket = Socket(serial: nat, token: string, ready: ReadyState, sent: seq<ClientMessage>)

  /**
   A timer handle. Every write of a handle is preceded by clearing the old
   timer, so an armed timer is always the one the handle names.
   */
  datatype Timer<T> = Unset | Armed(payload: T) | Fired

  datatype Line = Line(
    ws: Option<Socket>,
    created: nat,                    // sockets made so far; gives each its serial
    welcomeTimer: Timer<nat>,        // the serial of the socket it watches
    didOpen: bool,
    welcomed: bool)

  datatype Retry = Retry(
    timer: Timer<real>,              // the delay it was armed with
    attempts: nat,
    intentionallyClosed: bool,
    awaitConnect: nat,               // refreshes whose result will call connect()
    awaitRetry: nat)                 // refreshes whose result will schedule a reconnect

  datatype Interest = Interest(
    sessions: map<string, set<Listener>>,
    devices: map<string, set<Listener>>,
    globals: set<Listener>,
    lastSequence: map<string, int>)

  datatype Client = Client(line: Line, retry: Retry, interest: Interest, status: Status, calls: seq<Call>)

  const Initial := Client(Line(None, 0, Unset, false, false), Retry(Unset, 0, false, 0, 0),
                          Interest(map[], map[], {}, map[]), Offline, [])

  // ---------------------------------------------------------------- sending

  predicate IsOpen(l: Line) {
    l.ws.Some? && l.ws.value.ready == OPEN
  }

  function SendAll(l: Line, messages: seq<ClientMessage>): Line {
    if IsOpen(l) then l.(ws := Some(l.ws.value.(sent := l.ws.value.sent + messages))) else l
  }

  function Send(l: Line, message: ClientMessage): Line {
    SendAll(l, [message])
  }

  lemma SendAllAppends(l: Line, a: seq<ClientMessage>, b: seq<ClientMessage>)
    ensures SendAll(l, []) == l
    ensures SendAll(SendAll(l, a), b) == SendAll(l, a + b)
  {
    if IsOpen(l) {
      var sent := l.ws.value.sent;
      assert sent + [] == sent;
      assert (sent + a) + b == sent + (a + b);
    }
  }

  function SubscribeMessage(last: map<string, int>, sessionId: string): ClientMessage {
    SubscribeSession(sessionId, if sessionId in last then Some(last[sessionId] + 1) else None)
  }

  // ---------------------------------------------------------------- backoff

  function Pow15(n: nat): real {
    if n == 0 then 1.0 else 1.5 * Pow15(n - 1)
  }

  /** The wait before reconnect attempt `n`, in milliseconds. */
  function Delay(n: nat): real
    requires n > 0
  {
    var grown := 1000.0 * Pow15(n - 1);
    if grown < 10000.0 then grown else 10000.0
  }

  function ScheduleReconnect(r: Retry): Retry {
    r.(attempts := r.attempts + 1, timer := Armed(Delay(r.attempts + 1)))
  }

  // ------------------------------------------------------------- connecting

  /** Whether a call of connect() gets as far as `new WebSocket`. */
  predicate WillDial(l: Line, token: Option<string>) {
    Truthy(token) && !(l.ws.Some? && l.ws.value.ready != CLOSING)
  }

  function Connect(c: Client, token: Option<string>, constructorThrows: bool): Client {
    if c.line.ws.Some? && (c.line.ws.value.ready == OPEN || c.line.ws.value.ready == CONNECTING) then c
    else
      var r := c.retry.(intentionallyClosed := false);
      if Truthy(token) then Dial(c.(retry := r), token.value, constructorThrows)
      else c.(retry := r.(awaitConnect := r.awaitConnect + 1))
  }

  function OpenSocket(l: Line, token: string): Line {
    l.(ws := Some(Socket(l.created, token, CONNECTING, [])), created := l.created + 1)
  }

  /** The part of connect() from the first status change on. */
  function Dial(c: Client, token: string, constructorThrows: bool): Client {
    var l := c.line.(didOpen := false, welcomed := false);
    Client(if constructorThrows then l else OpenSocket(l, token),
           if constructorThrows then ScheduleReconnect(c.retry) else c.retry,
           c.interest,
           if c.retry.attempts > 0 then Reconnecting else Connecting,
           c.calls)
  }

  /** The refresh asked for by connect() has settled. */
  function ConnectTokenArrived(c: Client, renewed: bool, token: Option<string>, constructorThrows: bool): Client
    requires c.retry.awaitConnect > 0
  {
    var c1 := c.(retry := c.retry.(awaitConnect := c.retry.awaitConnect - 1));
    if renewed then Connect(c1, token, constructorThrows) else c1.(status := Offline)
  }

  /** The refresh asked for by a rejected socket has settled. */
  function RetryTokenArrived(c: Client, renewed: bool): Client
    requires c.retry.awaitRetry > 0
  {
    var r := c.retry.(awaitRetry := c.retry.awaitRetry - 1);
    if renewed then c.(retry := ScheduleReconnect(r)) else c.(retry := r, status := Offline)
  }

  function ReconnectTimerFired(c: Client, token: Option<string>, constructorThrows: bool): Client {
    Connect(c.(retry := c.retry.(timer := Fired)), token, constructorThrows)
  }

  // --------------------------------------------------------- socket handlers

  function OnOpen(l: Line): Line
    requires l.ws.Some?
  {
    Send(l, Auth(l.ws.value.token)).(didOpen := true, welcomeTimer := Armed(l.ws.value.serial))
  }

  function WelcomeDeadline(l: Line): Line
    requires l.welcomeTimer.Armed?
  {
    var l1 := l.(welcomeTimer := Fired);
    if !l.welcomed && l.ws.Some? && l.ws.value.serial == l.welcomeTimer.payload
    then l1.(ws := Some(l.ws.value.(ready := CLOSING)))
    else l1
  }

  /** `order` lists the keys of `m`, each once, as a map iteration does. */
  ghost predicate Enumerates<V>(order: seq<string>, m: map<string, V>) {
    && (forall k :: k in order <==> k in m)
    && (forall i, j :: 0 <= i < j < |order| ==> order[i] != order[j])
  }

  function SessionRequests(last: map<string, int>, order: seq<string>): seq<ClientMessage> {
    seq(|order|, i requires 0 <= i < |order| => SubscribeMessage(last, order[i]))
  }

  function DeviceRequests(order: seq<string>): seq<ClientMessage> {
    seq(|order|, i requires 0 <= i < |order| => SubscribeDevice(order[i]))
  }

  function OnWelcome(c: Client, sessionOrder: seq<string>, deviceOrder: seq<string>): Client {
    var requests := SessionRequests(c.interest.lastSequence, sessionOrder) + DeviceRequests(deviceOrder);
    c.(line := SendAll(c.line.(welcomed := true, welcomeTimer := Unset), requests),
       retry := c.retry.(attempts := 0),
       status := Connected)
  }

  function Or(a: Option<string>, b: Option<string>): Option<string> {
    if Truthy(a) then a else b
  }

  /** The session whose listeners hear this message, if any. */
  function TargetSession(m: ServerMessage): Option<string> {
    if m.Event? && m.envelope.Some?
    then
      var t := Or(m.sessionId, m.envelope.value.sessionId);
      if Truthy(t) then t else None
    else None
  }

  function TargetDevice(m: ServerMessage): Option<string>
    requires m.Event?
  {
    var t := Or(m.deviceId, if m.envelope.Some? then m.envelope.value.deviceId else None);
    if Truthy(t) then t else None
  }

  function SequenceOf(m: ServerMessage): Option<int>
    requires m.Event? && m.envelope.Some?
  {
    if m.sequence.Some? then m.sequence else m.envelope.value.sequence
  }

  function NoteSequence(last: map<string, int>, s: string, sequence: Option<int>): map<string, int> {
    if sequence.None? then last
    else last[s := Max(sequence.value, if s in last then last[s] else 0)]
  }

  predicate Listens(i: Interest, s: string, l: Listener) {
    s in i.sessions && l in i.sessions[s]
  }

  function SessionListeners(i: Interest, m: ServerMessage): set<Listener> {
    var t := TargetSession(m);
    if t.Some? && t.value in i.sessions then i.sessions[t.value] else {}
  }

  function DeviceListeners(i: Interest, m: ServerMessage): set<Listener>
    requires m.Event?
  {
    var t := TargetDevice(m);
    if t.Some? && t.value in i.devices then i.devices[t.value] else {}
  }

  predicate SomeOf(called: set<Listener>, listeners: set<Listener>) {
    called != {} && called <= listeners
  }

  /** The calls for `m` can end that way. */
  predicate FateFits(i: Interest, m: ServerMessage, fate: Fate) {
    match fate
    case Returns => true
    case GlobalThrows(called) => (m.Event? || m.Notice?) && SomeOf(called, i.globals)
    case SessionThrows(called) => m.Event? && SomeOf(called, SessionListeners(i, m))
    case DeviceThrows(called) => m.Event? && SomeOf(called, DeviceListeners(i, m))
  }

  ghost predicate Quiet(listeners: set<Listener>, throws: Listener -> bool) {
    forall l :: l in listeners ==> !throws(l)
  }

  /** The calls for event `m` end that way when `throws` says which listeners throw. */
  ghost predicate Follows(i: Interest, m: ServerMessage, throws: Listener -> bool, fate: Fate)
    requires m.Event?
  {
    && FateFits(i, m, fate)
    && (fate.GlobalThrows? <==> !Quiet(i.globals, throws))
    && (fate.SessionThrows? <==> Quiet(i.globals, throws) && !Quiet(SessionListeners(i, m), throws))
    && (fate.Returns? ==> Quiet(DeviceListeners(i, m), throws))
    && (!fate.Returns? ==> !Quiet(fate.called, throws))
  }

  function GlobalCalls(i: Interest, m: ServerMessage, fate: Fate): seq<Call> {
    [GlobalCall(if fate.GlobalThrows? then fate.called else i.globals, m)]
  }

  function NotifySession(c: Client, m: ServerMessage, fate: Fate): Client
    requires m.Event?
  {
    match TargetSession(m)
    case None => c
    case Some(s) =>
      var sequence := SequenceOf(m);
      var called := if fate.SessionThrows? then fate.called else SessionListeners(c.interest, m);
      c.(interest := c.interest.(lastSequence := NoteSequence(c.interest.lastSequence, s, sequence)),
         calls := if s in c.interest.sessions then c.calls + [SessionCall(s, called, sequence)] else c.calls)
  }

  function DeviceCalls(i: Interest, m: ServerMessage, fate: Fate): seq<Call>
    requires m.Event?
  {
    match TargetDevice(m)
    case Some(d) =>
      if d in i.devices then [DeviceCall(d, if fate.DeviceThrows? then fate.called else i.devices[d], m)] else []
    case None => []
  }

  function OnEvent(c: Client, m: ServerMessage, fate: Fate): Client
    requires m.Event?
  {
    var c1 := c.(calls := c.calls + GlobalCalls(c.interest, m, fate));
    if fate.GlobalThrows? then c1
    else
      var c2 := NotifySession(c1, m, fate);
      if fate.SessionThrows? then c2 else c2.(calls := c2.calls + DeviceCalls(c2.interest, m, fate))
  }

  /** Every message except the welcome, which `OnWelcome` handles. */
  function OnOtherMessage(c: Client, m: ServerMessage, fate: Fate): Client
    requires !m.Welcome?
  {
    match m
    case Event(_, _, _, _) => OnEvent(c, m, fate)
    case Notice => c.(calls := c.calls + GlobalCalls(c.interest, m, fate))
    case Disconnected(source) =>
      if source == "workstation" then c.(retry := c.retry.(intentionallyClosed := true), status := Offline) else c
    case Unknown => c
  }

  function OnClose(c: Client, code: nat): Client {
    Client(c.line.(ws := None, welcomeTimer := Unset),
           if code == 4004 then c.retry.(intentionallyClosed := true)
           else if c.retry.intentionallyClosed then c.retry
           else RetryAfterClose(c.retry, code == 4001 || (c.line.didOpen && !c.line.welcomed)),
           c.interest,
           if code == 4004 || c.retry.intentionallyClosed then Offline else Reconnecting,
           c.calls)
  }

  /** A rejected token is refreshed before the next attempt; other closes wait and retry. */
  function RetryAfterClose(r: Retry, rejected: bool): Retry {
    if rejected then r.(awaitRetry := r.awaitRetry + 1) else ScheduleReconnect(r)
  }

  // ---------------------------------------------------------- subscriptions

  /** The first subscription to a session. */
  function OpenSession(c: Client, s: string): Client {
    c.(interest := c.interest.(sessions := c.interest.sessions[s := {}]),
       line := Send(c.line, SubscribeMessage(c.interest.lastSequence, s)))
  }

  function AddSessionListener(c: Client, s: string, l: Listener): Client {
    var c1 := if s in c.interest.sessions then c else OpenSession(c, s);
    c1.(interest := c1.interest.(sessions := c1.interest.sessions[s := c1.interest.sessions[s] + {l}]))
  }

  function RemoveSessionListener(c: Client, s: string, l: Listener): Client {
    if s !in c.interest.sessions then c
    else
      var rest := c.interest.sessions[s] - {l};
      if rest != {} then c.(interest := c.interest.(sessions := c.interest.sessions[s := rest]))
      else c.(interest := c.interest.(sessions := c.interest.sessions - {s},
                                      lastSequence := c.interest.lastSequence - {s}),
              line := Send(c.line, UnsubscribeSession(s)))
  }

  function AddDeviceListener(c: Client, d: string, l: Listener): Client {
    var known := if d in c.interest.devices then c.interest.devices[d] else {};
    c.(interest := c.interest.(devices := c.interest.devices[d := known + {l}]),
       line := if d in c.interest.devices then c.line else Send(c.line, SubscribeDevice(d)))
  }

  function RemoveDeviceListener(c: Client, d: string, l: Listener): Client {
    if d !in c.interest.devices then c
    else
      var rest := c.interest.devices[d] - {l};
      if rest != {} then c.(interest := c.interest.(devices := c.interest.devices[d := rest]))
      else c.(interest := c.interest.(devices := c.interest.devices - {d}),
              line := Send(c.line, UnsubscribeDevice(d)))
  }

  /** What is left when disconnect() has said goodbye on the socket, closed it and let it go. */
  function Disconnect(c: Client): Client {
    c.(retry := c.retry.(intentionallyClosed := true, timer := Unset),
       line := c.line.(ws := None),
       status := Offline)
  }
}
