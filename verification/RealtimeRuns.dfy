/**
 Runs of the realtime client against a browser, a network and a server.

 An action is one event: a call by the page, a timer, a settled token refresh, a
 socket event, a delivered message, or a step of the server. The connection is
 first-in first-out both ways. The server streams a session contiguously from
 the `fromSequence` it was asked for, or from a point of its own choosing when
 it was asked for none. Outside of the streams it may send any message at any
 time, events of sessions included once it has read a message of the socket: a
 broadcast reaches subscribed and unsubscribed sockets alike, before, between
 and behind the events of a stream.

 One premise is part of `Enabled`: a socket is created only after the close
 event of the previous one has been handled.
 */
module RealtimeRuns {
  import opened Basics
  import opened RealtimeHandlers

  /** A message on its way to the client, and whether it belongs to the stream of its session. */
  datatype Frame = Frame(message: ServerMessage, streamed: bool)

  /** The server's side of the current socket. */
  datatype Link = Link(
    read: nat,                   // how many of the sent messages it has read
    cursor: map<string, int>,    // next sequence number of each stream it serves
    down: seq<Frame>)            // on their way to the client

  const NewLink := Link(0, map[], [])

  /** Bookkeeping: a listener's current subscription to a session. */
  datatype Start = Start(
    index: nat,         // where it begins in the log of callback invocations
    from: Option<int>,  // the number behind the one that was noted when it began, if any was
    orderly: bool,      // nothing so far could lose it an event of the stream
    ahead: bool)        // a broadcast has come ahead of the stream

  datatype Ear = Ear(session: string, listener: Listener)

  datatype World = World(
    client: Client,
    link: Link,
    closing: bool,              // a socket let go by disconnect() has yet to report its close
    waits: seq<real>,           // reconnect delays since the last welcome
    since: map<Ear, Start>)

  const Start0 := World(Initial, NewLink, false, [], map[])

  datatype Action =
    | CallConnect(token: Option<string>, constructorThrows: bool)
    | CallDisconnect
    | Subscribe(session: string, listener: Listener)
    | Unsubscribe(session: string, listener: Listener)
    | WatchDevice(device: string, listener: Listener)
    | UnwatchDevice(device: string, listener: Listener)
    | WatchAll(listener: Listener)
    | UnwatchAll(listener: Listener)
    | ReconnectTimer(token: Option<string>, constructorThrows: bool)
    | WelcomeTimer
    | ConnectToken(renewed: bool, token: Option<string>, constructorThrows: bool)
    | RetryToken(renewed: bool)
    | Opens
    | Drops
    | Closes(code: nat)
    | OldSocketCloses(code: nat)
    | DeliverWelcome(sessionOrder: seq<string>, deviceOrder: seq<string>)
    | DeliverOther(fate: Fate)
    | ServerReads(start: nat)
    | ServerStreams(message: ServerMessage)
    | ServerSays(message: ServerMessage)

  predicate MayDial(w: World, token: Option<string>, constructorThrows: bool) {
    WillDial(w.client.line, token) && !constructorThrows ==> w.client.line.ws.None? && !w.closing
  }

  ghost predicate Enabled(w: World, a: Action) {
    var c, l := w.client, w.client.line;
    match a
    case CallConnect(token, throws) => MayDial(w, token, throws)
    case ReconnectTimer(token, throws) => c.retry.timer.Armed? && MayDial(w, token, throws)
    case ConnectToken(renewed, token, throws) => c.retry.awaitConnect > 0 && (renewed ==> MayDial(w, token, throws))
    case RetryToken(_) => c.retry.awaitRetry > 0
    case WelcomeTimer => l.welcomeTimer.Armed?
    case Opens => l.ws.Some? && l.ws.value.ready == CONNECTING
    case Drops => l.ws.Some?
    case Closes(_) => l.ws.Some?
    case OldSocketCloses(_) => w.closing
    case DeliverWelcome(so, do) =>
      && IsOpen(l) && w.link.down != [] && w.link.down[0].message.Welcome?
      && Enumerates(so, c.interest.sessions) && Enumerates(do, c.interest.devices)
    case DeliverOther(fate) =>
      && IsOpen(l) && w.link.down != [] && !w.link.down[0].message.Welcome?
      && FateFits(c.interest, w.link.down[0].message, fate)
    case ServerReads(_) => l.ws.Some? && w.link.read < |l.ws.value.sent|
    case ServerStreams(m) =>
      && l.ws.Some? && TargetSession(m).Some? && TargetSession(m).value in w.link.cursor
      && SequenceOf(m) == Some(w.link.cursor[TargetSession(m).value])
    case ServerSays(m) => l.ws.Some? && (TargetSession(m).Some? ==> w.link.read > 0)
    case _ => true
  }

  function WithReady(l: Line, ready: ReadyState): Line
    requires l.ws.Some?
  {
    l.(ws := Some(l.ws.value.(ready := ready)))
  }

  ghost function ClientAfter(w: World, a: Action): Client
    requires Enabled(w, a)
  {
    var c := w.client;
    match a
    case CallConnect(token, throws) => Connect(c, token, throws)
    case CallDisconnect => Disconnect(c)
    case Subscribe(s, l) => AddSessionListener(c, s, l)
    case Unsubscribe(s, l) => RemoveSessionListener(c, s, l)
    case WatchDevice(d, l) => AddDeviceListener(c, d, l)
    case UnwatchDevice(d, l) => RemoveDeviceListener(c, d, l)
    case WatchAll(l) => c.(interest := c.interest.(globals := c.interest.globals + {l}))
    case UnwatchAll(l) => c.(interest := c.interest.(globals := c.interest.globals - {l}))
    case ReconnectTimer(token, throws) => ReconnectTimerFired(c, token, throws)
    case WelcomeTimer => c.(line := WelcomeDeadline(c.line))
    case ConnectToken(renewed, token, throws) => ConnectTokenArrived(c, renewed, token, throws)
    case RetryToken(renewed) => RetryTokenArrived(c, renewed)
    case Opens => c.(line := OnOpen(WithReady(c.line, OPEN)))
    case Drops => c.(line := WithReady(c.line, CLOSING))
    case Closes(code) => OnClose(c, code)
    case OldSocketCloses(code) => OnClose(c, code)
    case DeliverWelcome(so, do) => OnWelcome(c, so, do)
    case DeliverOther(fate) => OnOtherMessage(c, w.link.down[0].message, fate)
    case ServerReads(_) => c
    case ServerStreams(_) => c
    case ServerSays(_) => c
  }

  /** What reading one client message does to the streams. */
  function Read(cursor: map<string, int>, m: ClientMessage, start: nat): map<string, int> {
    match m
    case SubscribeSession(s, Some(from)) => cursor[s := from]
    case SubscribeSession(s, None) => if s in cursor then cursor else cursor[s := start]
    case UnsubscribeSession(s) => cursor - {s}
    case _ => cursor
  }

  ghost function LinkAfter(w: World, a: Action): Link
    requires Enabled(w, a)
  {
    var c, l := w.client, w.link;
    match a
    case DeliverWelcome(_, _) => l.(down := l.down[1..])
    case DeliverOther(_) => l.(down := l.down[1..])
    case ServerReads(start) => l.(read := l.read + 1, cursor := Read(l.cursor, c.line.ws.value.sent[l.read], start))
    case ServerStreams(m) =>
      var s := TargetSession(m).value;
      l.(cursor := l.cursor[s := l.cursor[s] + 1], down := l.down + [Frame(m, true)])
    case ServerSays(m) => l.(down := l.down + [Frame(m, false)])
    case CallDisconnect => NewLink
    case Closes(_) => NewLink
    case _ => l
  }

  function Unread(w: World): seq<ClientMessage> {
    var ws := w.client.line.ws;
    if ws.Some? && w.link.read <= |ws.value.sent| then ws.value.sent[w.link.read..] else []
  }

  predicate Subscribes(m: ClientMessage, s: string) {
    m.SubscribeSession? && m.sessionId == s
  }

  predicate Requested(messages: seq<ClientMessage>, s: string) {
    exists i :: 0 <= i < |messages| && Subscribes(messages[i], s)
  }

  /** An earlier subscription to `s` lives on: its stream is served, or an event or a request of it is under way. */
  predicate Stale(w: World, s: string) {
    IsOpen(w.client.line) && (s in w.link.cursor || Streamed(w.link.down, s) != [] || Requested(Unread(w), s))
  }

  /** A listener subscribes: the first to a session that is not stale, or one that joins an orderly subscription. */
  function Begin(w: World, s: string): Start {
    var c := w.client;
    var joins := s in c.interest.sessions;
    Start(|c.calls|,
          Resume(c.interest.lastSequence, s),
          if joins then exists k :: k in c.interest.sessions[s] && Orderly(w, s, k) else !Stale(w, s),
          false)
  }

  predicate Orderly(w: World, s: string, l: Listener) {
    Ear(s, l) in w.since && w.since[Ear(s, l)].orderly
  }

  /** Listener `l` is called with the numbered event `m` of `s`. */
  predicate Hears(i: Interest, m: ServerMessage, fate: Fate, s: string, l: Listener) {
    && IsFor(m, s) && Listens(i, s, l)
    && !fate.GlobalThrows? && (fate.SessionThrows? ==> l in fate.called)
  }

  /**
   A numbered event of the session is delivered. An event of the stream must be
   heard. A broadcast may be missed or come ahead, unless it is the first number
   noted for the session.
   */
  function AfterDelivery(c: Client, f: Frame, fate: Fate, e: Ear, st: Start): Start {
    if !IsFor(f.message, e.session) then st
    else
      var hears := Hears(c.interest, f.message, fate, e.session, e.listener);
      if f.streamed then st.(orderly := st.orderly && hears)
      else if fate.GlobalThrows? then st
      else
        var n, h := SequenceOf(f.message).value, Get(c.interest.lastSequence, e.session);
        st.(orderly := st.orderly && h.Some?,
            ahead := st.ahead || (h.Some? && n > h.value + if hears then 1 else 0))
  }

  /** A new socket asks for what follows the noted number: what was missed below it does not come again. */
  ghost function AfterWelcome(c: Client, e: Ear, st: Start): Start {
    st.(orderly := st.orderly && st.index <= |c.calls|
                   && AllHeard(Heard(c.calls[st.index..], e.session, e.listener), st.from,
                               Get(c.interest.lastSequence, e.session)))
  }

  ghost function SinceAfter(w: World, a: Action): map<Ear, Start> {
    var c := w.client;
    match a
    case Subscribe(s, l) => if Listens(c.interest, s, l) then w.since else w.since[Ear(s, l) := Begin(w, s)]
    case DeliverWelcome(_, _) => map e | e in w.since :: AfterWelcome(c, e, w.since[e])
    case DeliverOther(fate) =>
      if w.link.down == [] then w.since
      else map e | e in w.since :: AfterDelivery(c, w.link.down[0], fate, e, w.since[e])
    case _ => w.since
  }

  ghost function Next(w: World, a: Action): World
    requires Enabled(w, a)
  {
    var c := ClientAfter(w, a);
    World(c,
          LinkAfter(w, a),
          if a.CallDisconnect? then w.closing || w.client.line.ws.Some? else w.closing && !a.OldSocketCloses?,
          if a.DeliverWelcome? then []
          else if c.retry.attempts > w.client.retry.attempts && c.retry.timer.Armed?
          then w.waits + [c.retry.timer.payload] else w.waits,
          SinceAfter(w, a))
  }

  /** The world after a run, or nothing if some action was not possible. */
  ghost function Run(w: World, actions: seq<Action>): Option<World>
    decreases |actions|
  {
    if actions == [] then Some(w)
    else if Enabled(w, actions[0]) then Run(Next(w, actions[0]), actions[1..])
    else None
  }

  ghost predicate Reachable(w: World) {
    exists actions :: Run(Start0, actions) == Some(w)
  }

  // ------------------------------------------------ what the server was asked

  /** The subscriptions after one more client message. */
  function AskSession(asked: set<string>, m: ClientMessage): set<string> {
    match m
    case SubscribeSession(s, _) => asked + {s}
    case UnsubscribeSession(s) => asked - {s}
    case _ => asked
  }

  function AskDevice(asked: set<string>, m: ClientMessage): set<string> {
    match m
    case SubscribeDevice(d) => asked + {d}
    case UnsubscribeDevice(d) => asked - {d}
    case _ => asked
  }

  /** The sessions subscribed to after a sequence of client messages. */
  function SessionsAsked(sent: seq<ClientMessage>): set<string> {
    if sent == [] then {} else AskSession(SessionsAsked(sent[..|sent| - 1]), sent[|sent| - 1])
  }

  function DevicesAsked(sent: seq<ClientMessage>): set<string> {
    if sent == [] then {} else AskDevice(DevicesAsked(sent[..|sent| - 1]), sent[|sent| - 1])
  }

  lemma AskedOne(sent: seq<ClientMessage>, m: ClientMessage)
    ensures SessionsAsked(sent + [m]) == AskSession(SessionsAsked(sent), m)
    ensures DevicesAsked(sent + [m]) == AskDevice(DevicesAsked(sent), m)
  {
    assert (sent + [m])[..|sent + [m]| - 1] == sent;
  }

  function Names(order: seq<string>): set<string> {
    set s | s in order
  }

  lemma LastSessionRequest(sent: seq<ClientMessage>, last: map<string, int>, order: seq<string>)
    requires order != []
    ensures var n := |order| - 1;
      sent + SessionRequests(last, order) == sent + SessionRequests(last, order[..n]) + [SubscribeMessage(last, order[n])]
  {
  }

  lemma LastDeviceRequest(sent: seq<ClientMessage>, order: seq<string>)
    requires order != []
    ensures var n := |order| - 1;
      sent + DeviceRequests(order) == sent + DeviceRequests(order[..n]) + [SubscribeDevice(order[n])]
  {
  }

  lemma LastName(order: seq<string>)
    requires order != []
    ensures Names(order) == Names(order[..|order| - 1]) + {order[|order| - 1]}
  {
    assert order == order[..|order| - 1] + [order[|order| - 1]];
  }

  lemma {:induction false} AskedSessions(sent: seq<ClientMessage>, last: map<string, int>, order: seq<string>)
    ensures SessionsAsked(sent + SessionRequests(last, order)) == SessionsAsked(sent) + Names(order)
    ensures DevicesAsked(sent + SessionRequests(last, order)) == DevicesAsked(sent)
  {
    if order == [] {
      assert sent + SessionRequests(last, order) == sent;
    } else {
      var n := |order| - 1;
      AskedSessions(sent, last, order[..n]);
      LastSessionRequest(sent, last, order);
      AskedOne(sent + SessionRequests(last, order[..n]), SubscribeMessage(last, order[n]));
      LastName(order);
    }
  }

  lemma {:induction false} AskedDevices(sent: seq<ClientMessage>, order: seq<string>)
    ensures DevicesAsked(sent + DeviceRequests(order)) == DevicesAsked(sent) + Names(order)
    ensures SessionsAsked(sent + DeviceRequests(order)) == SessionsAsked(sent)
  {
    if order == [] {
      assert sent + DeviceRequests(order) == sent;
    } else {
      var n := |order| - 1;
      AskedDevices(sent, order[..n]);
      LastDeviceRequest(sent, order);
      AskedOne(sent + DeviceRequests(order[..n]), SubscribeDevice(order[n]));
      LastName(order);
    }
  }

  ghost predicate LineInSync(sent: seq<ClientMessage>, sessions: set<string>, devices: set<string>, welcomed: bool) {
    && SessionsAsked(sent) <= sessions
    && DevicesAsked(sent) <= devices
    && (welcomed ==> SessionsAsked(sent) == sessions && DevicesAsked(sent) == devices)
  }

  ghost predicate NoEmptySet(m: map<string, set<Listener>>) {
    forall k :: k in m ==> m[k] != {}
  }

  /**
   While the socket is open the server has been asked for nothing the page does
   not listen to, and once welcomed for exactly that; no listener set is empty;
   and "connected" is shown only while a welcomed socket is held.
   */
  ghost predicate InSync(c: Client) {
    && SubscriptionsMatch(c.line, c.interest)
    && (c.status == Connected ==> c.line.ws.Some? && c.line.welcomed)
  }

  ghost predicate SubscriptionsMatch(l: Line, i: Interest) {
    && NoEmptySet(i.sessions)
    && NoEmptySet(i.devices)
    && (l.ws.Some? && l.ws.value.ready == CONNECTING ==> !l.welcomed && l.ws.value.sent == [])
    && (IsOpen(l) ==> LineInSync(l.ws.value.sent, i.sessions.Keys, i.devices.Keys, l.welcomed))
  }

  lemma ConnectKeepsSync(c: Client, token: Option<string>, throws: bool)
    requires InSync(c)
    ensures InSync(Connect(c, token, throws))
  {
  }

  lemma OpenKeepsSync(l: Line, i: Interest)
    requires SubscriptionsMatch(l, i) && l.ws.Some? && l.ws.value.ready == CONNECTING
    ensures SubscriptionsMatch(OnOpen(WithReady(l, OPEN)), i)
  {
    AskedOne([], Auth(l.ws.value.token));
  }

  lemma Reassociate(a: seq<ClientMessage>, b: seq<ClientMessage>, c: seq<ClientMessage>)
    ensures a + (b + c) == a + b + c
  {
  }

  lemma WelcomeAsksForAll(last: map<string, int>, so: seq<string>, do: seq<string>,
                          sent: seq<ClientMessage>, sessions: set<string>, devices: set<string>)
    requires SessionsAsked(sent) <= sessions && DevicesAsked(sent) <= devices
    requires Names(so) == sessions && Names(do) == devices
    ensures LineInSync(sent + (SessionRequests(last, so) + DeviceRequests(do)), sessions, devices, true)
  {
    AskedSessions(sent, last, so);
    AskedDevices(sent + SessionRequests(last, so), do);
    Reassociate(sent, SessionRequests(last, so), DeviceRequests(do));
  }

  lemma WelcomeKeepsSync(c: Client, so: seq<string>, do: seq<string>)
    requires InSync(c) && IsOpen(c.line)
    requires Enumerates(so, c.interest.sessions) && Enumerates(do, c.interest.devices)
    ensures InSync(OnWelcome(c, so, do))
  {
    assert Names(so) == c.interest.sessions.Keys;
    assert Names(do) == c.interest.devices.Keys;
    WelcomeAsksForAll(c.interest.lastSequence, so, do, c.line.ws.value.sent,
                      c.interest.sessions.Keys, c.interest.devices.Keys);
  }

  lemma OtherMessageKeepsSync(c: Client, m: ServerMessage, fate: Fate)
    requires InSync(c) && !m.Welcome?
    ensures InSync(OnOtherMessage(c, m, fate))
  {
    var r := OnOtherMessage(c, m, fate);
    assert r.line == c.line && r.interest.sessions == c.interest.sessions && r.interest.devices == c.interest.devices;
  }

  /** One more request keeps the line in sync with one more, or one less, session. */
  lemma RequestKeepsLine(sent: seq<ClientMessage>, sessions: set<string>, devices: set<string>, welcomed: bool, m: ClientMessage)
    requires LineInSync(sent, sessions, devices, welcomed)
    ensures LineInSync(sent + [m], AskSession(sessions, m), AskDevice(devices, m), welcomed)
  {
    AskedOne(sent, m);
  }

  lemma MoreListeners(m: map<string, set<Listener>>, k: string, listeners: set<Listener>)
    requires NoEmptySet(m) && listeners != {}
    ensures NoEmptySet(m[k := listeners]) && m[k := listeners].Keys == m.Keys + {k}
  {
  }

  lemma FewerListeners(m: map<string, set<Listener>>, k: string)
    requires NoEmptySet(m)
    ensures NoEmptySet(m - {k}) && (m - {k}).Keys == m.Keys - {k}
  {
  }

  /** Other listeners of the same sessions and devices. */
  lemma SameKeysKeepSync(c: Client, r: Client)
    requires InSync(c) && r.line == c.line && r.status == c.status
    requires NoEmptySet(r.interest.sessions) && r.interest.sessions.Keys == c.interest.sessions.Keys
    requires NoEmptySet(r.interest.devices) && r.interest.devices.Keys == c.interest.devices.Keys
    ensures InSync(r)
  {
  }

  /** A request sent for the session or device that comes or goes. */
  lemma RequestKeepsSync(c: Client, r: Client, m: ClientMessage)
    requires InSync(c) && r.line == Send(c.line, m) && r.status == c.status
    requires NoEmptySet(r.interest.sessions) && r.interest.sessions.Keys == AskSession(c.interest.sessions.Keys, m)
    requires NoEmptySet(r.interest.devices) && r.interest.devices.Keys == AskDevice(c.interest.devices.Keys, m)
    ensures InSync(r)
  {
    if IsOpen(c.line) {
      RequestKeepsLine(c.line.ws.value.sent, c.interest.sessions.Keys, c.interest.devices.Keys, c.line.welcomed, m);
    }
  }

  lemma SubscribeKeepsSync(c: Client, s: string, l: Listener)
    requires InSync(c)
    ensures InSync(AddSessionListener(c, s, l))
  {
    var known := if s in c.interest.sessions then c.interest.sessions[s] else {};
    var r := AddSessionListener(c, s, l);
    assert l in known + {l};
    MoreListeners(c.interest.sessions, s, known + {l});
    assert r.interest.sessions == c.interest.sessions[s := known + {l}];
    if s in c.interest.sessions {
      assert c.interest.sessions.Keys + {s} == c.interest.sessions.Keys;
      SameKeysKeepSync(c, r);
    } else {
      RequestKeepsSync(c, r, SubscribeMessage(c.interest.lastSequence, s));
    }
  }

  lemma UnsubscribeKeepsSync(c: Client, s: string, l: Listener)
    requires InSync(c)
    ensures InSync(RemoveSessionListener(c, s, l))
  {
    if s in c.interest.sessions {
      var r, rest := RemoveSessionListener(c, s, l), c.interest.sessions[s] - {l};
      if rest != {} {
        MoreListeners(c.interest.sessions, s, rest);
        assert c.interest.sessions.Keys + {s} == c.interest.sessions.Keys;
        SameKeysKeepSync(c, r);
      } else {
        FewerListeners(c.interest.sessions, s);
        RequestKeepsSync(c, r, UnsubscribeSession(s));
      }
    }
  }

  lemma WatchKeepsSync(c: Client, d: string, l: Listener)
    requires InSync(c)
    ensures InSync(AddDeviceListener(c, d, l))
  {
    var known := if d in c.interest.devices then c.interest.devices[d] else {};
    var r := AddDeviceListener(c, d, l);
    assert l in known + {l};
    MoreListeners(c.interest.devices, d, known + {l});
    if d in c.interest.devices {
      assert c.interest.devices.Keys + {d} == c.interest.devices.Keys;
      SameKeysKeepSync(c, r);
    } else {
      RequestKeepsSync(c, r, SubscribeDevice(d));
    }
  }

  lemma UnwatchKeepsSync(c: Client, d: string, l: Listener)
    requires InSync(c)
    ensures InSync(RemoveDeviceListener(c, d, l))
  {
    if d in c.interest.devices {
      var r, rest := RemoveDeviceListener(c, d, l), c.interest.devices[d] - {l};
      if rest != {} {
        MoreListeners(c.interest.devices, d, rest);
        assert c.interest.devices.Keys + {d} == c.interest.devices.Keys;
        SameKeysKeepSync(c, r);
      } else {
        FewerListeners(c.interest.devices, d);
        RequestKeepsSync(c, r, UnsubscribeDevice(d));
      }
    }
  }

  lemma StepKeepsSync(w: World, a: Action)
    requires Enabled(w, a) && InSync(w.client)
    ensures InSync(ClientAfter(w, a))
  {
    var c := w.client;
    match a
    case CallConnect(token, throws) => ConnectKeepsSync(c, token, throws);
    case ReconnectTimer(token, throws) => ConnectKeepsSync(c.(retry := c.retry.(timer := Fired)), token, throws);
    case ConnectToken(renewed, token, throws) =>
      ConnectKeepsSync(c.(retry := c.retry.(awaitConnect := c.retry.awaitConnect - 1)), token, throws);
    case Subscribe(s, l) => SubscribeKeepsSync(c, s, l);
    case Unsubscribe(s, l) => UnsubscribeKeepsSync(c, s, l);
    case WatchDevice(d, l) => WatchKeepsSync(c, d, l);
    case UnwatchDevice(d, l) => UnwatchKeepsSync(c, d, l);
    case Opens => OpenKeepsSync(c.line, c.interest);
    case DeliverWelcome(so, do) => WelcomeKeepsSync(c, so, do);
    case DeliverOther(fate) => OtherMessageKeepsSync(c, w.link.down[0].message, fate);
    case _ =>
  }

  lemma {:induction false} RunKeepsSync(w: World, actions: seq<Action>)
    requires InSync(w.client) && Run(w, actions).Some?
    ensures InSync(Run(w, actions).value.client)
    decreases |actions|
  {
    if actions != [] {
      StepKeepsSync(w, actions[0]);
      RunKeepsSync(Next(w, actions[0]), actions[1..]);
    }
  }

  /** Main result: in every run, what the server was asked for matches what the page listens to. */
  lemma SubscriptionsInSync(w: World)
    requires Reachable(w)
    ensures InSync(w.client)
  {
    var actions :| Run(Start0, actions) == Some(w);
    RunKeepsSync(Start0, actions);
  }

  // ------------------------------------------------------------- no gaps

  predicate IsFor(m: ServerMessage, s: string) {
    TargetSession(m) == Some(s) && SequenceOf(m).Some?
  }

  function NumberIn(f: Frame, s: string): seq<int> {
    if IsFor(f.message, s) then [SequenceOf(f.message).value] else []
  }

  /** The sequence numbers of session `s` on their way to the client. */
  function NumbersFor(down: seq<Frame>, s: string): seq<int> {
    if down == [] then [] else NumberIn(down[0], s) + NumbersFor(down[1..], s)
  }

  /** Those among them that belong to the stream of the session. */
  function Streamed(down: seq<Frame>, s: string): seq<int> {
    if down == [] then []
    else (if down[0].streamed then NumberIn(down[0], s) else []) + Streamed(down[1..], s)
  }

  /** The sequence numbers listener `l` of `s` was called with. */
  function Heard(calls: seq<Call>, s: string, l: Listener): seq<int> {
    if calls == [] then [] else Heard(calls[..|calls| - 1], s, l) + HeardIn(calls[|calls| - 1], s, l)
  }

  function HeardIn(x: Call, s: string, l: Listener): seq<int> {
    if x.SessionCall? && x.sessionId == s && l in x.listeners && x.sequence.Some? then [x.sequence.value] else []
  }

  function Resume(last: map<string, int>, s: string): Option<int> {
    if s in last then Some(last[s] + 1) else None
  }

  /** Where a subscription's numbers begin: behind the number noted before, or at the first heard. */
  function First(d: seq<int>, from: Option<int>): Option<int> {
    if from.Some? then from else if d != [] then Some(d[0]) else None
  }

  /** All numbers from the first up to `h` are among those heard. */
  ghost predicate AllHeard(d: seq<int>, from: Option<int>, h: Option<int>) {
    First(d, from).Some? && h.Some? ==> forall n :: First(d, from).value <= n <= h.value ==> n in d
  }
}
