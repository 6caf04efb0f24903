/** The realtime client on mutable fields: each method computes the handler function of the same event. */
module RealtimeClients {
  import opened Basics
  import opened RealtimeHandlers

  /** The part of a browser socket the client uses. */
  class WebSocket {
    const serial: nat
    const token: string
    var ready: ReadyState
    var sent: seq<ClientMessage>

    constructor (serial: nat, token: string)
      ensures this.serial == serial && this.token == token && ready == CONNECTING && sent == []
    {
      this.serial, this.token, ready, sent := serial, token, CONNECTING, [];
    }
  }

  class RealtimeClient {
    var ws: WebSocket?
    var reconnectTimer: Timer<real>
    var reconnectAttempts: nat
    const maxReconnectDelayMs := 10000.0
    var isIntentionallyClosed: bool
    var didOpen: bool
    var welcomed: bool
    var welcomeTimer: Timer<WebSocket>
    var lastSessionSequence: map<string, int>
    var sessionListeners: map<string, set<Listener>>
    var deviceListeners: map<string, set<Listener>>
    var globalListeners: set<Listener>
    var status: Status
    // Bookkeeping of the browser's side.
    var created: nat
    var awaitConnect: nat
    var awaitRetry: nat
    var calls: seq<Call>

    /** Serials identify sockets: a watched socket with the current serial is the current socket. */
    ghost predicate Valid()
      reads this
    {
      && (ws != null ==> ws.serial < created)
      && (welcomeTimer.Armed? ==> welcomeTimer.payload.serial < created)
      && (ws != null && welcomeTimer.Armed? && welcomeTimer.payload.serial == ws.serial ==> welcomeTimer.payload == ws)
    }

    ghost function NowLine(): Line
      reads this, ws
    {
      Line(if ws == null then None else Some(Socket(ws.serial, ws.token, ws.ready, ws.sent)),
           created,
           match welcomeTimer
           case Unset => Unset
           case Armed(socket) => Armed(socket.serial)
           case Fired => Fired,
           didOpen, welcomed)
    }

    ghost function NowRetry(): Retry
      reads this
    {
      Retry(reconnectTimer, reconnectAttempts, isIntentionallyClosed, awaitConnect, awaitRetry)
    }

    ghost function NowInterest(): Interest
      reads this
    {
      Interest(sessionListeners, deviceListeners, globalListeners, lastSessionSequence)
    }

    ghost function Now(): Client
      reads this, ws
    {
      Client(NowLine(), NowRetry(), NowInterest(), status, calls)
    }

    /** The connection has the state of `c`; used where the frame keeps the subscriptions and the call log. */
    ghost predicate LineIs(c: Client)
      reads this, ws
    {
      NowLine() == c.line && NowRetry() == c.retry && status == c.status
    }

    constructor ()
      ensures Valid() && Now() == Initial
    {
      ws, reconnectTimer, reconnectAttempts, isIntentionallyClosed := null, Unset, 0, false;
      didOpen, welcomed, welcomeTimer := false, false, Unset;
      lastSessionSequence, sessionListeners, deviceListeners, globalListeners := map[], map[], map[], {};
      status, created, awaitConnect, awaitRetry, calls := Offline, 0, 0, 0, [];
    }

    // ----------------------------------------------------------- connecting

    method Connect(token: Option<string>, constructorThrows: bool)
      requires Valid()
      modifies this`ws, this`created, this`didOpen, this`welcomed, this`status,
               this`reconnectTimer, this`reconnectAttempts, this`isIntentionallyClosed, this`awaitConnect
      ensures Valid() && LineIs(RealtimeHandlers.Connect(old(Now()), token, constructorThrows))
    {
      if ws != null && (ws.ready == OPEN || ws.ready == CONNECTING) { return; }
      isIntentionallyClosed := false;
      if token.None? || token.value == "" {
        awaitConnect := awaitConnect + 1;
      } else {
        Dial(token.value, constructorThrows);
      }
    }

    method Dial(token: string, constructorThrows: bool)
      requires Valid()
      modifies this`ws, this`created, this`didOpen, this`welcomed, this`status, this`reconnectTimer, this`reconnectAttempts
      ensures Valid() && LineIs(RealtimeHandlers.Dial(old(Now()), token, constructorThrows))
    {
      status := if reconnectAttempts > 0 then Reconnecting else Connecting;
      didOpen := false;
      welcomed := false;
      if constructorThrows {
        ScheduleReconnect();
      } else {
        OpenSocket(token);
      }
    }

    method OpenSocket(token: string)
      requires Valid()
      modifies this`ws, this`created
      ensures Valid()
      ensures NowLine() == RealtimeHandlers.OpenSocket(old(NowLine()), token)
    {
      ws := new WebSocket(created, token);
      created := created + 1;
    }

    method ConnectTokenArrived(renewed: bool, token: Option<string>, constructorThrows: bool)
      requires Valid() && awaitConnect > 0
      modifies this`ws, this`created, this`didOpen, this`welcomed, this`status,
               this`reconnectTimer, this`reconnectAttempts, this`isIntentionallyClosed, this`awaitConnect
      ensures Valid() && LineIs(RealtimeHandlers.ConnectTokenArrived(old(Now()), renewed, token, constructorThrows))
    {
      awaitConnect := awaitConnect - 1;
      if renewed {
        Connect(token, constructorThrows);
      } else {
        status := Offline;
      }
    }

    method RetryTokenArrived(renewed: bool)
      requires Valid() && awaitRetry > 0
      modifies this`status, this`reconnectTimer, this`reconnectAttempts, this`awaitRetry
      ensures Valid() && LineIs(RealtimeHandlers.RetryTokenArrived(old(Now()), renewed))
    {
      awaitRetry := awaitRetry - 1;
      if renewed {
        ScheduleReconnect();
      } else {
        status := Offline;
      }
    }

    method ReconnectTimerFired(token: Option<string>, constructorThrows: bool)
      requires Valid()
      modifies this`ws, this`created, this`didOpen, this`welcomed, this`status,
               this`reconnectTimer, this`reconnectAttempts, this`isIntentionallyClosed, this`awaitConnect
      ensures Valid() && LineIs(RealtimeHandlers.ReconnectTimerFired(old(Now()), token, constructorThrows))
    {
      reconnectTimer := Fired;
      Connect(token, constructorThrows);
    }

    method ScheduleReconnect()
      requires Valid()
      modifies this`reconnectTimer, this`reconnectAttempts
      ensures Valid() && NowRetry() == RealtimeHandlers.ScheduleReconnect(old(NowRetry()))
    {
      if !reconnectTimer.Unset? {
        reconnectTimer := Fired; // cleared
      }
      reconnectAttempts := reconnectAttempts + 1;
      var delay := 1000.0;
      for n := 1 to reconnectAttempts
        invariant delay == 1000.0 * Pow15(n - 1)
      {
        delay := delay * 1.5;
      }
      reconnectTimer := Armed(if delay < maxReconnectDelayMs then delay else maxReconnectDelayMs);
    }

    /** The socket that is let go hears the goodbye, if it is open, and closes. */
    method Disconnect()
      requires Valid()
      modifies this`ws, this`status, this`reconnectTimer, this`isIntentionallyClosed, ws
      ensures Valid() && LineIs(RealtimeHandlers.Disconnect(old(Now())))
      ensures old(ws) != null ==> old(ws).ready == CLOSING
      ensures old(ws) != null ==> old(ws).sent == old(ws.sent) + if old(ws.ready) == OPEN then [Bye] else []
    {
      isIntentionallyClosed := true;
      if !reconnectTimer.Unset? {
        reconnectTimer := Unset;
      }
      if ws != null {
        Send(Bye);
        ws.ready := CLOSING;
        ws := null;
      }
      status := Offline;
    }

    // ------------------------------------------------------ socket handlers

    method Send(message: ClientMessage)
      requires Valid()
      modifies ws
      ensures NowLine() == RealtimeHandlers.Send(old(NowLine()), message)
    {
      if ws != null && ws.ready == OPEN {
        ws.sent := ws.sent + [message];
      }
    }

    method OnOpen()
      requires Valid() && ws != null
      modifies this`didOpen, this`welcomeTimer, ws
      ensures Valid() && NowLine() == RealtimeHandlers.OnOpen(old(NowLine()))
    {
      didOpen := true;
      Send(Auth(ws.token));
      ClearWelcomeTimer();
      welcomeTimer := Armed(ws);
    }

    method WelcomeDeadline()
      requires Valid() && welcomeTimer.Armed?
      modifies this`welcomeTimer, ws
      ensures Valid() && NowLine() == RealtimeHandlers.WelcomeDeadline(old(NowLine()))
    {
      var socket := welcomeTimer.payload;
      welcomeTimer := Fired;
      if !welcomed && ws == socket {
        ws.ready := CLOSING;
      }
    }

    method ClearWelcomeTimer()
      requires Valid()
      modifies this`welcomeTimer
      ensures Valid() && welcomeTimer == Unset
    {
      welcomeTimer := Unset;
    }

    /** The orders are those in which the two listener maps were iterated. */
    method OnWelcome() returns (ghost sessionOrder: seq<string>, ghost deviceOrder: seq<string>)
      requires Valid()
      modifies this`welcomed, this`welcomeTimer, this`reconnectAttempts, this`status, ws
      ensures Valid()
      ensures Enumerates(sessionOrder, sessionListeners) && Enumerates(deviceOrder, deviceListeners)
      ensures LineIs(RealtimeHandlers.OnWelcome(old(Now()), sessionOrder, deviceOrder))
    {
      welcomed := true;
      ClearWelcomeTimer();
      reconnectAttempts := 0;
      status := Connected;
      ghost var l := NowLine();
      sessionOrder := RequestSessions();
      deviceOrder := RequestDevices();
      SendAllAppends(l, SessionRequests(lastSessionSequence, sessionOrder), DeviceRequests(deviceOrder));
    }

    method RequestSessions() returns (ghost order: seq<string>)
      requires Valid()
      modifies ws
      ensures Enumerates(order, sessionListeners)
      ensures NowLine() == SendAll(old(NowLine()), SessionRequests(lastSessionSequence, order))
    {
      ghost var l, last := NowLine(), lastSessionSequence;
      order := [];
      SendAllAppends(l, [], []);
      assert SessionRequests(last, order) == [];
      var todo := sessionListeners.Keys;
      while todo != {}
        invariant todo <= sessionListeners.Keys
        invariant forall k :: k in order <==> k in sessionListeners && k !in todo
        invariant forall i, j :: 0 <= i < j < |order| ==> order[i] != order[j]
        invariant NowLine() == SendAll(l, SessionRequests(last, order))
      {
        var sessionId :| sessionId in todo;
        todo := todo - {sessionId};
        var from := if sessionId in lastSessionSequence then Some(lastSessionSequence[sessionId] + 1) else None;
        Send(ClientMessage.SubscribeSession(sessionId, from));
        SendAllAppends(l, SessionRequests(last, order), [SubscribeMessage(last, sessionId)]);
        assert SessionRequests(last, order + [sessionId])
            == SessionRequests(last, order) + [SubscribeMessage(last, sessionId)];
        order := order + [sessionId];
      }
    }

    method RequestDevices() returns (ghost order: seq<string>)
      requires Valid()
      modifies ws
      ensures Enumerates(order, deviceListeners)
      ensures NowLine() == SendAll(old(NowLine()), DeviceRequests(order))
    {
      ghost var l := NowLine();
      order := [];
      SendAllAppends(l, [], []);
      assert DeviceRequests(order) == [];
      var todo := deviceListeners.Keys;
      while todo != {}
        invariant todo <= deviceListeners.Keys
        invariant forall k :: k in order <==> k in deviceListeners && k !in todo
        invariant forall i, j :: 0 <= i < j < |order| ==> order[i] != order[j]
        invariant NowLine() == SendAll(l, DeviceRequests(order))
      {
        var deviceId :| deviceId in todo;
        todo := todo - {deviceId};
        Send(ClientMessage.SubscribeDevice(deviceId));
        SendAllAppends(l, DeviceRequests(order), [ClientMessage.SubscribeDevice(deviceId)]);
        assert DeviceRequests(order + [deviceId])
            == DeviceRequests(order) + [ClientMessage.SubscribeDevice(deviceId)];
        order := order + [deviceId];
      }
    }

    /** Calls one listener after the other; `throws` says which of them throw. */
    method CallEach(listeners: set<Listener>, throws: Listener -> bool) returns (called: set<Listener>, threw: bool)
      ensures called <= listeners
      ensures threw ==> SomeOf(called, listeners)
      ensures !threw ==> called == listeners
      ensures threw <==> !Quiet(called, throws)
      ensures threw <==> !Quiet(listeners, throws)
    {
      called, threw := {}, false;
      while called != listeners
        invariant called <= listeners
        invariant Quiet(called, throws)
        decreases |listeners - called|
      {
        var listener :| listener in listeners - called;
        assert listeners - (called + {listener}) < listeners - called;
        called := called + {listener};
        if throws(listener) {
          threw := true;
          return;
        }
      }
    }

    /** `throws`: which listeners throw on this message. How the calls ended is given back. */
    method OnOtherMessage(m: ServerMessage, throws: Listener -> bool) returns (fate: Fate)
      requires Valid() && !m.Welcome?
      modifies this`calls, this`lastSessionSequence, this`isIntentionallyClosed, this`status
      ensures Valid() && FateFits(old(NowInterest()), m, fate)
      ensures m.Event? ==> Follows(old(NowInterest()), m, throws, fate)
      ensures Now() == RealtimeHandlers.OnOtherMessage(old(Now()), m, fate)
    {
      fate := Returns;
      match m
      case Event(_, _, _, _) =>
        fate := OnEvent(m, throws);
      case Notice =>
        fate := NotifyAll(m, throws);
      case Disconnected(source) =>
        if source == "workstation" {
          isIntentionallyClosed := true;
          status := Offline;
        }
      case Unknown =>
    }

    method OnEvent(m: ServerMessage, throws: Listener -> bool) returns (fate: Fate)
      requires Valid() && m.Event?
      modifies this`calls, this`lastSessionSequence
      ensures Follows(old(NowInterest()), m, throws, fate)
      ensures Now() == RealtimeHandlers.OnEvent(old(Now()), m, fate)
    {
      fate := NotifyAll(m, throws);
      if fate.Returns? {
        fate := NotifySession(m, throws);
      }
      if fate.Returns? {
        fate := NotifyDevice(m, throws);
      }
    }

    method NotifyAll(m: ServerMessage, throws: Listener -> bool) returns (fate: Fate)
      requires Valid() && (m.Event? || m.Notice?)
      modifies this`calls
      ensures fate.Returns? || fate.GlobalThrows?
      ensures FateFits(NowInterest(), m, fate) && calls == old(calls) + GlobalCalls(NowInterest(), m, fate)
      ensures fate.GlobalThrows? ==> !Quiet(fate.called, throws)
      ensures fate.GlobalThrows? <==> !Quiet(globalListeners, throws)
    {
      var called, threw := CallEach(globalListeners, throws);
      calls := calls + [GlobalCall(called, m)];
      fate := if threw then GlobalThrows(called) else Returns;
    }

    method NotifySession(m: ServerMessage, throws: Listener -> bool) returns (fate: Fate)
      requires Valid() && m.Event?
      modifies this`lastSessionSequence, this`calls
      ensures fate.Returns? || fate.SessionThrows?
      ensures FateFits(NowInterest(), m, fate) && (fate.SessionThrows? ==> !Quiet(fate.called, throws))
      ensures fate.SessionThrows? <==> !Quiet(SessionListeners(NowInterest(), m), throws)
      ensures Now() == RealtimeHandlers.NotifySession(old(Now()), m, fate)
    {
      fate := Returns;
      var target := TargetSession(m);
      if target.Some? {
        var s, sequence := target.value, SequenceOf(m);
        if sequence.Some? {
          var before := if s in lastSessionSequence then lastSessionSequence[s] else 0;
          lastSessionSequence := lastSessionSequence[s := Max(sequence.value, before)];
        }
        if s in sessionListeners {
          var called, threw := CallEach(sessionListeners[s], throws);
          calls := calls + [SessionCall(s, called, sequence)];
          fate := if threw then SessionThrows(called) else Returns;
        }
      }
    }

    method NotifyDevice(m: ServerMessage, throws: Listener -> bool) returns (fate: Fate)
      requires Valid() && m.Event?
      modifies this`calls
      ensures fate.Returns? || fate.DeviceThrows?
      ensures fate.DeviceThrows? ==> !Quiet(fate.called, throws)
      ensures fate.DeviceThrows? <==> !Quiet(DeviceListeners(NowInterest(), m), throws)
      ensures FateFits(NowInterest(), m, fate) && calls == old(calls) + DeviceCalls(NowInterest(), m, fate)
    {
      fate := Returns;
      var device := TargetDevice(m);
      if device.Some? && device.value in deviceListeners {
        var called, threw := CallEach(deviceListeners[device.value], throws);
        calls := calls + [DeviceCall(device.value, called, m)];
        fate := if threw then DeviceThrows(called) else Returns;
      }
    }

    method OnClose(code: nat)
      requires Valid()
      modifies this`ws, this`welcomeTimer, this`status,
               this`reconnectTimer, this`reconnectAttempts, this`isIntentionallyClosed, this`awaitRetry
      ensures Valid() && LineIs(RealtimeHandlers.OnClose(old(Now()), code))
    {
      ws := null;
      ClearWelcomeTimer();
      if code == 4004 {
        isIntentionallyClosed := true;
        status := Offline;
        return;
      }
      if !isIntentionallyClosed {
        RetryAfterClose(code);
      } else {
        status := Offline;
      }
    }

    method RetryAfterClose(code: nat)
      requires Valid()
      modifies this`status, this`awaitRetry, this`reconnectTimer, this`reconnectAttempts
      ensures Valid() && status == Reconnecting
      ensures NowRetry() == RealtimeHandlers.RetryAfterClose(old(NowRetry()), code == 4001 || (didOpen && !welcomed))
    {
      status := Reconnecting;
      var rejected := code == 4001 || (didOpen && !welcomed);
      if rejected {
        awaitRetry := awaitRetry + 1;
        return;
      }
      ScheduleReconnect();
    }

    // -------------------------------------------------------- subscriptions

    method SubscribeSession(sessionId: string, onEvent: Listener)
      requires Valid()
      modifies this`sessionListeners, ws
      ensures Valid() && Now() == AddSessionListener(old(Now()), sessionId, onEvent)
    {
      if sessionId !in sessionListeners {
        sessionListeners := sessionListeners[sessionId := {}];
        var from := if sessionId in lastSessionSequence then Some(lastSessionSequence[sessionId] + 1) else None;
        Send(ClientMessage.SubscribeSession(sessionId, from));
        assert Now() == OpenSession(old(Now()), sessionId);
      }
      sessionListeners := sessionListeners[sessionId := sessionListeners[sessionId] + {onEvent}];
    }

    /** The function returned by SubscribeSession. */
    method UnsubscribeSession(sessionId: string, onEvent: Listener)
      requires Valid()
      modifies this`sessionListeners, this`lastSessionSequence, ws
      ensures Valid() && Now() == RemoveSessionListener(old(Now()), sessionId, onEvent)
    {
      if sessionId in sessionListeners {
        var rest := sessionListeners[sessionId] - {onEvent};
        sessionListeners := sessionListeners[sessionId := rest];
        if rest == {} {
          sessionListeners := sessionListeners - {sessionId};
          assert sessionListeners == old(sessionListeners) - {sessionId};
          Send(ClientMessage.UnsubscribeSession(sessionId));
          lastSessionSequence := lastSessionSequence - {sessionId};
        }
      }
    }

    method SubscribeDevice(deviceId: string, onUpdate: Listener)
      requires Valid()
      modifies this`deviceListeners, ws
      ensures Valid() && Now() == AddDeviceListener(old(Now()), deviceId, onUpdate)
    {
      if deviceId !in deviceListeners {
        deviceListeners := deviceListeners[deviceId := {}];
        Send(ClientMessage.SubscribeDevice(deviceId));
      }
      deviceListeners := deviceListeners[deviceId := deviceListeners[deviceId] + {onUpdate}];
      assert deviceId !in old(deviceListeners) ==> {} + {onUpdate} == {onUpdate};
    }

    /** The function returned by SubscribeDevice. */
    method UnsubscribeDevice(deviceId: string, onUpdate: Listener)
      requires Valid()
      modifies this`deviceListeners, ws
      ensures Valid() && Now() == RemoveDeviceListener(old(Now()), deviceId, onUpdate)
    {
      if deviceId in deviceListeners {
        var rest := deviceListeners[deviceId] - {onUpdate};
        deviceListeners := deviceListeners[deviceId := rest];
        if rest == {} {
          deviceListeners := deviceListeners - {deviceId};
          assert deviceListeners == old(deviceListeners) - {deviceId};
          Send(ClientMessage.UnsubscribeDevice(deviceId));
        }
      }
    }
  }
}
