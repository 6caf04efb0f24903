/** Runs that the server and the network can always take, and what comes back after a drop. */
module RealtimeReturns {
  import opened Basics
  import opened RealtimeHandlers
  import opened RealtimeRuns
  import opened RealtimeGaps
  import opened RealtimeLedger
  import opened RealtimeLosses

  /** Connecting, reading, streaming and delivering, with listeners that return and no broadcast. */
  predicate Passive(a: Action) {
    || a.CallConnect? || a.Opens? || a == ServerSays(Welcome)
    || a.ServerReads? || a.ServerStreams? || a.DeliverWelcome? || a == DeliverOther(Returns)
  }

  predicate AllPassive(actions: seq<Action>) {
    forall a :: a in actions ==> Passive(a)
  }

  lemma ConcatPassive(a: seq<Action>, b: seq<Action>)
    requires AllPassive(a) && AllPassive(b)
    ensures AllPassive(a + b)
  {
  }

  lemma Compose(w: World, a: seq<Action>, mid: World, b: seq<Action>, r: World)
    requires AllPassive(a) && AllPassive(b) && Run(w, a) == Some(mid) && Run(mid, b) == Some(r)
    ensures AllPassive(a + b) && Run(w, a + b) == Some(r)
  {
    RunTwoParts(w, a, b, mid);
    ConcatPassive(a, b);
  }

  lemma PassiveStep(w: World, a: Action)
    requires Enabled(w, a) && Passive(a)
    ensures Next(w, a).client.interest.sessions == w.client.interest.sessions
  {
  }

  lemma {:induction false} PassiveHolds(w: World, s: string, l: Listener, actions: seq<Action>)
    requires AllPassive(actions) && Run(w, actions).Some? && Listens(w.client.interest, s, l)
    ensures Held(w, s, l, actions)
    decreases |actions|
  {
    if actions != [] {
      assert Passive(actions[0]);
      assert forall a :: a in actions[1..] ==> a in actions;
      PassiveStep(w, actions[0]);
      PassiveHolds(Next(w, actions[0]), s, l, actions[1..]);
    }
  }

  // ------------------------------------------------------ reading and streaming

  /** Nothing the server reads of `s` makes it start behind `k`. */
  predicate StartsBy(w: World, s: string, k: int) {
    && (s in w.link.cursor ==> w.link.cursor[s] <= k)
    && forall m :: m in Unread(w) && Subscribes(m, s) && m.fromSequence.Some? ==> m.fromSequence.value <= k
  }

  lemma ReadStartsBy(w: World, s: string, k: int)
    requires IsOpen(w.client.line) && w.link.read < |w.client.line.ws.value.sent| && StartsBy(w, s, k) && k >= 0
    ensures StartsBy(Next(w, ServerReads(0)), s, k)
  {
    var sent := w.client.line.ws.value.sent;
    assert sent[w.link.read..] == [sent[w.link.read]] + sent[w.link.read + 1..];
    assert sent[w.link.read] in Unread(w);
  }

  /** The server reads on, up to `n` messages. */
  lemma {:induction false} ReadTo(w: World, n: nat, s: string, k: nat) returns (actions: seq<Action>, r: World)
    requires IsOpen(w.client.line) && w.link.read <= n <= |w.client.line.ws.value.sent|
    requires LedgerOk(w.link, w.client.line.ws.value.sent)
    ensures AllPassive(actions) && Run(w, actions) == Some(r)
    ensures r.client == w.client && r.since == w.since && r.link.down == w.link.down
    ensures r.link.read == n && LedgerOk(r.link, w.client.line.ws.value.sent)
    ensures StartsBy(w, s, k) ==> StartsBy(r, s, k)
    decreases n - w.link.read
  {
    if w.link.read == n {
      actions, r := [], w;
    } else {
      var a := ServerReads(0);
      ReadKeepsLedger(w.link, w.client.line.ws.value.sent, 0);
      if StartsBy(w, s, k) {
        ReadStartsBy(w, s, k);
      }
      var rest;
      rest, r := ReadTo(Next(w, a), n, s, k);
      actions := [a] + rest;
      Then(w, a, rest);
      ConcatPassive([a], rest);
    }
  }

  /** The same, whatever the streams start from. */
  lemma ReadOn(w: World, n: nat) returns (actions: seq<Action>, r: World)
    requires IsOpen(w.client.line) && w.link.read <= n <= |w.client.line.ws.value.sent|
    requires LedgerOk(w.link, w.client.line.ws.value.sent)
    ensures AllPassive(actions) && Run(w, actions) == Some(r)
    ensures r.client == w.client && r.since == w.since && r.link.down == w.link.down
    ensures r.link.read == n && LedgerOk(r.link, w.client.line.ws.value.sent)
  {
    actions, r := ReadTo(w, n, "", 0);
  }

  /** One more event of a served stream goes on the wire. */
  lemma StreamOne(w: World, s: string) returns (actions: seq<Action>, r: World)
    requires IsOpen(w.client.line) && s != "" && s in w.link.cursor && LedgerOk(w.link, w.client.line.ws.value.sent)
    ensures AllPassive(actions) && Run(w, actions) == Some(r)
    ensures r.client == w.client && r.since == w.since && r.link.read == w.link.read
    ensures s in r.link.cursor && r.link.cursor[s] == w.link.cursor[s] + 1
    ensures NumbersFor(r.link.down, s) == NumbersFor(w.link.down, s) + [w.link.cursor[s]]
    ensures LedgerOk(r.link, w.client.line.ws.value.sent)
  {
    var m := Numbered(s, w.link.cursor[s]);
    var a := ServerStreams(m);
    assert TargetSession(m) == Some(s) && SequenceOf(m) == Some(w.link.cursor[s]) && IsFor(m, s);
    r := Next(w, a);
    actions := [a];
    ThenOne(w, a);
    NumbersForAppend(w.link.down, Frame(m, true), s);
    FrameKeepsLedger(w.link, w.client.line.ws.value.sent, Frame(m, true), r.link.cursor);
  }

  /** The stream goes on until number `k` is on the wire. */
  lemma {:induction false} StreamTo(w: World, s: string, k: int) returns (actions: seq<Action>, r: World)
    requires IsOpen(w.client.line) && s != "" && s in w.link.cursor && LedgerOk(w.link, w.client.line.ws.value.sent)
    requires w.link.cursor[s] <= k
    ensures AllPassive(actions) && Run(w, actions) == Some(r)
    ensures r.client == w.client && r.since == w.since && k in NumbersFor(r.link.down, s)
    decreases k - w.link.cursor[s]
  {
    var mid;
    actions, mid := StreamOne(w, s);
    r := mid;
    if w.link.cursor[s] < k {
      var rest;
      rest, r := StreamTo(mid, s, k);
      Compose(w, actions, mid, rest, r);
      actions := actions + rest;
    }
  }

  // ------------------------------------------------------------- delivering

  lemma {:induction false} ListKeys(keys: set<string>) returns (order: seq<string>)
    ensures forall k :: k in order <==> k in keys
    ensures forall i, j :: 0 <= i < j < |order| ==> order[i] != order[j]
    decreases keys
  {
    if keys == {} {
      order := [];
    } else {
      var k :| k in keys;
      var rest := ListKeys(keys - {k});
      order := rest + [k];
      assert forall i :: 0 <= i < |rest| ==> rest[i] in rest;
    }
  }

  /** Delivering the first message under way. */
  lemma DeliverOne(w: World, s: string, l: Listener, i: nat) returns (a: Action)
    requires IsOpen(w.client.line) && w.link.down != [] && Listens(w.client.interest, s, l) && i <= |w.client.calls|
    ensures Passive(a) && Enabled(w, a)
    ensures var r := Next(w, a);
      && IsOpen(r.client.line) && Listens(r.client.interest, s, l) && i <= |r.client.calls|
      && r.link.down == w.link.down[1..]
      && Heard(r.client.calls[i..], s, l) + NumbersFor(r.link.down, s)
         == Heard(w.client.calls[i..], s, l) + NumbersFor(w.link.down, s)
  {
    if w.link.down[0].message.Welcome? {
      var so := ListKeys(w.client.interest.sessions.Keys);
      var do := ListKeys(w.client.interest.devices.Keys);
      a := DeliverWelcome(so, do);
      assert NumberIn(w.link.down[0], s) == [];
    } else {
      a := DeliverOther(Returns);
      DeliverMessage(w, s, l, i);
    }
  }

  lemma DeliverMessage(w: World, s: string, l: Listener, i: nat)
    requires IsOpen(w.client.line) && w.link.down != [] && !w.link.down[0].message.Welcome?
    requires Listens(w.client.interest, s, l) && i <= |w.client.calls|
    ensures var r := Next(w, DeliverOther(Returns));
      && r.client.line == w.client.line && Listens(r.client.interest, s, l) && i <= |r.client.calls|
      && r.link.down == w.link.down[1..]
      && Heard(r.client.calls[i..], s, l) + NumbersFor(r.link.down, s)
         == Heard(w.client.calls[i..], s, l) + NumbersFor(w.link.down, s)
  {
    var f := w.link.down[0];
    DeliveredCalls(w.client, f.message, Returns, s, l, i);
    DeliveredKeeps(w.client, f.message, Returns);
    assert News(w.client.interest, f.message, Returns, s, l) == NumberIn(f, s);
    SplitLater(Heard(w.client.calls[i..], s, l), NumberIn(f, s), NumbersFor(w.link.down[1..], s));
  }

  /** Everything under way arrives. */
  lemma {:induction false} Drain(w: World, s: string, l: Listener, i: nat) returns (actions: seq<Action>, r: World)
    requires IsOpen(w.client.line) && Listens(w.client.interest, s, l) && i <= |w.client.calls|
    ensures AllPassive(actions) && Run(w, actions) == Some(r)
    ensures i <= |r.client.calls|
    ensures Heard(r.client.calls[i..], s, l) == Heard(w.client.calls[i..], s, l) + NumbersFor(w.link.down, s)
    decreases |w.link.down|
  {
    if w.link.down == [] {
      actions, r := [], w;
    } else {
      var a := DeliverOne(w, s, l, i);
      var rest;
      rest, r := Drain(Next(w, a), s, l, i);
      actions := [a] + rest;
      Then(w, a, rest);
      ConcatPassive([a], rest);
    }
  }

  // ---------------------------------------------------- what comes back after a drop

  /** A new socket is opened and welcomed. */
  lemma NewSocket(w: World) returns (actions: seq<Action>, r: World, so: seq<string>, do: seq<string>)
    requires Plumbing(w) && w.client.line.ws.None? && !w.closing
    ensures AllPassive(actions) && Run(w, actions) == Some(r)
    ensures IsOpen(r.client.line) && r.client.interest == w.client.interest && r.client.calls == w.client.calls
    ensures r.link == NewLink && Enumerates(so, w.client.interest.sessions) && Enumerates(do, w.client.interest.devices)
    ensures r.client.line.ws.value.sent
         == [Auth("token")] + (SessionRequests(w.client.interest.lastSequence, so) + DeviceRequests(do))
  {
    var mid := OpenedSocket(w);
    var opening := [CallConnect(Some("token"), false), Opens];
    so := ListKeys(w.client.interest.sessions.Keys);
    do := ListKeys(w.client.interest.devices.Keys);
    var a, b := ServerSays(Welcome), DeliverWelcome(so, do);
    var greeted := Next(mid, a);
    assert greeted.link.down == [Frame(Welcome, false)];
    r := Next(greeted, b);
    ThenOne(greeted, b);
    Then(mid, a, [b]);
    assert [a, b] == [a] + [b];
    RunTwoParts(w, opening, [a, b], mid);
    actions := opening + [a, b];
  }

  lemma OpenedSocket(w: World) returns (r: World)
    requires Plumbing(w) && w.client.line.ws.None? && !w.closing
    ensures Run(w, [CallConnect(Some("token"), false), Opens]) == Some(r)
    ensures IsOpen(r.client.line) && r.client.interest == w.client.interest && r.client.calls == w.client.calls
    ensures r.link == NewLink && r.client.line.ws.value.sent == [Auth("token")]
  {
    var a := CallConnect(Some("token"), false);
    var mid := Next(w, a);
    assert mid.client.line.ws.value.sent == [] && mid.client.line.ws.value.token == "token";
    r := Next(mid, Opens);
    ThenOne(mid, Opens);
    Then(w, a, [Opens]);
    assert [a, Opens] == [a] + [Opens];
  }

  lemma AskedAnew(last: map<string, int>, so: seq<string>, do: seq<string>, s: string)
    requires s in so
    ensures s in SessionsAsked([Auth("token")] + (SessionRequests(last, so) + DeviceRequests(do)))
  {
    var auth := [Auth("token")];
    AskedSessions(auth, last, so);
    AskedDevices(auth + SessionRequests(last, so), do);
    Reassociate(auth, SessionRequests(last, so), DeviceRequests(do));
  }

  lemma AnewStartsBy(w: World, so: seq<string>, do: seq<string>, s: string, k: nat)
    requires IsOpen(w.client.line) && w.link == NewLink
    requires w.client.line.ws.value.sent
          == [Auth("token")] + (SessionRequests(w.client.interest.lastSequence, so) + DeviceRequests(do))
    requires s in w.client.interest.lastSequence ==> w.client.interest.lastSequence[s] < k
    ensures StartsBy(w, s, k)
  {
    var last := w.client.interest.lastSequence;
    forall m | m in Unread(w) && Subscribes(m, s) && m.fromSequence.Some? ensures m.fromSequence.value <= k {
      assert m in SessionRequests(last, so);
    }
  }

  /** On the new socket the stream brings every number above the noted one. */
  lemma StreamReaches(w: World, s: string, l: Listener, k: nat) returns (actions: seq<Action>, r: World)
    requires Plumbing(w) && w.client.line.ws.None? && !w.closing && s != "" && Listens(w.client.interest, s, l)
    requires s in w.client.interest.lastSequence ==> w.client.interest.lastSequence[s] < k
    ensures AllPassive(actions) && Run(w, actions) == Some(r)
    ensures IsOpen(r.client.line) && r.client.interest == w.client.interest && r.client.calls == w.client.calls
    ensures k in NumbersFor(r.link.down, s)
  {
    var a1, w1, so, do := NewSocket(w);
    var sent := w1.client.line.ws.value.sent;
    assert sent[..0] == [];
    AskedAnew(w.client.interest.lastSequence, so, do, s);
    AnewStartsBy(w1, so, do, s, k);
    var a2, w2 := ReadTo(w1, |sent|, s, k);
    assert sent[..|sent|] == sent;
    assert s in w2.link.cursor.Keys;
    var a3;
    a3, r := StreamTo(w2, s, k);
    Compose(w1, a2, w2, a3, r);
    Compose(w, a1, w1, a2 + a3, r);
    actions := a1 + (a2 + a3);
  }

  /** A run in which `l` stays subscribed and hears number `k` of the stream of `s`. */
  ghost predicate ComesBack(w: World, s: string, l: Listener, k: int, actions: seq<Action>) {
    && Run(w, actions).Some? && Held(w, s, l, actions) && NeverBroadcast(actions, s, k)
    && var t := Run(w, actions).value;
       |w.client.calls| <= |t.client.calls| && k in Heard(t.client.calls[|w.client.calls|..], s, l)
  }

  /**
   When the socket is gone, a number can still be heard exactly if it is above
   the noted one: what was missed below it is lost for good, and anything above
   it can come, unless it is broadcast again.
   */
  lemma ComesBackIffNotNoted(w: World, s: string, l: Listener, k: nat)
    requires Reachable(w) && w.client.line.ws.None? && !w.closing && s != "" && Listens(w.client.interest, s, l)
    ensures (exists actions :: ComesBack(w, s, l, k, actions))
       <==> (s in w.client.interest.lastSequence ==> w.client.interest.lastSequence[s] < k)
  {
    ReachableIsOk(w);
    if s in w.client.interest.lastSequence && w.client.interest.lastSequence[s] >= k {
      forall actions ensures !ComesBack(w, s, l, k, actions) {
        if ComesBack(w, s, l, k, actions) {
          PastIsNeverHeard(w, s, l, k, actions, Run(w, actions).value);
        }
      }
    } else {
      var a1, w1 := StreamReaches(w, s, l, k);
      var i := |w.client.calls|;
      var a2, t := Drain(w1, s, l, i);
      Compose(w, a1, w1, a2, t);
      PassiveHolds(w, s, l, a1 + a2);
      assert ComesBack(w, s, l, k, a1 + a2);
    }
  }
}
