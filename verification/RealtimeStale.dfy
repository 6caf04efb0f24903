/** Subscribing to a session that was subscribed to before on the same socket. */
module RealtimeStale {
  import opened Basics
  import opened RealtimeHandlers
  import opened RealtimeRuns
  import opened RealtimeGaps
  import opened RealtimeLedger
  import opened RealtimeLosses
  import opened RealtimeReturns

  /** All listeners return, and the server sends events of `s` on its stream only. */
  predicate CalmStep(a: Action, s: string) {
    (a.DeliverOther? ==> a.fate.Returns?) && (a.ServerSays? ==> TargetSession(a.message) != Some(s))
  }

  predicate Calm(actions: seq<Action>, s: string) {
    forall a :: a in actions ==> CalmStep(a, s)
  }

  /** Something of `s` is served, under way or asked for already. */
  predicate Leftover(w: World, s: string) {
    Stale(w, s) || (IsOpen(w.client.line) && NumbersFor(w.link.down, s) != [])
  }

  /** A calm run after which `l` has missed a number of its subscription. */
  ghost predicate GapFollows(w: World, s: string, l: Listener, actions: seq<Action>)
    requires Ear(s, l) in w.since
  {
    && Calm(actions, s) && Run(w, actions).Some? && Held(w, s, l, actions)
    && var t, st := Run(w, actions).value, w.since[Ear(s, l)];
       st.index <= |t.client.calls| && !GapFree(Heard(t.client.calls[st.index..], s, l), st.from)
  }

  // -------------------------------------------------- nothing left over: no gap

  predicate OnlyStreamed(down: seq<Frame>, s: string) {
    forall f :: f in down && IsFor(f.message, s) ==> f.streamed
  }

  ghost predicate Steady(w: World, s: string, l: Listener) {
    && Plumbing(w) && Listens(w.client.interest, s, l) && Orderly(w, s, l) && !w.since[Ear(s, l)].ahead
    && SessionOk(w, s, l)
    && (IsOpen(w.client.line) ==> OnlyStreamed(w.link.down, s))
  }

  lemma CalmDelivery(w: World, a: Action, s: string, l: Listener)
    requires Steady(w, s, l) && Enabled(w, a) && a.DeliverOther? && CalmStep(a, s)
    ensures Orderly(Next(w, a), s, l) && !Next(w, a).since[Ear(s, l)].ahead
  {
    var f := w.link.down[0];
    assert f in w.link.down;
    assert Next(w, a).since[Ear(s, l)] == AfterDelivery(w.client, f, a.fate, Ear(s, l), w.since[Ear(s, l)]);
  }

  lemma CalmWelcome(w: World, a: Action, s: string, l: Listener)
    requires Steady(w, s, l) && Enabled(w, a) && a.DeliverWelcome?
    ensures Orderly(Next(w, a), s, l) && !Next(w, a).since[Ear(s, l)].ahead
  {
    var p :| SessionOkAt(w, s, l, p);
    assert p == Get(w.client.interest.lastSequence, s);
    assert Next(w, a).since[Ear(s, l)] == AfterWelcome(w.client, Ear(s, l), w.since[Ear(s, l)]);
  }

  lemma OtherStepsKeepStart(w: World, a: Action, s: string, l: Listener)
    requires Enabled(w, a) && !a.DeliverOther? && !a.DeliverWelcome? && Listens(w.client.interest, s, l) && Orderly(w, s, l)
    ensures Ear(s, l) in Next(w, a).since && Next(w, a).since[Ear(s, l)] == w.since[Ear(s, l)]
  {
  }

  lemma StepKeepsOnlyStreamed(w: World, a: Action, s: string)
    requires Plumbing(w) && Enabled(w, a) && CalmStep(a, s)
    requires IsOpen(w.client.line) ==> OnlyStreamed(w.link.down, s)
    ensures IsOpen(Next(w, a).client.line) ==> OnlyStreamed(Next(w, a).link.down, s)
  {
    if !OfTheLink(a) && !a.Opens? && IsOpen(Next(w, a).client.line) {
      OtherStepsKeepLink(w, a);
      OpenOnlyByOpening(w, a);
    }
  }

  lemma OpenOnlyByOpening(w: World, a: Action)
    requires Enabled(w, a) && !a.Opens? && IsOpen(Next(w, a).client.line)
    ensures IsOpen(w.client.line)
  {
  }

  lemma StepKeepsSteady(w: World, a: Action, s: string, l: Listener)
    requires Steady(w, s, l) && Enabled(w, a) && CalmStep(a, s) && Listens(Next(w, a).client.interest, s, l)
    ensures Steady(Next(w, a), s, l)
  {
    if a.DeliverOther? {
      CalmDelivery(w, a, s, l);
    } else if a.DeliverWelcome? {
      CalmWelcome(w, a, s, l);
    } else {
      OtherStepsKeepStart(w, a, s, l);
    }
    StepKeepsNonNegative(w, a);
    StepKeepsLink(w, a);
    StepKeepsOnlyStreamed(w, a, s);
    var p :| SessionOkAt(w, s, l, p);
    var q := StepKeepsSession(w, a, s, l, p);
  }

  lemma StepKeepsIndex(w: World, a: Action, s: string, l: Listener)
    requires Enabled(w, a) && Listens(w.client.interest, s, l) && Ear(s, l) in w.since
    ensures Ear(s, l) in Next(w, a).since
    ensures var st, r := w.since[Ear(s, l)], Next(w, a).since[Ear(s, l)]; r.index == st.index && r.from == st.from
  {
  }

  lemma {:induction false} CalmRunHearsAll(w: World, s: string, l: Listener, actions: seq<Action>)
    requires Steady(w, s, l) && Calm(actions, s) && Run(w, actions).Some? && Held(w, s, l, actions)
    ensures !GapFollows(w, s, l, actions)
    decreases |actions|
  {
    if actions == [] {
      var p :| SessionOkAt(w, s, l, p);
      CoveredIsGapFree(History(w, s, l), w.since[Ear(s, l)].from, p);
    } else {
      var a, rest := actions[0], actions[1..];
      assert a in actions && forall b :: b in rest ==> b in actions;
      assert Held(Next(w, a), s, l, rest);
      StepKeepsSteady(w, a, s, l);
      StepKeepsIndex(w, a, s, l);
      CalmRunHearsAll(Next(w, a), s, l, rest);
    }
  }

  // ------------------------------------------------ something left over: a gap

  /** A request to join among the messages from `from` to `to`. */
  lemma FindJoin(sent: seq<ClientMessage>, from: nat, to: nat, s: string) returns (m: nat)
    requires from <= to <= |sent| && Requested(sent[from..to], s)
    ensures from <= m < to && Subscribes(sent[m], s)
  {
    var part := sent[from..to];
    var i :| 0 <= i < |part| && Subscribes(part[i], s);
    m := from + i;
    assert sent[m] == part[i];
  }

  lemma ReadJoinIsServed(link: Link, sent: seq<ClientMessage>, m: nat, s: string)
    requires LedgerOk(link, sent) && link.read == m + 1 && m < |sent| && Subscribes(sent[m], s)
    ensures s in link.cursor
  {
    assert sent[..m + 1] == sent[..m] + [sent[m]];
    AskedOne(sent[..m], sent[m]);
    assert s in link.cursor.Keys;
  }

  /** The server reads a request to join that is under way. */
  lemma JoinIsRead(w: World, s: string, n: nat) returns (actions: seq<Action>, r: World)
    requires IsOpen(w.client.line) && LedgerOk(w.link, w.client.line.ws.value.sent)
    requires w.link.read <= n <= |w.client.line.ws.value.sent|
    requires Requested(w.client.line.ws.value.sent[w.link.read..n], s)
    ensures AllPassive(actions) && Run(w, actions) == Some(r)
    ensures r.client == w.client && r.since == w.since && r.link.read <= n && LedgerOk(r.link, w.client.line.ws.value.sent)
    ensures s in r.link.cursor
  {
    var m := FindJoin(w.client.line.ws.value.sent, w.link.read, n, s);
    actions, r := ReadOn(w, m + 1);
    ReadJoinIsServed(r.link, w.client.line.ws.value.sent, m, s);
  }

  /** From whatever lives on of an earlier subscription, an event of it comes under way. */
  lemma LeftoverUnderWay(w: World, s: string, n: nat) returns (actions: seq<Action>, r: World)
    requires IsOpen(w.client.line) && s != "" && LedgerOk(w.link, w.client.line.ws.value.sent)
    requires w.link.read <= n <= |w.client.line.ws.value.sent|
    requires s in w.link.cursor || NumbersFor(w.link.down, s) != [] || Requested(w.client.line.ws.value.sent[w.link.read..n], s)
    ensures AllPassive(actions) && Run(w, actions) == Some(r)
    ensures r.client == w.client && r.since == w.since && r.link.read <= n && LedgerOk(r.link, w.client.line.ws.value.sent)
    ensures NumbersFor(r.link.down, s) != []
  {
    if NumbersFor(w.link.down, s) != [] {
      actions, r := [], w;
    } else if s in w.link.cursor {
      actions, r := StreamOne(w, s);
    } else {
      var first, mid := JoinIsRead(w, s, n);
      var streams;
      streams, r := StreamOne(mid, s);
      actions := first + streams;
      Compose(w, first, mid, streams, r);
    }
  }

  function Bound(d: seq<int>): (b: nat)
    ensures forall n :: n in d ==> n <= b
  {
    if d == [] then 0
    else
      assert d == [d[0]] + d[1..];
      Max(Bound(d[1..]), d[0])
  }

  /** The last request, for `s` without a resume point, is read: the new stream starts at `n`. */
  lemma StartAt(w: World, s: string, n: nat) returns (actions: seq<Action>, r: World)
    requires IsOpen(w.client.line) && s != "" && LedgerOk(w.link, w.client.line.ws.value.sent)
    requires var sent := w.client.line.ws.value.sent;
      w.link.read == |sent| - 1 && sent[w.link.read] == SubscribeSession(s, None)
    requires s !in w.link.cursor
    ensures AllPassive(actions) && Run(w, actions) == Some(r)
    ensures r.client == w.client && r.since == w.since
    ensures NumbersFor(r.link.down, s) == NumbersFor(w.link.down, s) + [n]
  {
    var a := ServerReads(n);
    var mid := Next(w, a);
    ReadKeepsLedger(w.link, w.client.line.ws.value.sent, n);
    var streams;
    streams, r := StreamOne(mid, s);
    actions := [a] + streams;
    Then(w, a, streams);
    ConcatPassive([a], streams);
  }

  /** The world just after the first listener of `s` subscribed. */
  lemma JustSubscribed(w: World, s: string, l: Listener) returns (r: World)
    requires s !in w.client.interest.sessions && s !in w.client.interest.lastSequence && IsOpen(w.client.line) && Ledger(w)
    ensures r == Next(w, Subscribe(s, l))
    ensures s in r.client.interest.sessions && r.client.calls == w.client.calls && r.link == w.link && IsOpen(r.client.line)
    ensures r.client.line.ws.value.sent == w.client.line.ws.value.sent + [SubscribeSession(s, None)]
    ensures Listens(r.client.interest, s, l)
    ensures Ear(s, l) in r.since && r.since[Ear(s, l)].index == |w.client.calls| && r.since[Ear(s, l)].from == None
    ensures LedgerOk(r.link, r.client.line.ws.value.sent)
  {
    r := Next(w, Subscribe(s, l));
    SendKeepsLedger(w.link, w.client.line.ws.value.sent, [SubscribeSession(s, None)]);
  }

  /** A stale session: an old event comes under way, and the server has read all but the last message. */
  lemma OldUnderWay(w: World, s: string, n: nat) returns (actions: seq<Action>, r: World)
    requires IsOpen(w.client.line) && s != "" && LedgerOk(w.link, w.client.line.ws.value.sent)
    requires w.link.read <= n <= |w.client.line.ws.value.sent|
    requires s in w.link.cursor || NumbersFor(w.link.down, s) != [] || Requested(w.client.line.ws.value.sent[w.link.read..n], s)
    ensures AllPassive(actions) && Run(w, actions) == Some(r)
    ensures r.client == w.client && r.since == w.since && r.link.read == n && LedgerOk(r.link, w.client.line.ws.value.sent)
    ensures NumbersFor(r.link.down, s) != []
  {
    var a1, w1 := LeftoverUnderWay(w, s, n);
    var a2;
    a2, r := ReadOn(w1, n);
    Compose(w, a1, w1, a2, r);
    actions := a1 + a2;
  }

  lemma NotServed(link: Link, sent: seq<ClientMessage>, s: string)
    requires LedgerOk(link, sent) && s !in SessionsAsked(sent[..link.read])
    ensures s !in link.cursor
  {
    assert s in link.cursor ==> s in link.cursor.Keys;
  }

  /** An old event, and a new stream that starts too far on, come under way. */
  lemma BothUnderWay(w: World, s: string, n: nat) returns (actions: seq<Action>, r: World, e: seq<int>)
    requires IsOpen(w.client.line) && s != "" && LedgerOk(w.link, w.client.line.ws.value.sent)
    requires var sent := w.client.line.ws.value.sent;
      w.link.read <= n == |sent| - 1 && sent[n] == SubscribeSession(s, None) && s !in SessionsAsked(sent[..n])
    requires s in w.link.cursor || NumbersFor(w.link.down, s) != [] || Requested(w.client.line.ws.value.sent[w.link.read..n], s)
    ensures AllPassive(actions) && Run(w, actions) == Some(r)
    ensures r.client == w.client && r.since == w.since
    ensures e != [] && NumbersFor(r.link.down, s) == e + [Bound(e) + 2]
  {
    var a1, w1 := OldUnderWay(w, s, n);
    e := NumbersFor(w1.link.down, s);
    NotServed(w1.link, w.client.line.ws.value.sent, s);
    var a2;
    a2, r := StartAt(w1, s, Bound(e) + 2);
    Compose(w, a1, w1, a2, r);
    actions := a1 + a2;
  }

  /** Behind a subscription with something left over. */
  lemma OldAndNewUnderWay(w: World, s: string, l: Listener, w0: World) returns (actions: seq<Action>, r: World, e: seq<int>)
    requires Reachable(w) && s != "" && s !in w.client.interest.sessions && s !in w.client.interest.lastSequence && Leftover(w, s)
    requires w0 == Next(w, Subscribe(s, l))
    ensures AllPassive(actions) && Run(w0, actions) == Some(r)
    ensures r.client == w0.client && r.since == w0.since
    ensures e != [] && NumbersFor(r.link.down, s) == e + [Bound(e) + 2]
  {
    ReachableHasLedger(w);
    NotAskedFor(w, s);
    var w1 := JustSubscribed(w, s, l);
    LeftoverIsUnread(w, s);
    LastMessage(w.client.line.ws.value.sent, SubscribeSession(s, None), w.link.read);
    actions, r, e := BothUnderWay(w0, s, |w.client.line.ws.value.sent|);
  }

  lemma LeftoverIsUnread(w: World, s: string)
    requires Ledger(w) && Leftover(w, s)
    ensures var sent := w.client.line.ws.value.sent;
      && IsOpen(w.client.line) && w.link.read <= |sent|
      && (s in w.link.cursor || NumbersFor(w.link.down, s) != [] || Requested(sent[w.link.read..], s))
  {
    if Streamed(w.link.down, s) != [] {
      StreamedIsUnderWay(w.link.down, s);
    }
  }

  lemma {:induction false} StreamedIsUnderWay(down: seq<Frame>, s: string)
    requires Streamed(down, s) != []
    ensures NumbersFor(down, s) != []
  {
    if NumberIn(down[0], s) == [] {
      StreamedIsUnderWay(down[1..], s);
    }
  }

  lemma NotAskedFor(w: World, s: string)
    requires Reachable(w) && IsOpen(w.client.line) && s !in w.client.interest.sessions
    ensures s !in SessionsAsked(w.client.line.ws.value.sent)
  {
    SubscriptionsInSync(w);
  }

  lemma LastMessage(sent: seq<ClientMessage>, m: ClientMessage, read: nat)
    requires read <= |sent|
    ensures var all := sent + [m];
      all[read..|sent|] == sent[read..] && all[..|sent|] == sent && all[|sent|] == m
  {
  }

  /** What is under way arrives, and leaves a gap. */
  lemma ArrivesWithGap(w: World, s: string, l: Listener, e: seq<int>) returns (actions: seq<Action>, r: World)
    requires IsOpen(w.client.line) && Listens(w.client.interest, s, l)
    requires e != [] && NumbersFor(w.link.down, s) == e + [Bound(e) + 2]
    ensures AllPassive(actions) && Run(w, actions) == Some(r)
    ensures |w.client.calls| <= |r.client.calls| && !GapFree(Heard(r.client.calls[|w.client.calls|..], s, l), None)
  {
    var i := |w.client.calls|;
    actions, r := Drain(w, s, l, i);
    assert w.client.calls[i..] == [];
    OneIsMissing(e);
    assert Heard(r.client.calls[i..], s, l) == e + [Bound(e) + 2];
  }

  lemma PassiveIsCalm(actions: seq<Action>, s: string)
    requires AllPassive(actions)
    ensures Calm(actions, s)
  {
  }

  /** From every reachable world, a subscription with something left over, and no noted sequence, extends to a run with a gap. */
  lemma LeftoverOpensGap(w: World, s: string, l: Listener) returns (actions: seq<Action>)
    requires Reachable(w) && s != "" && s !in w.client.interest.sessions && s !in w.client.interest.lastSequence && Leftover(w, s)
    ensures Ear(s, l) in Next(w, Subscribe(s, l)).since && GapFollows(Next(w, Subscribe(s, l)), s, l, actions)
  {
    ReachableHasLedger(w);
    var w0 := JustSubscribed(w, s, l);
    var a1, w1, e := OldAndNewUnderWay(w, s, l, w0);
    var a2, r := ArrivesWithGap(w1, s, l, e);
    Compose(w0, a1, w1, a2, r);
    actions := a1 + a2;
    PassiveHolds(w0, s, l, actions);
    PassiveIsCalm(actions, s);
  }

  lemma OneIsMissing(e: seq<int>)
    requires e != []
    ensures !GapFree(e + [Bound(e) + 2], None)
  {
    var d, n := e + [Bound(e) + 2], Bound(e) + 1;
    HighestIsReached(d);
    assert e[0] in e && d[|e|] in d;
    assert n !in d;
  }

  /**
   Subscribing to a session that has no noted sequence is safe exactly if nothing
   is left over of an earlier subscription to it: only then can no calm run make
   the subscription miss a number.
   */
  lemma UnnotedSubscriptionIsSafeIff(w: World, s: string, l: Listener)
    requires Reachable(w) && s != "" && s !in w.client.interest.sessions && s !in w.client.interest.lastSequence
    ensures Ear(s, l) in Next(w, Subscribe(s, l)).since
    ensures !Leftover(w, s) <==> forall actions :: !GapFollows(Next(w, Subscribe(s, l)), s, l, actions)
  {
    var w0 := Next(w, Subscribe(s, l));
    if Leftover(w, s) {
      var actions := LeftoverOpensGap(w, s, l);
    } else {
      SteadyFromTheStart(w, s, l);
      forall actions ensures !GapFollows(w0, s, l, actions) {
        if GapFollows(w0, s, l, actions) {
          CalmRunHearsAll(w0, s, l, actions);
        }
      }
    }
  }

  lemma SteadyFromTheStart(w: World, s: string, l: Listener)
    requires Reachable(w) && s !in w.client.interest.sessions && !Leftover(w, s)
    ensures Steady(Next(w, Subscribe(s, l)), s, l)
  {
    ReachableIsOk(w);
    NewSubscriptionStep(w, s, l);
    StepKeepsNonNegative(w, Subscribe(s, l));
    StepKeepsLink(w, Subscribe(s, l));
    if IsOpen(w.client.line) {
      NoneOnTheWire(w.link.down, s);
    }
  }

  lemma {:induction false} NoneOnTheWire(down: seq<Frame>, s: string)
    requires NumbersFor(down, s) == []
    ensures OnlyStreamed(down, s)
  {
    if down != [] {
      NoneOnTheWire(down[1..], s);
      assert down == [down[0]] + down[1..];
    }
  }

  /**
   Unsubscribing and subscribing again while the stream is served: the leftover
   can be heard first, and the new stream start later.
   */
  lemma QuickResubscribeOpensGap(w: World, s: string, l: Listener) returns (r: World, actions: seq<Action>)
    requires Reachable(w) && s != "" && IsOpen(w.client.line) && s in w.link.cursor
    requires s in w.client.interest.sessions && w.client.interest.sessions[s] == {l}
    ensures Run(w, [Unsubscribe(s, l), Subscribe(s, l)]) == Some(r)
    ensures Ear(s, l) in r.since && GapFollows(r, s, l, actions)
  {
    var a, b := Unsubscribe(s, l), Subscribe(s, l);
    var mid := Next(w, a);
    r := Next(mid, b);
    ThenOne(mid, b);
    Then(w, a, [b]);
    assert [a, b] == [a] + [b];
    OneMoreReachable(w, a);
    actions := LeftoverOpensGap(mid, s, l);
  }

  lemma OneMoreReachable(w: World, a: Action)
    requires Reachable(w) && Enabled(w, a)
    ensures Reachable(Next(w, a))
  {
    var actions :| Run(Start0, actions) == Some(w);
    ThenOne(w, a);
    RunTwoParts(Start0, actions, [a], w);
    assert Run(Start0, actions + [a]) == Some(Next(w, a));
  }
}
