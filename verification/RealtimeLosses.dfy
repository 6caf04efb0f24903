/** Which sequence numbers a listener never hears: what was noted without being heard does not come again. */
module RealtimeLosses {
  import opened Basics
  import opened RealtimeHandlers
  import opened RealtimeRuns
  import opened RealtimeGaps

  /** Listener `l` stays subscribed to `s` all through the run. */
  ghost predicate Held(w: World, s: string, l: Listener, actions: seq<Action>)
    decreases |actions|
  {
    && Listens(w.client.interest, s, l)
    && (actions != [] ==> Enabled(w, actions[0]) && Held(Next(w, actions[0]), s, l, actions[1..]))
  }

  /** The server broadcasts number `n` of `s`. */
  predicate Broadcasts(a: Action, s: string, n: int) {
    a.ServerSays? && IsFor(a.message, s) && SequenceOf(a.message) == Some(n)
  }

  predicate NeverBroadcast(actions: seq<Action>, s: string, n: int) {
    forall a :: a in actions ==> !Broadcasts(a, s, n)
  }

  lemma Then(w: World, a: Action, rest: seq<Action>)
    requires Enabled(w, a)
    ensures Run(w, [a] + rest) == Run(Next(w, a), rest)
  {
    assert ([a] + rest)[1..] == rest;
  }

  lemma ThenOne(w: World, a: Action)
    requires Enabled(w, a)
    ensures Run(w, [a]) == Some(Next(w, a))
  {
    Then(w, a, []);
    assert [a] + [] == [a];
  }

  lemma {:induction false} RunTwoParts(w: World, first: seq<Action>, second: seq<Action>, mid: World)
    requires Run(w, first) == Some(mid)
    ensures Run(w, first + second) == Run(mid, second)
    decreases |first|
  {
    if first == [] {
      assert first + second == second;
    } else {
      var a, rest := first[0], first[1..];
      assert first == [a] + rest && first + second == [a] + (rest + second);
      Then(w, a, rest + second);
      RunTwoParts(Next(w, a), rest, second, mid);
    }
  }

  lemma {:induction false} RunExtendsCalls(w: World, actions: seq<Action>)
    requires Run(w, actions).Some?
    ensures w.client.calls <= Run(w, actions).value.client.calls
    decreases |actions|
  {
    if actions != [] {
      StepExtendsCalls(w, actions[0]);
      RunExtendsCalls(Next(w, actions[0]), actions[1..]);
    }
  }

  lemma HeardSnoc(calls: seq<Call>, x: Call, s: string, l: Listener)
    ensures Heard(calls + [x], s, l) == Heard(calls, s, l) + HeardIn(x, s, l)
  {
    assert (calls + [x])[..|calls|] == calls;
  }

  lemma {:induction false} HeardSplits(a: seq<Call>, b: seq<Call>, s: string, l: Listener)
    ensures Heard(a + b, s, l) == Heard(a, s, l) + Heard(b, s, l)
  {
    if b == [] {
      assert a + b == a;
    } else {
      var n := |b| - 1;
      HeardSplits(a, b[..n], s, l);
      HeardSnoc(b[..n], b[n], s, l);
      HeardSnoc(a + b[..n], b[n], s, l);
      LastOff(a, b);
      SplitLater(Heard(a, s, l), Heard(b[..n], s, l), HeardIn(b[n], s, l));
    }
  }

  lemma LastOff(a: seq<Call>, b: seq<Call>)
    requires b != []
    ensures var n := |b| - 1; b == b[..n] + [b[n]] && a + b == a + b[..n] + [b[n]]
  {
  }

  lemma SplitLater(a: seq<int>, b: seq<int>, c: seq<int>)
    ensures (a + b) + c == a + (b + c)
  {
  }

  /** What was heard from call `i` on, with a later point in between. */
  lemma HeardFrom(calls: seq<Call>, more: seq<Call>, s: string, l: Listener, i: nat)
    requires i <= |calls| && calls <= more
    ensures Heard(more[i..], s, l) == Heard(calls[i..], s, l) + Heard(more[|calls|..], s, l)
  {
    assert more[i..] == calls[i..] + more[|calls|..];
    HeardSplits(calls[i..], more[|calls|..], s, l);
  }

  // ------------------------------------------------- numbers that lie behind

  /** No request under way asks for number `k` of `s` or a lower one, or leaves the start to the server. */
  predicate AsksBeyond(unread: seq<ClientMessage>, s: string, k: int) {
    forall m :: m in unread && Subscribes(m, s) ==> m.fromSequence.Some? && m.fromSequence.value > k
  }

  /** Number `k` of `s` was noted, and nothing on the line brings it again. */
  predicate Past(w: World, s: string, k: int) {
    && s in w.client.interest.lastSequence && w.client.interest.lastSequence[s] >= k
    && (IsOpen(w.client.line) ==>
         && k !in NumbersFor(w.link.down, s)
         && (s in w.link.cursor ==> w.link.cursor[s] > k)
         && AsksBeyond(Unread(w), s, k))
  }

  lemma StillPast(w: World, r: World, s: string, k: int)
    requires Past(w, s, k) && Get(r.client.interest.lastSequence, s) == Get(w.client.interest.lastSequence, s)
    requires IsOpen(r.client.line) ==> IsOpen(w.client.line) && r.client.line.ws == w.client.line.ws && r.link == w.link
    ensures Past(r, s, k)
  {
  }

  lemma StillPastSending(w: World, r: World, s: string, k: int, more: seq<ClientMessage>)
    requires Plumbing(w) && Past(w, s, k)
    requires Get(r.client.interest.lastSequence, s) == Get(w.client.interest.lastSequence, s)
    requires IsOpen(w.client.line) ==> Get(r.link.cursor, s) == Get(w.link.cursor, s) && r.link.read == w.link.read
    requires IsOpen(w.client.line) ==> k !in NumbersFor(r.link.down, s)
    requires r.client.line.ws == SendAll(w.client.line, more).ws && AsksBeyond(more, s, k)
    ensures Past(r, s, k)
  {
    if IsOpen(w.client.line) {
      UnreadGrows(w, r, more);
    }
  }

  /** A step while the session stays subscribed. */
  ghost predicate Staying(w: World, a: Action, s: string, k: int) {
    && Plumbing(w) && Enabled(w, a) && Past(w, s, k)
    && s in w.client.interest.sessions && s in Next(w, a).client.interest.sessions
  }

  lemma PastSubscribe(w: World, t: string, l: Listener, s: string, k: int)
    requires Staying(w, Subscribe(t, l), s, k)
    ensures Past(Next(w, Subscribe(t, l)), s, k)
  {
    var r := Next(w, Subscribe(t, l));
    if t in w.client.interest.sessions {
      StillPast(w, r, s, k);
    } else {
      StillPastSending(w, r, s, k, [SubscribeMessage(w.client.interest.lastSequence, t)]);
    }
  }

  lemma PastUnsubscribe(w: World, t: string, l: Listener, s: string, k: int)
    requires Staying(w, Unsubscribe(t, l), s, k)
    ensures Past(Next(w, Unsubscribe(t, l)), s, k)
  {
    var r := Next(w, Unsubscribe(t, l));
    if t in w.client.interest.sessions && w.client.interest.sessions[t] - {l} == {} {
      StillPastSending(w, r, s, k, [UnsubscribeSession(t)]);
    } else {
      StillPast(w, r, s, k);
    }
  }

  lemma PastDevice(w: World, a: Action, s: string, k: int)
    requires Staying(w, a, s, k) && (a.WatchDevice? || a.UnwatchDevice?)
    ensures Past(Next(w, a), s, k)
  {
    var r, d := Next(w, a), a.device;
    var m := if a.WatchDevice? then SubscribeDevice(d) else UnsubscribeDevice(d);
    if r.client.line.ws == w.client.line.ws {
      StillPast(w, r, s, k);
    } else {
      StillPastSending(w, r, s, k, [m]);
    }
  }

  lemma WelcomeAsksBeyond(last: map<string, int>, so: seq<string>, do: seq<string>, s: string, k: int)
    requires s in last && last[s] >= k
    ensures AsksBeyond(SessionRequests(last, so) + DeviceRequests(do), s, k)
  {
    var more := SessionRequests(last, so) + DeviceRequests(do);
    forall m | m in more && Subscribes(m, s) ensures m.fromSequence.Some? && m.fromSequence.value > k {
      assert m in SessionRequests(last, so) || m in DeviceRequests(do);
    }
  }

  lemma PastWelcome(w: World, so: seq<string>, do: seq<string>, s: string, k: int)
    requires Staying(w, DeliverWelcome(so, do), s, k)
    ensures Past(Next(w, DeliverWelcome(so, do)), s, k)
  {
    var last := w.client.interest.lastSequence;
    WelcomeAsksBeyond(last, so, do, s, k);
    StillPastSending(w, Next(w, DeliverWelcome(so, do)), s, k, SessionRequests(last, so) + DeviceRequests(do));
  }

  lemma NoteRises(c: Client, m: ServerMessage, fate: Fate, s: string)
    requires !m.Welcome? && s in c.interest.lastSequence
    ensures var r := OnOtherMessage(c, m, fate);
      s in r.interest.lastSequence && r.interest.lastSequence[s] >= c.interest.lastSequence[s]
  {
  }

  lemma PastMessage(w: World, fate: Fate, s: string, k: int)
    requires Staying(w, DeliverOther(fate), s, k)
    ensures Past(Next(w, DeliverOther(fate)), s, k)
  {
    var m := w.link.down[0].message;
    NoteRises(w.client, m, fate, s);
    DeliveredKeeps(w.client, m, fate);
    assert Unread(Next(w, DeliverOther(fate))) == Unread(w);
  }

  lemma PastRead(w: World, start: nat, s: string, k: int)
    requires Staying(w, ServerReads(start), s, k)
    ensures Past(Next(w, ServerReads(start)), s, k)
  {
    var sent := w.client.line.ws.value.sent;
    assert sent[w.link.read..] == [sent[w.link.read]] + sent[w.link.read + 1..];
    if IsOpen(w.client.line) {
      assert sent[w.link.read] in Unread(w);
    }
  }

  lemma PastFrame(w: World, a: Action, s: string, k: int)
    requires Staying(w, a, s, k) && (a.ServerStreams? || a.ServerSays?) && !Broadcasts(a, s, k)
    ensures Past(Next(w, a), s, k)
  {
    var f := Frame(a.message, a.ServerStreams?);
    NumbersForAppend(w.link.down, f, s);
    assert Next(w, a).link.down == w.link.down + [f];
  }

  lemma {:induction false} NoneUnderWay(down: seq<Frame>, s: string)
    requires NoSessionEvents(down)
    ensures NumbersFor(down, s) == []
  {
    if down != [] {
      NoneUnderWay(down[1..], s);
    }
  }

  lemma PastOpen(w: World, s: string, k: int)
    requires Staying(w, Opens, s, k)
    ensures Past(Next(w, Opens), s, k)
  {
    NoneUnderWay(w.link.down, s);
    assert Unread(Next(w, Opens)) == [Auth(w.client.line.ws.value.token)];
  }

  lemma PastLink(w: World, a: Action, s: string, k: int)
    requires Staying(w, a, s, k) && OfTheLink(a) && !Broadcasts(a, s, k)
    ensures Past(Next(w, a), s, k)
  {
    match a {
      case DeliverWelcome(so, do) => PastWelcome(w, so, do, s, k);
      case DeliverOther(fate) => PastMessage(w, fate, s, k);
      case ServerReads(start) => PastRead(w, start, s, k);
      case ServerStreams(_) => PastFrame(w, a, s, k);
      case ServerSays(_) => PastFrame(w, a, s, k);
    }
  }

  lemma StepKeepsPast(w: World, a: Action, s: string, k: int)
    requires Staying(w, a, s, k) && !Broadcasts(a, s, k)
    ensures Past(Next(w, a), s, k)
  {
    if OfTheLink(a) {
      PastLink(w, a, s, k);
    } else if a.Opens? {
      PastOpen(w, s, k);
    } else if a.Subscribe? {
      PastSubscribe(w, a.session, a.listener, s, k);
    } else if a.Unsubscribe? {
      PastUnsubscribe(w, a.session, a.listener, s, k);
    } else if a.WatchDevice? || a.UnwatchDevice? {
      PastDevice(w, a, s, k);
    } else {
      ConnectionKeepsRest(w, a);
      StillPast(w, Next(w, a), s, k);
    }
  }

  /** What a step adds to what `l` hears is at most a number that was under way. */
  lemma StepHears(w: World, a: Action, s: string, l: Listener, k: int)
    requires Enabled(w, a) && Listens(w.client.interest, s, l) && Past(w, s, k)
    ensures w.client.calls <= Next(w, a).client.calls
    ensures k !in Heard(Next(w, a).client.calls[|w.client.calls|..], s, l)
  {
    StepExtendsCalls(w, a);
    var n := |w.client.calls|;
    assert w.client.calls[n..] == [];
    if a.DeliverOther? {
      var f := w.link.down[0];
      DeliveredCalls(w.client, f.message, a.fate, s, l, n);
      if Hears(w.client.interest, f.message, a.fate, s, l) {
        assert SequenceOf(f.message).value in NumbersFor(w.link.down, s);
      }
    } else {
      StepCalls(w, a);
    }
  }

  lemma StepCalls(w: World, a: Action)
    requires Enabled(w, a) && !a.DeliverOther?
    ensures Next(w, a).client.calls == w.client.calls
  {
  }

  /**
   A number that was noted and is not on the line is never heard again: no
   request the client makes reaches back to it.
   */
  lemma {:induction false} PastIsNeverHeard(w: World, s: string, l: Listener, k: int, more: seq<Action>, t: World)
    requires Plumbing(w) && Past(w, s, k) && Run(w, more) == Some(t)
    requires Held(w, s, l, more) && NeverBroadcast(more, s, k)
    ensures w.client.calls <= t.client.calls
    ensures k !in Heard(t.client.calls[|w.client.calls|..], s, l)
    decreases |more|
  {
    if more == [] {
      assert t.client.calls[|w.client.calls|..] == [];
    } else {
      var a, rest := more[0], more[1..];
      var r := Next(w, a);
      assert a in more && forall b :: b in rest ==> b in more;
      StepKeepsNonNegative(w, a);
      StepKeepsLink(w, a);
      assert Held(r, s, l, rest);
      StepKeepsPast(w, a, s, k);
      StepHears(w, a, s, l, k);
      PastIsNeverHeard(r, s, l, k, rest, t);
      HeardFrom(r.client.calls, t.client.calls, s, l, |w.client.calls|);
    }
  }

  /** A gap at `k` stays a gap. */
  lemma GapStays(d: seq<int>, more: seq<int>, from: Option<int>, k: int)
    requires d != [] && First(d, from).value <= k <= Highest(d) && k !in d && k !in more
    ensures !GapFree(d + more, from)
  {
    var all := d + more;
    HighestIsReached(d);
    HighestIsReached(all);
    assert all[0] == d[0] && Highest(d) in all;
    assert k !in all;
  }

  /** Number `k` is missing in what `l` has heard of `s`. */
  ghost predicate Missing(w: World, s: string, l: Listener, k: int)
  {
    && Ear(s, l) in w.since && w.since[Ear(s, l)].index <= |w.client.calls|
    && var d, from := History(w, s, l), w.since[Ear(s, l)].from;
       d != [] && First(d, from).value <= k <= Highest(d) && k !in d
  }

  /** The history of the same subscription later on. */
  ghost predicate MissingSince(w: World, s: string, l: Listener, k: int, t: World) {
    && Ear(s, l) in w.since && w.since[Ear(s, l)].index <= |t.client.calls|
    && var heard := Heard(t.client.calls[w.since[Ear(s, l)].index..], s, l);
       k !in heard && !GapFree(heard, w.since[Ear(s, l)].from)
  }

  lemma MissingStays(w: World, s: string, l: Listener, k: int, more: seq<Action>, t: World)
    requires Plumbing(w) && Past(w, s, k) && Missing(w, s, l, k)
    requires Run(w, more) == Some(t) && Held(w, s, l, more) && NeverBroadcast(more, s, k)
    ensures MissingSince(w, s, l, k, t)
  {
    PastIsNeverHeard(w, s, l, k, more, t);
    HeardFrom(w.client.calls, t.client.calls, s, l, w.since[Ear(s, l)].index);
    GapStays(History(w, s, l), Heard(t.client.calls[|w.client.calls|..], s, l), w.since[Ear(s, l)].from, k);
  }

  // ------------------------------------------------ a number that is skipped

  function Numbered(s: string, n: int): ServerMessage {
    Event(Some(s), None, Some(n), Some(Envelope(Some(s), None, Some(n))))
  }

  /** What delivering one numbered event does. */
  lemma DeliverNumbered(w: World, f: Frame, s: string, l: Listener, n: int, fate: Fate)
    requires s != "" && Listens(w.client.interest, s, l) && IsOpen(w.client.line)
    requires w.link.down != [] && w.link.down[0] == f && f.message == Numbered(s, n)
    requires FateFits(w.client.interest, Numbered(s, n), fate)
    requires Ear(s, l) in w.since && w.since[Ear(s, l)].index <= |w.client.calls|
    ensures Enabled(w, DeliverOther(fate))
    ensures var r := Next(w, DeliverOther(fate));
      && r.client.line == w.client.line && r.client.interest.sessions == w.client.interest.sessions
      && r.link == w.link.(down := w.link.down[1..])
      && Get(r.client.interest.lastSequence, s)
         == (var last := Get(w.client.interest.lastSequence, s);
             if fate.GlobalThrows? then last else Some(Max(n, if last.Some? then last.value else 0)))
  {
  }

  lemma HearsNumbered(w: World, f: Frame, s: string, l: Listener, n: int, fate: Fate)
    requires s != "" && Listens(w.client.interest, s, l) && IsOpen(w.client.line)
    requires w.link.down != [] && w.link.down[0] == f && f.message == Numbered(s, n)
    requires FateFits(w.client.interest, Numbered(s, n), fate)
    requires Ear(s, l) in w.since && w.since[Ear(s, l)].index <= |w.client.calls|
    ensures Enabled(w, DeliverOther(fate))
    ensures var r := Next(w, DeliverOther(fate));
      && Ear(s, l) in r.since && r.since[Ear(s, l)].index == w.since[Ear(s, l)].index <= |r.client.calls|
      && r.since[Ear(s, l)].from == w.since[Ear(s, l)].from
      && History(r, s, l)
         == History(w, s, l) + if Hears(w.client.interest, Numbered(s, n), fate, s, l) then [n] else []
  {
    assert IsFor(Numbered(s, n), s) && SequenceOf(Numbered(s, n)) == Some(n);
    DeliveredCalls(w.client, Numbered(s, n), fate, s, l, w.since[Ear(s, l)].index);
    var r := Next(w, DeliverOther(fate));
    assert r.since[Ear(s, l)] == AfterDelivery(w.client, f, fate, Ear(s, l), w.since[Ear(s, l)]);
  }

  /** A number that is not heard, followed by a higher one that is. */
  lemma SkippedIsMissing(d: seq<int>, from: Option<int>, h: int, k: int, n: int)
    requires Covered(d, from, Some(h), Some(h)) && h < k < n
    ensures First(d + [n], from).value <= k <= Highest(d + [n]) && k !in d + [n]
  {
    HighestIsReached(d + [n]);
    assert n in d + [n];
  }

  // ---------------------------------------------- a broadcast, and then a drop

  function AheadActions(s: string, n: int, code: nat): seq<Action> {
    [ServerSays(Numbered(s, n)), DeliverOther(Returns)] + [Drops, Closes(code)]
  }

  lemma BroadcastArrives(w: World, s: string, l: Listener, n: int) returns (r: World)
    requires UpToDate(w, s, l) && s != "" && IsOpen(w.client.line) && w.link.read > 0 && w.link.down == []
    requires s in w.client.interest.lastSequence && n > w.client.interest.lastSequence[s] + 1
    ensures Run(w, [ServerSays(Numbered(s, n)), DeliverOther(Returns)]) == Some(r)
    ensures r.client.line == w.client.line && Get(r.client.interest.lastSequence, s) == Some(Max(n, w.client.interest.lastSequence[s]))
    ensures Listens(r.client.interest, s, l)
    ensures Ear(s, l) in r.since && r.since[Ear(s, l)].index <= |r.client.calls|
    ensures r.since[Ear(s, l)].index == w.since[Ear(s, l)].index && r.since[Ear(s, l)].from == w.since[Ear(s, l)].from
    ensures History(r, s, l) == History(w, s, l) + [n]
  {
    var a, b := ServerSays(Numbered(s, n)), DeliverOther(Returns);
    assert Enabled(w, a);
    var mid := Next(w, a);
    assert mid.link.down == [Frame(Numbered(s, n), false)];
    assert mid.client == w.client && mid.since == w.since;
    DeliverNumbered(mid, mid.link.down[0], s, l, n, Returns);
    HearsNumbered(mid, mid.link.down[0], s, l, n, Returns);
    r := Next(mid, b);
    ThenOne(mid, b);
    Then(w, a, [b]);
    assert [a, b] == [a] + [b];
  }

  lemma LinkLost(w: World, code: nat) returns (r: World)
    requires w.client.line.ws.Some?
    ensures Run(w, [Drops, Closes(code)]) == Some(r)
    ensures r.client.line.ws.None? && r.client.interest == w.client.interest && r.client.calls == w.client.calls
    ensures r.since == w.since
  {
    var mid := Next(w, Drops);
    r := Next(mid, Closes(code));
    ThenOne(mid, Closes(code));
    Then(w, Drops, [Closes(code)]);
    assert [Drops, Closes(code)] == [Drops] + [Closes(code)];
  }

  lemma AfterTheDrop(w: World, s: string, l: Listener, n: int, code: nat, k: int) returns (r: World)
    requires UpToDate(w, s, l) && s != "" && IsOpen(w.client.line) && w.link.read > 0 && w.link.down == []
    requires s in w.client.interest.lastSequence && w.client.interest.lastSequence[s] < k < n
    ensures Run(w, AheadActions(s, n, code)) == Some(r)
    ensures Past(r, s, k) && Missing(r, s, l, k)
    ensures r.since[Ear(s, l)].index == w.since[Ear(s, l)].index && r.since[Ear(s, l)].from == w.since[Ear(s, l)].from
  {
    var mid := BroadcastArrives(w, s, l, n);
    r := LinkLost(mid, code);
    RunTwoParts(w, [ServerSays(Numbered(s, n)), DeliverOther(Returns)], [Drops, Closes(code)], mid);
    SkippedIsMissing(History(w, s, l), w.since[Ear(s, l)].from, w.client.interest.lastSequence[s], k, n);
    assert History(r, s, l) == History(mid, s, l);
  }

  /**
   A broadcast that comes ahead of the stream moves the resume point past the
   numbers it skips. If the socket is lost before the stream has brought them,
   the listener never hears them, however long it stays subscribed.
   */
  lemma SkippedBeforeDropIsLost(w: World, s: string, l: Listener, n: int, code: nat, r: World,
                                k: int, more: seq<Action>, t: World)
    requires Reachable(w) && UpToDate(w, s, l) && s != "" && IsOpen(w.client.line) && w.link.read > 0 && w.link.down == []
    requires s in w.client.interest.lastSequence && w.client.interest.lastSequence[s] < k < n
    requires Run(w, AheadActions(s, n, code)) == Some(r)
    requires Run(r, more) == Some(t) && Held(r, s, l, more) && NeverBroadcast(more, s, k)
    ensures MissingSince(w, s, l, k, t)
  {
    ReachableIsOk(w);
    RunKeepsPlumbing(w, AheadActions(s, n, code));
    var r1 := AfterTheDrop(w, s, l, n, code, k);
    MissingStays(r, s, l, k, more, t);
  }

  lemma {:induction false} RunKeepsPlumbing(w: World, actions: seq<Action>)
    requires Plumbing(w) && Run(w, actions).Some?
    ensures Plumbing(Run(w, actions).value)
    decreases |actions|
  {
    if actions != [] {
      StepKeepsNonNegative(w, actions[0]);
      StepKeepsLink(w, actions[0]);
      RunKeepsPlumbing(Next(w, actions[0]), actions[1..]);
    }
  }

  // --------------------------------------------------- a listener that throws

  /** Connected and caught up: the server's next number is `k`, and nothing is under way. */
  ghost predicate CaughtUp(w: World, s: string, l: Listener, k: int) {
    && s != "" && UpToDate(w, s, l) && Get(w.client.interest.lastSequence, s) == Some(k - 1)
    && IsOpen(w.client.line) && w.link.read == |w.client.line.ws.value.sent|
    && s in w.link.cursor && w.link.cursor[s] == k && w.link.down == []
  }

  /** The server streams two numbers, and the calls for the first one end with a throw. */
  function ThrowActions(s: string, k: int, fate: Fate): seq<Action> {
    [ServerStreams(Numbered(s, k)), ServerStreams(Numbered(s, k + 1))] + [DeliverOther(fate), DeliverOther(Returns)]
  }

  /** The calls for number `k` can end that way, and before they reach `l`. */
  predicate CutsOff(i: Interest, s: string, l: Listener, k: int, fate: Fate) {
    FateFits(i, Numbered(s, k), fate) && !Hears(i, Numbered(s, k), fate, s, l)
  }

  lemma TwoOnTheWire(w: World, s: string, l: Listener, k: int) returns (r: World)
    requires CaughtUp(w, s, l, k)
    ensures Run(w, [ServerStreams(Numbered(s, k)), ServerStreams(Numbered(s, k + 1))]) == Some(r)
    ensures r.client == w.client && r.since == w.since
    ensures r.link.down == [Frame(Numbered(s, k), true), Frame(Numbered(s, k + 1), true)]
    ensures r.link.read == w.link.read && Get(r.link.cursor, s) == Some(k + 2)
  {
    var a, b := ServerStreams(Numbered(s, k)), ServerStreams(Numbered(s, k + 1));
    var mid := Next(w, a);
    assert mid.link.down == [Frame(Numbered(s, k), true)];
    r := Next(mid, b);
    ThenOne(mid, b);
    Then(w, a, [b]);
    assert [a, b] == [a] + [b];
  }

  lemma OneDelivered(w: World, s: string, l: Listener, n: int, fate: Fate) returns (r: World)
    requires s != "" && Listens(w.client.interest, s, l) && IsOpen(w.client.line)
    requires w.link.down != [] && w.link.down[0].message == Numbered(s, n)
    requires Ear(s, l) in w.since && w.since[Ear(s, l)].index <= |w.client.calls|
    requires FateFits(w.client.interest, Numbered(s, n), fate)
    ensures Run(w, [DeliverOther(fate)]) == Some(r)
    ensures Listens(r.client.interest, s, l) && r.client.line == w.client.line && r.link == w.link.(down := w.link.down[1..])
    ensures Ear(s, l) in r.since && r.since[Ear(s, l)].index <= |r.client.calls|
    ensures r.since[Ear(s, l)].index == w.since[Ear(s, l)].index && r.since[Ear(s, l)].from == w.since[Ear(s, l)].from
    ensures History(r, s, l) == History(w, s, l) + if Hears(w.client.interest, Numbered(s, n), fate, s, l) then [n] else []
    ensures !fate.GlobalThrows? ==> s in r.client.interest.lastSequence && r.client.interest.lastSequence[s] >= n
  {
    DeliverNumbered(w, w.link.down[0], s, l, n, fate);
    HearsNumbered(w, w.link.down[0], s, l, n, fate);
    r := Next(w, DeliverOther(fate));
    ThenOne(w, DeliverOther(fate));
  }

  /** The listener hears the second of two numbers but not the first. */
  lemma FirstIsLost(w: World, s: string, l: Listener, k: int, fate: Fate) returns (r: World)
    requires s != "" && Listens(w.client.interest, s, l) && IsOpen(w.client.line)
    requires w.link.down == [Frame(Numbered(s, k), true), Frame(Numbered(s, k + 1), true)]
    requires Ear(s, l) in w.since && w.since[Ear(s, l)].index <= |w.client.calls|
    requires CutsOff(w.client.interest, s, l, k, fate)
    ensures Run(w, [DeliverOther(fate), DeliverOther(Returns)]) == Some(r)
    ensures Listens(r.client.interest, s, l) && r.client.line == w.client.line && r.link == w.link.(down := [])
    ensures Ear(s, l) in r.since && r.since[Ear(s, l)].index <= |r.client.calls|
    ensures r.since[Ear(s, l)].index == w.since[Ear(s, l)].index && r.since[Ear(s, l)].from == w.since[Ear(s, l)].from
    ensures History(r, s, l) == History(w, s, l) + [k + 1]
    ensures s in r.client.interest.lastSequence && r.client.interest.lastSequence[s] >= k + 1
  {
    var a, b := DeliverOther(fate), DeliverOther(Returns);
    var mid := OneDelivered(w, s, l, k, fate);
    assert History(w, s, l) + [] == History(w, s, l);
    assert mid.link.down == [Frame(Numbered(s, k + 1), true)] && mid.client.line == w.client.line;
    r := OneDelivered(mid, s, l, k + 1, Returns);
    RunTwoParts(w, [a], [b], mid);
    assert [a, b] == [a] + [b];
  }

  /** What the two numbers and the throw leave. */
  lemma AfterTheThrow(w: World, s: string, l: Listener, k: int, fate: Fate) returns (r: World)
    requires CaughtUp(w, s, l, k) && CutsOff(w.client.interest, s, l, k, fate)
    ensures Run(w, ThrowActions(s, k, fate)) == Some(r)
    ensures Listens(r.client.interest, s, l) && Past(r, s, k) && Missing(r, s, l, k)
    ensures r.since[Ear(s, l)].index == w.since[Ear(s, l)].index && r.since[Ear(s, l)].from == w.since[Ear(s, l)].from
  {
    var mid := TwoOnTheWire(w, s, l, k);
    r := FirstIsLost(mid, s, l, k, fate);
    RunTwoParts(w, [ServerStreams(Numbered(s, k)), ServerStreams(Numbered(s, k + 1))],
                [DeliverOther(fate), DeliverOther(Returns)], mid);
    SkippedIsMissing(History(w, s, l), w.since[Ear(s, l)].from, k - 1, k, k + 1);
    assert Unread(r) == [];
  }

  /**
   An event whose calls end with a throw before they reach a listener, whether a
   global listener or another listener of the session throws, is lost to it for
   good: however long it stays subscribed, across drops, reconnects and further
   throws, it never hears the number, and the gap stays.
   */
  lemma ThrownEventIsLostForGood(w: World, s: string, l: Listener, k: int, fate: Fate, more: seq<Action>, t: World)
    requires Reachable(w) && CaughtUp(w, s, l, k) && CutsOff(w.client.interest, s, l, k, fate)
    requires Run(w, ThrowActions(s, k, fate)).Some?
    requires var r := Run(w, ThrowActions(s, k, fate)).value;
      Run(r, more) == Some(t) && Held(r, s, l, more) && NeverBroadcast(more, s, k)
    ensures MissingSince(w, s, l, k, t)
  {
    ReachableIsOk(w);
    RunKeepsPlumbing(w, ThrowActions(s, k, fate));
    var r := AfterTheThrow(w, s, l, k, fate);
    MissingStays(r, s, l, k, more, t);
  }
}
