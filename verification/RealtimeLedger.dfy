/** What the server was asked for and serves, and what is still to come of a session. */
module RealtimeLedger {
  import opened Basics
  import opened RealtimeHandlers
  import opened RealtimeRuns
  import opened RealtimeGaps

  /** The server serves what the requests it has read ask for, and stream events under way were once asked for. */
  ghost predicate LedgerOk(link: Link, sent: seq<ClientMessage>) {
    && link.read <= |sent|
    && link.cursor.Keys == SessionsAsked(sent[..link.read])
    && forall s :: Streamed(link.down, s) != [] ==> Requested(sent, s)
  }

  ghost predicate Ledger(w: World) {
    w.client.line.ws.Some? ==> LedgerOk(w.link, w.client.line.ws.value.sent)
  }

  lemma RequestedGrows(sent: seq<ClientMessage>, more: seq<ClientMessage>, s: string)
    requires Requested(sent, s)
    ensures Requested(sent + more, s)
  {
    var i :| 0 <= i < |sent| && Subscribes(sent[i], s);
    assert (sent + more)[i] == sent[i];
  }

  lemma {:induction false} AskedWasRequested(sent: seq<ClientMessage>, s: string)
    requires s in SessionsAsked(sent)
    ensures Requested(sent, s)
  {
    var front, last := sent[..|sent| - 1], sent[|sent| - 1];
    assert sent == front + [last];
    if s in SessionsAsked(front) {
      AskedWasRequested(front, s);
      RequestedGrows(front, [last], s);
    } else {
      assert Subscribes(sent[|sent| - 1], s);
    }
  }

  lemma SendKeepsLedger(link: Link, sent: seq<ClientMessage>, more: seq<ClientMessage>)
    requires LedgerOk(link, sent)
    ensures LedgerOk(link, sent + more)
  {
    assert (sent + more)[..link.read] == sent[..link.read];
    forall s | Streamed(link.down, s) != [] ensures Requested(sent + more, s) {
      RequestedGrows(sent, more, s);
    }
  }

  lemma ReadKeepsLedger(link: Link, sent: seq<ClientMessage>, start: nat)
    requires LedgerOk(link, sent) && link.read < |sent|
    ensures LedgerOk(link.(read := link.read + 1, cursor := Read(link.cursor, sent[link.read], start)), sent)
  {
    assert sent[..link.read + 1] == sent[..link.read] + [sent[link.read]];
    AskedOne(sent[..link.read], sent[link.read]);
  }

  lemma ServedWasRequested(link: Link, sent: seq<ClientMessage>, s: string)
    requires LedgerOk(link, sent) && s in link.cursor
    ensures Requested(sent, s)
  {
    AskedWasRequested(sent[..link.read], s);
    RequestedGrows(sent[..link.read], sent[link.read..], s);
    assert sent[..link.read] + sent[link.read..] == sent;
  }

  lemma FrameKeepsLedger(link: Link, sent: seq<ClientMessage>, f: Frame, cursor: map<string, int>)
    requires LedgerOk(link, sent) && cursor.Keys == link.cursor.Keys
    requires f.streamed && TargetSession(f.message).Some? ==> TargetSession(f.message).value in link.cursor
    ensures LedgerOk(link.(cursor := cursor, down := link.down + [f]), sent)
  {
    forall s | Streamed(link.down + [f], s) != [] ensures Requested(sent, s) {
      StreamedAppend(link.down, f, s);
      if Streamed(link.down, s) == [] {
        ServedWasRequested(link, sent, s);
      }
    }
  }

  lemma DeliverKeepsLedger(link: Link, sent: seq<ClientMessage>)
    requires LedgerOk(link, sent) && link.down != []
    ensures LedgerOk(link.(down := link.down[1..]), sent)
  {
    forall s | Streamed(link.down[1..], s) != [] ensures Requested(sent, s) {
      assert Streamed(link.down, s) != [];
    }
  }

  lemma NewLedger()
    ensures LedgerOk(NewLink, [])
  {
  }

  /** Messages are only ever added to those sent. */
  lemma StepSends(w: World, a: Action) returns (more: seq<ClientMessage>)
    requires Enabled(w, a) && w.client.line.ws.Some? && Next(w, a).client.line.ws.Some? && LinkFollows(w)
    ensures Next(w, a).client.line.ws.value.sent == w.client.line.ws.value.sent + more
  {
    StepKeepsSent(w, a);
    more := Next(w, a).client.line.ws.value.sent[|w.client.line.ws.value.sent|..];
  }

  lemma StepKeepsSent(w: World, a: Action)
    requires Enabled(w, a) && w.client.line.ws.Some? && Next(w, a).client.line.ws.Some? && LinkFollows(w)
    ensures w.client.line.ws.value.sent <= Next(w, a).client.line.ws.value.sent
  {
  }

  lemma LinkStepKeepsLedger(w: World, a: Action)
    requires Enabled(w, a) && Ledger(w) && OfTheLink(a)
    ensures LedgerOk(Next(w, a).link, w.client.line.ws.value.sent)
  {
    var sent := w.client.line.ws.value.sent;
    match a {
      case ServerReads(start) => ReadKeepsLedger(w.link, sent, start);
      case ServerStreams(m) => FrameKeepsLedger(w.link, sent, Frame(m, true), Next(w, a).link.cursor);
      case ServerSays(m) => FrameKeepsLedger(w.link, sent, Frame(m, false), w.link.cursor);
      case DeliverOther(_) => DeliverKeepsLedger(w.link, sent);
      case DeliverWelcome(_, _) => DeliverKeepsLedger(w.link, sent);
    }
  }

  lemma StepKeepsLedger(w: World, a: Action)
    requires Enabled(w, a) && LinkFollows(w) && Ledger(w)
    ensures Ledger(Next(w, a))
  {
    var r := Next(w, a);
    if r.client.line.ws.Some? {
      if OfTheLink(a) {
        LinkStepKeepsLedger(w, a);
      } else {
        OtherStepsKeepLink(w, a);
      }
      if w.client.line.ws.Some? {
        var more := StepSends(w, a);
        SendKeepsLedger(r.link, w.client.line.ws.value.sent, more);
      } else {
        NewLedger();
      }
    }
  }

  lemma {:induction false} RunKeepsLedger(w: World, actions: seq<Action>)
    requires Plumbing(w) && Ledger(w) && Run(w, actions).Some?
    ensures Ledger(Run(w, actions).value)
    decreases |actions|
  {
    if actions != [] {
      StepKeepsLedger(w, actions[0]);
      StepKeepsNonNegative(w, actions[0]);
      StepKeepsLink(w, actions[0]);
      RunKeepsLedger(Next(w, actions[0]), actions[1..]);
    }
  }

  lemma ReachableHasLedger(w: World)
    requires Reachable(w)
    ensures Ledger(w)
  {
    var actions :| Run(Start0, actions) == Some(w);
    RunKeepsLedger(Start0, actions);
  }

  /**
   What the page can see: a session that was not asked for on the current
   socket is not stale.
   */
  lemma NotStaleUnlessRequested(w: World, s: string)
    requires Reachable(w)
    ensures Stale(w, s) ==> Requested(w.client.line.ws.value.sent, s)
  {
    ReachableHasLedger(w);
    if Stale(w, s) {
      var sent, n := w.client.line.ws.value.sent, w.link.read;
      assert sent[..n] + sent[n..] == sent;
      if s in w.link.cursor {
        AskedWasRequested(sent[..n], s);
        RequestedGrows(sent[..n], sent[n..], s);
      } else if Requested(Unread(w), s) {
        var i :| 0 <= i < |Unread(w)| && Subscribes(Unread(w)[i], s);
        assert Subscribes(sent[n + i], s);
      }
    }
  }

  // ------------------------------------------------- what is still to come

  /** Number `n` of the stream of `s` is under way, will be streamed, or is asked for. */
  ghost predicate StillToCome(w: World, s: string, n: int) {
    || n in Streamed(w.link.down, s)
    || (s in w.link.cursor && w.link.cursor[s] <= n)
    || exists m :: m in Unread(w) && Subscribes(m, s) && m.fromSequence.Some? && m.fromSequence.value <= n
  }

  lemma {:induction false} AskedLater(sent: seq<ClientMessage>, n: nat, s: string)
    requires n <= |sent| && s in SessionsAsked(sent) && s !in SessionsAsked(sent[..n])
    ensures exists m :: m in sent[n..] && Subscribes(m, s)
  {
    assert sent[..|sent|] == sent;
    if n < |sent| {
      var front, last := sent[..|sent| - 1], sent[|sent| - 1];
      assert last in sent[n..];
      if s in SessionsAsked(front) {
        assert front[..n] == sent[..n];
        AskedLater(front, n, s);
        assert forall m :: m in front[n..] ==> m in sent[n..];
      }
    }
  }

  /** On a line that brings everything behind `p`, whatever lies behind `p` is still to come. */
  lemma BehindIsToCome(w: World, s: string, p: int, n: int)
    requires LineOk(Get(w.link.cursor, s), Streamed(w.link.down, s), Unread(w), s, Some(p)) && n > p
    requires s in w.link.cursor || exists m :: m in Unread(w) && Subscribes(m, s)
    ensures StillToCome(w, s, n)
  {
    var e := Streamed(w.link.down, s);
    if s !in w.link.cursor {
      var m :| m in Unread(w) && Subscribes(m, s);
      assert Fits(m, s, None, Some(p));
    } else if n <= HighAfter(Some(p), e).value {
      ContiguousFills(p, e, n);
    }
  }

  lemma ServedOrAsked(w: World, s: string)
    requires Reachable(w) && IsOpen(w.client.line) && w.client.line.welcomed && s in w.client.interest.sessions
    ensures s in w.link.cursor || exists m :: m in Unread(w) && Subscribes(m, s)
  {
    SubscriptionsInSync(w);
    ReachableHasLedger(w);
    var sent := w.client.line.ws.value.sent;
    if s !in w.link.cursor {
      AskedLater(sent, w.link.read, s);
    }
  }

  /**
   On a welcomed socket, a number that an orderly subscription has missed so far
   is still to come in the stream.
   */
  lemma MissingIsStillToCome(w: World, s: string, l: Listener, n: int)
    requires Reachable(w) && Listens(w.client.interest, s, l) && Orderly(w, s, l)
    requires IsOpen(w.client.line) && w.client.line.welcomed
    ensures w.since[Ear(s, l)].index <= |w.client.calls|
    ensures var d, from := History(w, s, l), w.since[Ear(s, l)].from;
      var h := Get(w.client.interest.lastSequence, s);
      First(d, from).Some? && h.Some? && First(d, from).value <= n <= h.value && n !in d ==> StillToCome(w, s, n)
  {
    ReachableIsOk(w);
    assert SessionOk(w, s, l);
    var p :| SessionOkAt(w, s, l, p);
    var d, from := History(w, s, l), w.since[Ear(s, l)].from;
    var h := Get(w.client.interest.lastSequence, s);
    if First(d, from).Some? && h.Some? && First(d, from).value <= n <= h.value && n !in d {
      assert n > p.value;
      ServedOrAsked(w, s);
      BehindIsToCome(w, s, p.value, n);
    }
  }

  /** The stream has been read, delivered and served beyond everything noted. */
  predicate StreamCaughtUp(w: World, s: string) {
    && Streamed(w.link.down, s) == [] && !Requested(Unread(w), s)
    && (s in w.link.cursor && s in w.client.interest.lastSequence ==> w.link.cursor[s] > w.client.interest.lastSequence[s])
  }

  /** Gaps that broadcasts opened are closed when the stream has caught up. */
  lemma CaughtUpHearsAll(w: World, s: string, l: Listener)
    requires Reachable(w) && Listens(w.client.interest, s, l) && Orderly(w, s, l)
    requires IsOpen(w.client.line) && w.client.line.welcomed && StreamCaughtUp(w, s)
    ensures w.since[Ear(s, l)].index <= |w.client.calls|
    ensures GapFree(History(w, s, l), w.since[Ear(s, l)].from)
  {
    ReachableIsOk(w);
    assert SessionOk(w, s, l);
    var p :| SessionOkAt(w, s, l, p);
    var d, from := History(w, s, l), w.since[Ear(s, l)].from;
    if d != [] {
      HighestIsReached(d);
      assert forall m :: m in Unread(w) ==> !Subscribes(m, s);
      forall n | First(d, from).value <= n <= Highest(d) ensures n in d {
        if n !in d {
          MissingIsStillToCome(w, s, l, n);
        }
      }
    }
  }
}
