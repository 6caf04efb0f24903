/** What the listeners of a session hear, across drops and reconnects, broadcasts and throwing listeners. */
module RealtimeGaps {
  import opened Basics
  import opened RealtimeHandlers
  import opened RealtimeRuns

  // --------------------------------------------------- sequences of numbers

  function Highest(d: seq<int>): int
    requires d != []
  {
    if |d| == 1 then d[0] else Max(Highest(d[..|d| - 1]), d[|d| - 1])
  }

  /** Every number from the first up to the highest heard was heard. */
  ghost predicate GapFree(d: seq<int>, from: Option<int>) {
    d != [] ==> AllHeard(d, from, Some(Highest(d)))
  }

  /** Arriving after high-water mark `h`, no number of `e` skips one. */
  predicate Contiguous(h: Option<int>, e: seq<int>)
    decreases |e|
  {
    e == [] || ((h.Some? ==> e[0] <= h.value + 1) && Contiguous(Raised(h, e[0]), e[1..]))
  }

  function Raised(h: Option<int>, n: int): Option<int> {
    Some(if h.Some? then Max(n, h.value) else n)
  }

  function HighAfter(h: Option<int>, e: seq<int>): (r: Option<int>)
    ensures h.Some? ==> r.Some? && r.value >= h.value
    decreases |e|
  {
    if e == [] then h else HighAfter(Raised(h, e[0]), e[1..])
  }

  lemma {:induction false} HighestIsReached(d: seq<int>)
    requires d != []
    ensures Highest(d) in d && forall n :: n in d ==> n <= Highest(d)
  {
    if |d| > 1 {
      HighestIsReached(d[..|d| - 1]);
      assert d == d[..|d| - 1] + [d[|d| - 1]];
    }
  }

  lemma {:induction false} ContiguousGrows(h: Option<int>, e: seq<int>, n: int)
    requires Contiguous(h, e) && (HighAfter(h, e).Some? ==> n <= HighAfter(h, e).value + 1)
    ensures Contiguous(h, e + [n]) && HighAfter(h, e + [n]) == Raised(HighAfter(h, e), n)
    decreases |e|
  {
    if e == [] {
      assert e + [n] == [n];
    } else {
      ContiguousGrows(Raised(h, e[0]), e[1..], n);
      assert (e + [n])[1..] == e[1..] + [n];
    }
  }

  /** Nothing skips when more was heard before. */
  lemma {:induction false} ContiguousHigher(p: int, q: int, e: seq<int>)
    requires p <= q && Contiguous(Some(p), e)
    ensures Contiguous(Some(q), e) && HighAfter(Some(q), e).value >= HighAfter(Some(p), e).value
    decreases |e|
  {
    if e != [] {
      ContiguousHigher(Max(e[0], p), Max(e[0], q), e[1..]);
    }
  }

  /** A contiguous sequence fills everything up to its high-water mark. */
  lemma {:induction false} ContiguousFills(p: int, e: seq<int>, n: int)
    requires Contiguous(Some(p), e) && p < n <= HighAfter(Some(p), e).value
    ensures n in e
    decreases |e|
  {
    if e != [] && n != e[0] {
      ContiguousFills(Max(e[0], p), e[1..], n);
    }
  }

  lemma {:induction false} NumbersForAppend(down: seq<Frame>, f: Frame, s: string)
    ensures NumbersFor(down + [f], s) == NumbersFor(down, s) + NumberIn(f, s)
  {
    if down != [] {
      NumbersForAppend(down[1..], f, s);
      assert (down + [f])[1..] == down[1..] + [f];
    } else {
      assert down + [f] == [f];
    }
  }

  lemma {:induction false} StreamedAppend(down: seq<Frame>, f: Frame, s: string)
    ensures Streamed(down + [f], s) == Streamed(down, s) + if f.streamed then NumberIn(f, s) else []
  {
    if down != [] {
      StreamedAppend(down[1..], f, s);
      assert (down + [f])[1..] == down[1..] + [f];
    } else {
      assert down + [f] == [f];
    }
  }

  lemma HeardOne(calls: seq<Call>, x: Call, s: string, l: Listener, i: nat)
    requires i <= |calls|
    ensures Heard((calls + [x])[i..], s, l) == Heard(calls[i..], s, l) + HeardIn(x, s, l)
  {
    assert (calls + [x])[i..] == calls[i..] + [x];
    assert (calls[i..] + [x])[..|calls[i..] + [x]| - 1] == calls[i..];
  }

  // ------------------------------------------------------------- invariant

  /** A pending request about `s` that cannot open a gap behind `p`. */
  predicate Fits(m: ClientMessage, s: string, cursor: Option<int>, p: Option<int>) {
    && (m == UnsubscribeSession(s) ==> cursor.None?)
    && (Subscribes(m, s) ==>
         if m.fromSequence.Some? then p.Some? && 0 <= m.fromSequence.value <= p.value + 1
         else cursor.None? ==> p.None?)
  }

  /** No request to leave `s` comes after one to join it. */
  predicate StaysJoined(unread: seq<ClientMessage>, s: string) {
    forall i, j :: 0 <= i < j < |unread| && Subscribes(unread[i], s) ==> unread[j] != UnsubscribeSession(s)
  }

  /** All up to `p` was heard; `e` are the numbers of the stream under way: none of them skips one. */
  ghost predicate LineOk(cursor: Option<int>, e: seq<int>, unread: seq<ClientMessage>, s: string, p: Option<int>) {
    && Contiguous(p, e)
    && (forall n :: n in e ==> n >= 0)
    && (cursor.None? ==> e == [])
    && (cursor.Some? ==> cursor.value >= 0)
    && (cursor.Some? && HighAfter(p, e).Some? ==> cursor.value <= HighAfter(p, e).value + 1)
    && (forall m :: m in unread ==> Fits(m, s, cursor, p))
    && StaysJoined(unread, s)
  }

  /** `d` was heard, all of it from the first number to `p`, and nothing above the noted `h`. */
  ghost predicate Covered(d: seq<int>, from: Option<int>, p: Option<int>, h: Option<int>) {
    && (h.None? ==> p.None? && from.None? && d == [])
    && (h.Some? ==> p.Some? && p.value <= h.value && First(d, from).Some? && First(d, from).value <= p.value + 1)
    && AllHeard(d, from, p)
    && forall n :: n in d ==> h.Some? && n <= h.value
  }

  /** All that listener `l` could have heard up to `p` it has heard, and the line brings the rest without a gap. */
  ghost predicate SessionOkAt(w: World, s: string, l: Listener, p: Option<int>) {
    var e, h := Ear(s, l), Get(w.client.interest.lastSequence, s);
    && e in w.since && w.since[e].index <= |w.client.calls|
    && Covered(Heard(w.client.calls[w.since[e].index..], s, l), w.since[e].from, p, h)
    && (IsOpen(w.client.line) ==> LineOk(Get(w.link.cursor, s), Streamed(w.link.down, s), Unread(w), s, p))
    && (!w.since[e].ahead ==> p == h)
  }

  ghost predicate SessionOk(w: World, s: string, l: Listener) {
    exists p :: SessionOkAt(w, s, l, p)
  }

  predicate NoSessionEvents(down: seq<Frame>) {
    forall f :: f in down ==> TargetSession(f.message).None?
  }

  ghost predicate Plumbing(w: World) {
    NonNegative(w.client.interest.lastSequence) && LinkFollows(w)
  }

  predicate NonNegative(last: map<string, int>) {
    forall s :: s in last ==> last[s] >= 0
  }

  /** The link belongs to the current socket, and starts empty. */
  ghost predicate LinkFollows(w: World) {
    var ws := w.client.line.ws;
    && (w.closing ==> ws.None?)
    && (ws.None? ==> w.link == NewLink)
    && (ws.Some? ==> w.link.read <= |ws.value.sent|)
    && (ws.Some? && ws.value.ready == CONNECTING ==>
         ws.value.sent == [] && w.link.read == 0 && w.link.cursor == map[] && NoSessionEvents(w.link.down))
  }

  ghost predicate Tracked(w: World) {
    forall s, l :: Listens(w.client.interest, s, l) ==> Ear(s, l) in w.since && w.since[Ear(s, l)].index <= |w.client.calls|
  }

  ghost predicate WorldOk(w: World) {
    && Plumbing(w)
    && Tracked(w)
    && forall s, l :: Listens(w.client.interest, s, l) && Orderly(w, s, l) ==> SessionOk(w, s, l)
  }

  lemma {:induction false} NoneStreamed(down: seq<Frame>, s: string)
    requires NoSessionEvents(down)
    ensures Streamed(down, s) == []
  {
    if down != [] {
      NoneStreamed(down[1..], s);
    }
  }

  // --------------------------------------------------- steps: the plumbing

  lemma StepKeepsNonNegative(w: World, a: Action)
    requires Enabled(w, a) && NonNegative(w.client.interest.lastSequence)
    ensures NonNegative(ClientAfter(w, a).interest.lastSequence)
  {
  }

  /** The steps of the link itself. */
  predicate OfTheLink(a: Action) {
    a.ServerReads? || a.ServerStreams? || a.ServerSays? || a.DeliverOther? || a.DeliverWelcome?
  }

  lemma LinkStepKeepsLink(w: World, a: Action)
    requires Enabled(w, a) && LinkFollows(w) && OfTheLink(a)
    ensures LinkFollows(Next(w, a))
  {
    if a.DeliverOther? {
      assert ClientAfter(w, a).line == w.client.line;
    }
  }

  /** Every other step leaves the link alone, or brings a new one. */
  lemma OtherStepsKeepLink(w: World, a: Action)
    requires Enabled(w, a) && LinkFollows(w) && !OfTheLink(a) && Next(w, a).client.line.ws.Some?
    ensures w.client.line.ws.Some? ==> Next(w, a).link == w.link
    ensures w.client.line.ws.None? ==> Next(w, a).link == NewLink && Next(w, a).client.line.ws.value.sent == []
  {
  }

  lemma StepKeepsLink(w: World, a: Action)
    requires Enabled(w, a) && LinkFollows(w)
    ensures LinkFollows(Next(w, a))
  {
    if OfTheLink(a) {
      LinkStepKeepsLink(w, a);
    }
  }

  lemma StepKeepsTracked(w: World, a: Action)
    requires Enabled(w, a) && Tracked(w)
    ensures Tracked(Next(w, a))
  {
    StepExtendsCalls(w, a);
    var r := Next(w, a);
    forall s, l | Listens(r.client.interest, s, l) ensures Ear(s, l) in r.since && r.since[Ear(s, l)].index <= |r.client.calls| {
      StepListens(w, a, s, l);
    }
  }

  lemma StepExtendsCalls(w: World, a: Action)
    requires Enabled(w, a)
    ensures w.client.calls <= Next(w, a).client.calls
  {
  }

  /** Only Subscribe adds a listener, and records where it begins. */
  lemma StepListens(w: World, a: Action, s: string, l: Listener)
    requires Enabled(w, a) && Listens(Next(w, a).client.interest, s, l)
    ensures Listens(w.client.interest, s, l) || (a == Subscribe(s, l) && Next(w, a).since == w.since[Ear(s, l) := Begin(w, s)])
  {
  }

  // ------------------------------------------------- steps: one session's line

  /** Requests the client may add: none leaves `s`, and each about `s` fits. */
  ghost predicate GoodRequests(more: seq<ClientMessage>, s: string, cursor: Option<int>, p: Option<int>) {
    forall m :: m in more ==> m != UnsubscribeSession(s) && Fits(m, s, cursor, p)
  }

  lemma JoinedGrows(unread: seq<ClientMessage>, more: seq<ClientMessage>, s: string)
    requires StaysJoined(unread, s) && forall m :: m in more ==> m != UnsubscribeSession(s)
    ensures StaysJoined(unread + more, s)
  {
    var all := unread + more;
    forall i, j | 0 <= i < j < |all| && Subscribes(all[i], s) ensures all[j] != UnsubscribeSession(s) {
      if j >= |unread| {
        assert all[j] == more[j - |unread|] && all[j] in more;
      } else {
        assert all[i] == unread[i] && all[j] == unread[j];
      }
    }
  }

  lemma MoreRequests(cursor: Option<int>, e: seq<int>, unread: seq<ClientMessage>, more: seq<ClientMessage>,
                     s: string, p: Option<int>)
    requires LineOk(cursor, e, unread, s, p) && GoodRequests(more, s, cursor, p)
    ensures LineOk(cursor, e, unread + more, s, p)
  {
    JoinedGrows(unread, more, s);
  }

  lemma JoinedShrinks(m: ClientMessage, rest: seq<ClientMessage>, s: string)
    requires StaysJoined([m] + rest, s)
    ensures StaysJoined(rest, s)
    ensures Subscribes(m, s) ==> forall x :: x in rest ==> x != UnsubscribeSession(s)
  {
    var all := [m] + rest;
    forall i, j | 0 <= i < j < |rest| && Subscribes(rest[i], s) ensures rest[j] != UnsubscribeSession(s) {
      assert rest[i] == all[i + 1] && rest[j] == all[j + 1];
    }
    if Subscribes(m, s) {
      forall j | 0 <= j < |rest| ensures rest[j] != UnsubscribeSession(s) {
        assert all[0] == m && rest[j] == all[j + 1];
      }
    }
  }

  /** What reading one request leaves of the fit of another. */
  lemma StillFits(cursor: map<string, int>, m: ClientMessage, x: ClientMessage, start: nat, s: string, p: Option<int>)
    requires Fits(m, s, Get(cursor, s), p) && Fits(x, s, Get(cursor, s), p)
    requires Subscribes(m, s) ==> x != UnsubscribeSession(s)
    ensures Fits(x, s, Get(Read(cursor, m, start), s), p)
  {
  }

  /** Reading one request. */
  lemma ReadKeepsLine(cursor: map<string, int>, e: seq<int>, m: ClientMessage, rest: seq<ClientMessage>,
                      start: nat, s: string, p: Option<int>)
    requires LineOk(Get(cursor, s), e, [m] + rest, s, p)
    ensures LineOk(Get(Read(cursor, m, start), s), e, rest, s, p)
  {
    assert m in [m] + rest;
    assert Fits(m, s, Get(cursor, s), p);
    JoinedShrinks(m, rest, s);
    forall x | x in rest ensures Fits(x, s, Get(Read(cursor, m, start), s), p) {
      assert x in [m] + rest;
      StillFits(cursor, m, x, start, s, p);
    }
  }

  /** The server puts the next number of the stream on the wire. */
  lemma StreamKeepsLine(k: int, e: seq<int>, unread: seq<ClientMessage>, s: string, p: Option<int>)
    requires LineOk(Some(k), e, unread, s, p)
    ensures LineOk(Some(k + 1), e + [k], unread, s, p)
  {
    ContiguousGrows(p, e, k);
    forall m | m in unread ensures Fits(m, s, Some(k + 1), p) {
      assert Fits(m, s, Some(k), p);
    }
  }

  /** The client takes the next number of the stream off the wire. */
  lemma HearKeepsLine(cursor: Option<int>, n: int, rest: seq<int>, unread: seq<ClientMessage>, s: string, p: Option<int>)
    requires LineOk(cursor, [n] + rest, unread, s, p)
    ensures n >= 0 && (p.Some? ==> n <= p.value + 1)
    ensures LineOk(cursor, rest, unread, s, Raised(p, n))
  {
    var e := [n] + rest;
    assert e[0] == n && e[1..] == rest;
    assert n in e;
    forall m | m in unread ensures Fits(m, s, cursor, Raised(p, n)) {
      assert Fits(m, s, cursor, p);
    }
    forall x | x in rest ensures x >= 0 {
      assert x in e;
    }
  }

  /** More turns out to have been heard. */
  lemma LineHigher(cursor: Option<int>, e: seq<int>, unread: seq<ClientMessage>, s: string, p: int, q: int)
    requires p <= q && LineOk(cursor, e, unread, s, Some(p))
    ensures LineOk(cursor, e, unread, s, Some(q))
  {
    ContiguousHigher(p, q, e);
    forall m | m in unread ensures Fits(m, s, cursor, Some(q)) {
      assert Fits(m, s, cursor, Some(p));
    }
  }

  // --------------------------------------------------- steps: what was heard

  lemma StreamedKeepsCover(d: seq<int>, from: Option<int>, p: Option<int>, h: Option<int>, n: int)
    requires Covered(d, from, p, h) && (p.Some? ==> n <= p.value + 1)
    ensures Covered(d + [n], from, Raised(p, n), Raised(h, n))
  {
    var more := d + [n];
    assert d != [] ==> more[0] == d[0];
    assert forall k :: k in d ==> k in more;
    assert n in more;
  }

  /** A broadcast, heard or not. */
  lemma BroadcastKeepsCover(d: seq<int>, from: Option<int>, p: Option<int>, h: Option<int>, n: int)
    requires Covered(d, from, p, h) && h.Some?
    ensures Covered(d + [n], from, p, Raised(h, n)) && Covered(d, from, p, Raised(h, n))
  {
    var more := d + [n];
    assert d != [] ==> more[0] == d[0];
    assert forall k :: k in d ==> k in more;
  }

  lemma CoverInFull(d: seq<int>, from: Option<int>, p: Option<int>, h: Option<int>)
    requires Covered(d, from, p, h) && AllHeard(d, from, h)
    ensures Covered(d, from, h, h)
  {
  }

  lemma CoveredIsGapFree(d: seq<int>, from: Option<int>, h: Option<int>)
    requires Covered(d, from, h, h)
    ensures GapFree(d, from)
  {
    if d != [] {
      HighestIsReached(d);
    }
  }

  // ------------------------------------------------------------- the steps

  /** A step while listener `l` goes on listening to `s`, all up to `p` heard. */
  ghost predicate Continuing(w: World, a: Action, s: string, l: Listener, p: Option<int>) {
    Plumbing(w) && Enabled(w, a) && Listens(w.client.interest, s, l) && SessionOkAt(w, s, l, p)
  }

  ghost predicate SameStart(w: World, r: World, e: Ear) {
    && e in w.since && e in r.since
    && r.since[e].index == w.since[e].index && r.since[e].from == w.since[e].from && r.since[e].ahead == w.since[e].ahead
  }

  /** Steps that keep the call log, the noted sequence and what is under way. */
  lemma StillOk(w: World, r: World, s: string, l: Listener, p: Option<int>)
    requires SessionOkAt(w, s, l, p) && SameStart(w, r, Ear(s, l))
    requires r.client.calls == w.client.calls
    requires Get(r.client.interest.lastSequence, s) == Get(w.client.interest.lastSequence, s)
    requires IsOpen(r.client.line) ==> IsOpen(w.client.line) && r.client.line.ws == w.client.line.ws && r.link == w.link
    ensures SessionOkAt(r, s, l, p)
  {
  }

  lemma UnreadGrows(w: World, r: World, more: seq<ClientMessage>)
    requires Plumbing(w) && IsOpen(w.client.line) && r.link.read == w.link.read
    requires r.client.line.ws == SendAll(w.client.line, more).ws
    ensures IsOpen(r.client.line) && Unread(r) == Unread(w) + more
  {
    var sent := w.client.line.ws.value.sent;
    assert (sent + more)[w.link.read..] == sent[w.link.read..] + more;
  }

  /** Steps that send more requests, none of which disturbs `s`. */
  lemma StillOkSending(w: World, r: World, s: string, l: Listener, p: Option<int>, more: seq<ClientMessage>)
    requires Plumbing(w) && SessionOkAt(w, s, l, p) && SameStart(w, r, Ear(s, l))
    requires r.client.calls == w.client.calls
    requires IsOpen(w.client.line) ==> Get(r.link.cursor, s) == Get(w.link.cursor, s) && r.link.read == w.link.read
    requires IsOpen(w.client.line) ==> Streamed(r.link.down, s) == Streamed(w.link.down, s)
    requires Get(r.client.interest.lastSequence, s) == Get(w.client.interest.lastSequence, s)
    requires r.client.line.ws == SendAll(w.client.line, more).ws
    requires GoodRequests(more, s, Get(w.link.cursor, s), p)
    ensures SessionOkAt(r, s, l, p)
  {
    if IsOpen(w.client.line) {
      MoreRequests(Get(w.link.cursor, s), Streamed(w.link.down, s), Unread(w), more, s, p);
      UnreadGrows(w, r, more);
    }
  }

  lemma SubscribeStep(w: World, t: string, k: Listener, s: string, l: Listener, p: Option<int>)
    requires Continuing(w, Subscribe(t, k), s, l, p)
    ensures SessionOkAt(Next(w, Subscribe(t, k)), s, l, p)
  {
    var r := Next(w, Subscribe(t, k));
    if t in w.client.interest.sessions {
      StillOk(w, r, s, l, p);
    } else {
      StillOkSending(w, r, s, l, p, [SubscribeMessage(w.client.interest.lastSequence, t)]);
    }
  }

  lemma UnsubscribeStep(w: World, t: string, k: Listener, s: string, l: Listener, p: Option<int>)
    requires Continuing(w, Unsubscribe(t, k), s, l, p) && Listens(Next(w, Unsubscribe(t, k)).client.interest, s, l)
    ensures SessionOkAt(Next(w, Unsubscribe(t, k)), s, l, p)
  {
    var r := Next(w, Unsubscribe(t, k));
    if t in w.client.interest.sessions && w.client.interest.sessions[t] - {k} == {} {
      StillOkSending(w, r, s, l, p, [UnsubscribeSession(t)]);
    } else {
      StillOk(w, r, s, l, p);
    }
  }

  lemma DeviceStep(w: World, a: Action, s: string, l: Listener, p: Option<int>)
    requires Continuing(w, a, s, l, p) && (a.WatchDevice? || a.UnwatchDevice?)
    ensures SessionOkAt(Next(w, a), s, l, p)
  {
    var r, d := Next(w, a), a.device;
    var m := if a.WatchDevice? then SubscribeDevice(d) else UnsubscribeDevice(d);
    if r.client.line.ws == w.client.line.ws {
      StillOk(w, r, s, l, p);
    } else {
      StillOkSending(w, r, s, l, p, [m]);
    }
  }

  lemma WelcomeRequests(last: map<string, int>, so: seq<string>, do: seq<string>, s: string, cursor: Option<int>)
    requires NonNegative(last)
    ensures GoodRequests(SessionRequests(last, so) + DeviceRequests(do), s, cursor, Get(last, s))
  {
    var more := SessionRequests(last, so) + DeviceRequests(do);
    forall m | m in more ensures m != UnsubscribeSession(s) && Fits(m, s, cursor, Get(last, s)) {
      assert m in SessionRequests(last, so) || m in DeviceRequests(do);
    }
  }

  /** With nothing missing, all up to the noted number was heard. */
  lemma NothingMissing(w: World, s: string, l: Listener, p: Option<int>)
    requires SessionOkAt(w, s, l, p)
    requires var h := Get(w.client.interest.lastSequence, s);
      AllHeard(Heard(w.client.calls[w.since[Ear(s, l)].index..], s, l), w.since[Ear(s, l)].from, h)
    ensures SessionOkAt(w, s, l, Get(w.client.interest.lastSequence, s))
  {
    var h := Get(w.client.interest.lastSequence, s);
    CoverInFull(Heard(w.client.calls[w.since[Ear(s, l)].index..], s, l), w.since[Ear(s, l)].from, p, h);
    if IsOpen(w.client.line) && h.Some? {
      LineHigher(Get(w.link.cursor, s), Streamed(w.link.down, s), Unread(w), s, p.value, h.value);
    }
  }

  lemma WelcomeStep(w: World, so: seq<string>, do: seq<string>, s: string, l: Listener, p: Option<int>)
    requires Continuing(w, DeliverWelcome(so, do), s, l, p) && Orderly(Next(w, DeliverWelcome(so, do)), s, l)
    ensures SessionOkAt(Next(w, DeliverWelcome(so, do)), s, l, Get(w.client.interest.lastSequence, s))
  {
    var last := w.client.interest.lastSequence;
    var r := Next(w, DeliverWelcome(so, do));
    assert r.since[Ear(s, l)] == AfterWelcome(w.client, Ear(s, l), w.since[Ear(s, l)]);
    NothingMissing(w, s, l, p);
    WelcomeRequests(last, so, do, s, Get(w.link.cursor, s));
    StillOkSending(w, r, s, l, Get(last, s), SessionRequests(last, so) + DeviceRequests(do));
  }

  /** What a delivered message adds to what `l` heard of `s`. */
  function News(i: Interest, m: ServerMessage, fate: Fate, s: string, l: Listener): seq<int> {
    if Hears(i, m, fate, s, l) then [SequenceOf(m).value] else []
  }

  lemma SilentCalls(calls: seq<Call>, more: seq<Call>, s: string, l: Listener, i: nat)
    requires i <= |calls| && |more| <= 1 && (more != [] ==> !more[0].SessionCall?)
    ensures Heard((calls + more)[i..], s, l) == Heard(calls[i..], s, l)
  {
    if more == [] {
      assert calls + more == calls;
    } else {
      HeardOne(calls, more[0], s, l, i);
      assert more == [more[0]];
    }
  }

  lemma SessionCalls(c: Client, m: ServerMessage, fate: Fate, s: string, l: Listener, i: nat)
    requires m.Event? && FateFits(c.interest, m, fate) && !fate.GlobalThrows? && i <= |c.calls| && Listens(c.interest, s, l)
    ensures var r := NotifySession(c, m, fate);
      i <= |r.calls| && Heard(r.calls[i..], s, l) == Heard(c.calls[i..], s, l) + News(c.interest, m, fate, s, l)
  {
    var t := TargetSession(m);
    if t.Some? && t.value in c.interest.sessions {
      var called := if fate.SessionThrows? then fate.called else SessionListeners(c.interest, m);
      HeardOne(c.calls, SessionCall(t.value, called, SequenceOf(m)), s, l, i);
    }
  }

  /** The part of an event behind the global listeners. */
  lemma LaterCalls(c: Client, m: ServerMessage, fate: Fate, s: string, l: Listener, i: nat)
    requires m.Event? && FateFits(c.interest, m, fate) && !fate.GlobalThrows? && i <= |c.calls| && Listens(c.interest, s, l)
    ensures var c2 := NotifySession(c, m, fate);
      var calls := c2.calls + if fate.SessionThrows? then [] else DeviceCalls(c2.interest, m, fate);
      i <= |calls| && Heard(calls[i..], s, l) == Heard(c.calls[i..], s, l) + News(c.interest, m, fate, s, l)
  {
    var c2 := NotifySession(c, m, fate);
    SessionCalls(c, m, fate, s, l, i);
    SilentCalls(c2.calls, if fate.SessionThrows? then [] else DeviceCalls(c2.interest, m, fate), s, l, i);
  }

  lemma EventCalls(c: Client, m: ServerMessage, fate: Fate, s: string, l: Listener, i: nat)
    requires m.Event? && FateFits(c.interest, m, fate) && i <= |c.calls| && Listens(c.interest, s, l)
    ensures var r := OnEvent(c, m, fate);
      i <= |r.calls| && Heard(r.calls[i..], s, l) == Heard(c.calls[i..], s, l) + News(c.interest, m, fate, s, l)
  {
    var globals := GlobalCalls(c.interest, m, fate);
    SilentCalls(c.calls, globals, s, l, i);
    if fate.GlobalThrows? {
      assert News(c.interest, m, fate, s, l) == [];
    } else {
      var c1 := c.(calls := c.calls + globals);
      LaterCalls(c1, m, fate, s, l, i);
      var c2 := NotifySession(c1, m, fate);
      assert fate.SessionThrows? ==> c2.calls + [] == c2.calls;
    }
  }

  /** The welcome aside. */
  lemma DeliveredCalls(c: Client, m: ServerMessage, fate: Fate, s: string, l: Listener, i: nat)
    requires !m.Welcome? && FateFits(c.interest, m, fate) && i <= |c.calls| && Listens(c.interest, s, l)
    ensures var r := OnOtherMessage(c, m, fate);
      i <= |r.calls| && Heard(r.calls[i..], s, l) == Heard(c.calls[i..], s, l) + News(c.interest, m, fate, s, l)
  {
    if m.Event? {
      EventCalls(c, m, fate, s, l, i);
    } else if m.Notice? {
      SilentCalls(c.calls, GlobalCalls(c.interest, m, fate), s, l, i);
    }
  }

  /** A delivered message changes nothing but the call log, what is noted and the intention to stay closed. */
  lemma DeliveredKeeps(c: Client, m: ServerMessage, fate: Fate)
    requires !m.Welcome?
    ensures var r := OnOtherMessage(c, m, fate); r.line == c.line && r.interest.sessions == c.interest.sessions
  {
  }

  /** The number noted for `s` after a delivered message. */
  lemma DeliveredNote(c: Client, m: ServerMessage, fate: Fate, s: string)
    requires !m.Welcome? && NonNegative(c.interest.lastSequence)
    requires IsFor(m, s) && !fate.GlobalThrows? && s !in c.interest.lastSequence ==> SequenceOf(m).value >= 0
    ensures Get(OnOtherMessage(c, m, fate).interest.lastSequence, s)
         == if IsFor(m, s) && !fate.GlobalThrows? then Raised(Get(c.interest.lastSequence, s), SequenceOf(m).value)
            else Get(c.interest.lastSequence, s)
  {
  }

  /** What a delivered message does to the number noted for `s`. */
  function Noted(h: Option<int>, m: ServerMessage, fate: Fate, s: string): Option<int> {
    if IsFor(m, s) && !fate.GlobalThrows? then Raised(h, SequenceOf(m).value) else h
  }

  predicate NumberFits(m: ServerMessage, fate: Fate, s: string, h: Option<int>) {
    IsFor(m, s) && !fate.GlobalThrows? && h.None? ==> SequenceOf(m).value >= 0
  }

  /** What is to be shown for a delivered message. */
  lemma DeliveryKeeps(w: World, fate: Fate, s: string, l: Listener, p: Option<int>, q: Option<int>)
    requires Continuing(w, DeliverOther(fate), s, l, p)
    requires var c, f, e := w.client, w.link.down[0], Ear(s, l);
      var h := Get(c.interest.lastSequence, s);
      && NumberFits(f.message, fate, s, h)
      && Covered(Heard(c.calls[w.since[e].index..], s, l) + News(c.interest, f.message, fate, s, l), w.since[e].from, q,
                 Noted(h, f.message, fate, s))
      && LineOk(Get(w.link.cursor, s), Streamed(w.link.down[1..], s), Unread(w), s, q)
      && (!AfterDelivery(c, f, fate, e, w.since[e]).ahead ==> q == Noted(h, f.message, fate, s))
    ensures SessionOkAt(Next(w, DeliverOther(fate)), s, l, q)
  {
    var r, f, e := Next(w, DeliverOther(fate)), w.link.down[0], Ear(s, l);
    DeliveredCalls(w.client, f.message, fate, s, l, w.since[e].index);
    DeliveredNote(w.client, f.message, fate, s);
    DeliveredKeeps(w.client, f.message, fate);
    assert r.since[e] == AfterDelivery(w.client, f, fate, e, w.since[e]);
    assert Unread(r) == Unread(w);
  }

  /** An event of the stream that is heard. */
  lemma StreamedStep(w: World, fate: Fate, s: string, l: Listener, p: Option<int>)
    requires Continuing(w, DeliverOther(fate), s, l, p) && w.link.down[0].streamed
    requires Hears(w.client.interest, w.link.down[0].message, fate, s, l)
    ensures SessionOkAt(Next(w, DeliverOther(fate)), s, l, Raised(p, SequenceOf(w.link.down[0].message).value))
  {
    var n, h := SequenceOf(w.link.down[0].message).value, Get(w.client.interest.lastSequence, s);
    var d, from := Heard(w.client.calls[w.since[Ear(s, l)].index..], s, l), w.since[Ear(s, l)].from;
    assert Streamed(w.link.down, s) == [n] + Streamed(w.link.down[1..], s);
    HearKeepsLine(Get(w.link.cursor, s), n, Streamed(w.link.down[1..], s), Unread(w), s, p);
    StreamedKeepsCover(d, from, p, h, n);
    DeliveryKeeps(w, fate, s, l, p, Raised(p, n));
  }

  lemma NoStreamed(f: Frame, rest: seq<Frame>, s: string)
    requires !f.streamed || !IsFor(f.message, s)
    ensures Streamed([f] + rest, s) == Streamed(rest, s)
  {
    assert ([f] + rest)[1..] == rest;
  }

  lemma NoNews(d: seq<int>, i: Interest, m: ServerMessage, fate: Fate, s: string, l: Listener)
    requires !Hears(i, m, fate, s, l)
    ensures d + News(i, m, fate, s, l) == d
  {
  }

  lemma OthersLeaveLine(w: World, fate: Fate, s: string, l: Listener, p: Option<int>)
    requires Continuing(w, DeliverOther(fate), s, l, p)
    requires !IsFor(w.link.down[0].message, s) || !w.link.down[0].streamed
    ensures LineOk(Get(w.link.cursor, s), Streamed(w.link.down[1..], s), Unread(w), s, p)
  {
    NoStreamed(w.link.down[0], w.link.down[1..], s);
    assert w.link.down == [w.link.down[0]] + w.link.down[1..];
  }

  /** A message that belongs to no stream of `s` and is not noted for it. */
  lemma OtherMessageStep(w: World, fate: Fate, s: string, l: Listener, p: Option<int>)
    requires Continuing(w, DeliverOther(fate), s, l, p)
    requires !IsFor(w.link.down[0].message, s) || (!w.link.down[0].streamed && fate.GlobalThrows?)
    ensures SessionOkAt(Next(w, DeliverOther(fate)), s, l, p)
  {
    OthersLeaveLine(w, fate, s, l, p);
    NoNews(Heard(w.client.calls[w.since[Ear(s, l)].index..], s, l), w.client.interest, w.link.down[0].message, fate, s, l);
    DeliveryKeeps(w, fate, s, l, p, p);
  }

  /** A noted broadcast, behind another number. */
  ghost predicate BroadcastComes(w: World, fate: Fate, s: string, l: Listener, p: Option<int>) {
    && Continuing(w, DeliverOther(fate), s, l, p) && s in w.client.interest.lastSequence
    && IsFor(w.link.down[0].message, s) && !w.link.down[0].streamed && !fate.GlobalThrows?
  }

  /** It is heard and skips nothing. */
  lemma InTurnStep(w: World, fate: Fate, s: string, l: Listener, p: Option<int>)
    requires BroadcastComes(w, fate, s, l, p) && Hears(w.client.interest, w.link.down[0].message, fate, s, l)
    requires p.Some? && SequenceOf(w.link.down[0].message).value <= p.value + 1
    ensures SessionOkAt(Next(w, DeliverOther(fate)), s, l, Raised(p, SequenceOf(w.link.down[0].message).value))
  {
    var e, n := Ear(s, l), SequenceOf(w.link.down[0].message).value;
    OthersLeaveLine(w, fate, s, l, p);
    StreamedKeepsCover(Heard(w.client.calls[w.since[e].index..], s, l), w.since[e].from, p,
                       Get(w.client.interest.lastSequence, s), n);
    LineHigher(Get(w.link.cursor, s), Streamed(w.link.down[1..], s), Unread(w), s, p.value, Raised(p, n).value);
    DeliveryKeeps(w, fate, s, l, p, Raised(p, n));
  }

  /** It comes ahead of what was heard. */
  lemma AheadStep(w: World, fate: Fate, s: string, l: Listener, p: Option<int>)
    requires BroadcastComes(w, fate, s, l, p) && Hears(w.client.interest, w.link.down[0].message, fate, s, l)
    requires p.Some? && SequenceOf(w.link.down[0].message).value > p.value + 1
    ensures SessionOkAt(Next(w, DeliverOther(fate)), s, l, p)
  {
    var e, n := Ear(s, l), SequenceOf(w.link.down[0].message).value;
    OthersLeaveLine(w, fate, s, l, p);
    BroadcastKeepsCover(Heard(w.client.calls[w.since[e].index..], s, l), w.since[e].from, p,
                        Get(w.client.interest.lastSequence, s), n);
    DeliveryKeeps(w, fate, s, l, p, p);
  }

  /** It is missed. */
  lemma MissedStep(w: World, fate: Fate, s: string, l: Listener, p: Option<int>)
    requires BroadcastComes(w, fate, s, l, p) && !Hears(w.client.interest, w.link.down[0].message, fate, s, l)
    ensures SessionOkAt(Next(w, DeliverOther(fate)), s, l, p)
  {
    var e, n := Ear(s, l), SequenceOf(w.link.down[0].message).value;
    var d := Heard(w.client.calls[w.since[e].index..], s, l);
    OthersLeaveLine(w, fate, s, l, p);
    BroadcastKeepsCover(d, w.since[e].from, p, Get(w.client.interest.lastSequence, s), n);
    NoNews(d, w.client.interest, w.link.down[0].message, fate, s, l);
    DeliveryKeeps(w, fate, s, l, p, p);
  }

  lemma BroadcastStep(w: World, fate: Fate, s: string, l: Listener, p: Option<int>) returns (q: Option<int>)
    requires Continuing(w, DeliverOther(fate), s, l, p) && Orderly(Next(w, DeliverOther(fate)), s, l)
    requires IsFor(w.link.down[0].message, s) && !w.link.down[0].streamed && !fate.GlobalThrows?
    ensures SessionOkAt(Next(w, DeliverOther(fate)), s, l, q)
  {
    var f, e := w.link.down[0], Ear(s, l);
    assert Next(w, DeliverOther(fate)).since[e] == AfterDelivery(w.client, f, fate, e, w.since[e]);
    assert Get(w.client.interest.lastSequence, s).Some?;
    q := p;
    if !Hears(w.client.interest, f.message, fate, s, l) {
      MissedStep(w, fate, s, l, p);
    } else if SequenceOf(f.message).value > p.value + 1 {
      AheadStep(w, fate, s, l, p);
    } else {
      q := Raised(p, SequenceOf(f.message).value);
      InTurnStep(w, fate, s, l, p);
    }
  }

  lemma MessageStep(w: World, fate: Fate, s: string, l: Listener, p: Option<int>) returns (q: Option<int>)
    requires Continuing(w, DeliverOther(fate), s, l, p) && Orderly(Next(w, DeliverOther(fate)), s, l)
    ensures SessionOkAt(Next(w, DeliverOther(fate)), s, l, q)
  {
    var f, e := w.link.down[0], Ear(s, l);
    assert Next(w, DeliverOther(fate)).since[e] == AfterDelivery(w.client, f, fate, e, w.since[e]);
    if IsFor(f.message, s) && f.streamed {
      StreamedStep(w, fate, s, l, p);
      q := Raised(p, SequenceOf(f.message).value);
    } else if IsFor(f.message, s) && !fate.GlobalThrows? {
      q := BroadcastStep(w, fate, s, l, p);
    } else {
      OtherMessageStep(w, fate, s, l, p);
      q := p;
    }
  }

  lemma ReadStep(w: World, start: nat, s: string, l: Listener, p: Option<int>)
    requires Continuing(w, ServerReads(start), s, l, p)
    ensures SessionOkAt(Next(w, ServerReads(start)), s, l, p)
  {
    var sent := w.client.line.ws.value.sent;
    var r := Next(w, ServerReads(start));
    assert sent[w.link.read..] == [sent[w.link.read]] + sent[w.link.read + 1..];
    if IsOpen(w.client.line) {
      ReadKeepsLine(w.link.cursor, Streamed(w.link.down, s), sent[w.link.read], sent[w.link.read + 1..], start, s, p);
    }
  }

  /** What a step of the server leaves, seen from a session whose stream it does not move. */
  lemma OtherFrame(w: World, a: Action, s: string)
    requires Enabled(w, a) && (a.ServerStreams? || a.ServerSays?)
    requires a.ServerStreams? ==> TargetSession(a.message) != Some(s)
    ensures var r := Next(w, a);
      && r.client == w.client && r.since == w.since && r.link.read == w.link.read
      && Get(r.link.cursor, s) == Get(w.link.cursor, s) && Streamed(r.link.down, s) == Streamed(w.link.down, s)
  {
    var f := Frame(a.message, a.ServerStreams?);
    StreamedAppend(w.link.down, f, s);
    assert Next(w, a).link.down == w.link.down + [f];
    assert Streamed(w.link.down, s) + [] == Streamed(w.link.down, s);
  }

  lemma OtherFrameStep(w: World, a: Action, s: string, l: Listener, p: Option<int>)
    requires Continuing(w, a, s, l, p) && (a.ServerStreams? || a.ServerSays?)
    requires a.ServerStreams? ==> TargetSession(a.message) != Some(s)
    ensures SessionOkAt(Next(w, a), s, l, p)
  {
    OtherFrame(w, a, s);
    SendAllAppends(w.client.line, [], []);
    StillOkSending(w, Next(w, a), s, l, p, []);
  }

  lemma StreamStep(w: World, m: ServerMessage, s: string, l: Listener, p: Option<int>)
    requires Continuing(w, ServerStreams(m), s, l, p) && TargetSession(m) == Some(s)
    ensures SessionOkAt(Next(w, ServerStreams(m)), s, l, p)
  {
    var k := w.link.cursor[s];
    StreamedAppend(w.link.down, Frame(m, true), s);
    if IsOpen(w.client.line) {
      StreamKeepsLine(k, Streamed(w.link.down, s), Unread(w), s, p);
    }
  }

  lemma OpenStep(w: World, s: string, l: Listener, p: Option<int>)
    requires Continuing(w, Opens, s, l, p)
    ensures SessionOkAt(Next(w, Opens), s, l, p)
  {
    var r := Next(w, Opens);
    NoneStreamed(w.link.down, s);
    assert Unread(r) == [Auth(w.client.line.ws.value.token)];
  }

  /** Connecting, closing and settled refreshes never leave an open socket changed. */
  lemma ConnectionStep(w: World, a: Action, s: string, l: Listener, p: Option<int>)
    requires Continuing(w, a, s, l, p)
    requires a.CallConnect? || a.CallDisconnect? || a.ReconnectTimer? || a.WelcomeTimer? || a.ConnectToken?
      || a.RetryToken? || a.Drops? || a.Closes? || a.OldSocketCloses? || a.WatchAll? || a.UnwatchAll?
    ensures SessionOkAt(Next(w, a), s, l, p)
  {
    ConnectionKeepsRest(w, a);
    StillOk(w, Next(w, a), s, l, p);
  }

  lemma ConnectionKeepsRest(w: World, a: Action)
    requires Enabled(w, a)
    requires a.CallConnect? || a.CallDisconnect? || a.ReconnectTimer? || a.WelcomeTimer? || a.ConnectToken?
      || a.RetryToken? || a.Drops? || a.Closes? || a.OldSocketCloses? || a.WatchAll? || a.UnwatchAll?
    ensures var r := Next(w, a);
      && r.since == w.since && r.client.calls == w.client.calls
      && r.client.interest.lastSequence == w.client.interest.lastSequence
      && (IsOpen(r.client.line) ==> IsOpen(w.client.line) && r.client.line.ws == w.client.line.ws && r.link == w.link)
  {
  }

  lemma ServerStep(w: World, a: Action, s: string, l: Listener, p: Option<int>)
    requires Continuing(w, a, s, l, p) && (a.ServerReads? || a.ServerStreams? || a.ServerSays?)
    ensures SessionOkAt(Next(w, a), s, l, p)
  {
    if a.ServerReads? {
      ReadStep(w, a.start, s, l, p);
    } else if a.ServerStreams? && TargetSession(a.message) == Some(s) {
      StreamStep(w, a.message, s, l, p);
    } else {
      OtherFrameStep(w, a, s, l, p);
    }
  }

  lemma DeliveryStep(w: World, a: Action, s: string, l: Listener, p: Option<int>) returns (q: Option<int>)
    requires Continuing(w, a, s, l, p) && Orderly(Next(w, a), s, l)
    requires a.DeliverWelcome? || a.DeliverOther?
    ensures SessionOkAt(Next(w, a), s, l, q)
  {
    if a.DeliverWelcome? {
      WelcomeStep(w, a.sessionOrder, a.deviceOrder, s, l, p);
      q := Get(w.client.interest.lastSequence, s);
    } else {
      q := MessageStep(w, a.fate, s, l, p);
    }
  }

  lemma PageStep(w: World, a: Action, s: string, l: Listener, p: Option<int>)
    requires Continuing(w, a, s, l, p) && Listens(Next(w, a).client.interest, s, l)
    requires a.Subscribe? || a.Unsubscribe? || a.WatchDevice? || a.UnwatchDevice?
    ensures SessionOkAt(Next(w, a), s, l, p)
  {
    match a {
      case Subscribe(t, k) => SubscribeStep(w, t, k, s, l, p);
      case Unsubscribe(t, k) => UnsubscribeStep(w, t, k, s, l, p);
      case WatchDevice(_, _) => DeviceStep(w, a, s, l, p);
      case UnwatchDevice(_, _) => DeviceStep(w, a, s, l, p);
    }
  }

  /** Every step that leaves the subscription orderly keeps its state. */
  lemma StepKeepsSession(w: World, a: Action, s: string, l: Listener, p: Option<int>) returns (q: Option<int>)
    requires Continuing(w, a, s, l, p)
    requires Listens(Next(w, a).client.interest, s, l) && Orderly(Next(w, a), s, l)
    ensures SessionOkAt(Next(w, a), s, l, q)
  {
    q := p;
    if a.DeliverWelcome? || a.DeliverOther? {
      q := DeliveryStep(w, a, s, l, p);
    } else if OfTheLink(a) {
      ServerStep(w, a, s, l, p);
    } else if a.Opens? {
      OpenStep(w, s, l, p);
    } else if a.Subscribe? || a.Unsubscribe? || a.WatchDevice? || a.UnwatchDevice? {
      PageStep(w, a, s, l, p);
    } else {
      ConnectionStep(w, a, s, l, p);
    }
  }

  // -------------------------------------------------- where subscriptions begin

  lemma NewLineOk(unread: seq<ClientMessage>, last: map<string, int>, s: string)
    requires NonNegative(last) && !Requested(unread, s)
    ensures LineOk(None, [], unread + [SubscribeMessage(last, s)], s, Get(last, s))
  {
    var m := SubscribeMessage(last, s);
    assert StaysJoined(unread, s);
    JoinedGrows(unread, [m], s);
    forall x | x in unread + [m] ensures Fits(x, s, None, Get(last, s)) {
      if x in unread {
        var i :| 0 <= i < |unread| && unread[i] == x;
        assert !Subscribes(unread[i], s);
      }
    }
  }

  lemma NewSubscriptionStep(w: World, s: string, l: Listener)
    requires Plumbing(w) && s !in w.client.interest.sessions && !Stale(w, s)
    ensures SessionOkAt(Next(w, Subscribe(s, l)), s, l, Get(w.client.interest.lastSequence, s))
  {
    var r := Next(w, Subscribe(s, l));
    var c, st := w.client, r.since[Ear(s, l)];
    assert r.client.calls[st.index..] == [];
    if IsOpen(c.line) {
      var m := SubscribeMessage(c.interest.lastSequence, s);
      var sent := c.line.ws.value.sent;
      assert (sent + [m])[w.link.read..] == Unread(w) + [m];
      assert Unread(r) == Unread(w) + [m];
      NewLineOk(Unread(w), c.interest.lastSequence, s);
    }
  }

  /** A further listener of an orderly subscription hears what comes from now on. */
  lemma JoiningStep(w: World, s: string, l: Listener, k: Listener, p: Option<int>)
    requires Plumbing(w) && Listens(w.client.interest, s, k) && !Listens(w.client.interest, s, l) && SessionOkAt(w, s, k, p)
    ensures SessionOkAt(Next(w, Subscribe(s, l)), s, l, Get(w.client.interest.lastSequence, s))
  {
    var r, h := Next(w, Subscribe(s, l)), Get(w.client.interest.lastSequence, s);
    assert r.client.calls[r.since[Ear(s, l)].index..] == [];
    if IsOpen(w.client.line) && h.Some? {
      LineHigher(Get(w.link.cursor, s), Streamed(w.link.down, s), Unread(w), s, p.value, h.value);
    }
  }

  lemma BeginningStep(w: World, s: string, l: Listener) returns (p: Option<int>)
    requires WorldOk(w) && !Listens(w.client.interest, s, l) && Begin(w, s).orderly
    ensures SessionOkAt(Next(w, Subscribe(s, l)), s, l, p)
  {
    p := Get(w.client.interest.lastSequence, s);
    if s in w.client.interest.sessions {
      var k :| k in w.client.interest.sessions[s] && Orderly(w, s, k);
      assert Listens(w.client.interest, s, k) && SessionOk(w, s, k);
      var q :| SessionOkAt(w, s, k, q);
      JoiningStep(w, s, l, k, q);
    } else {
      NewSubscriptionStep(w, s, l);
    }
  }

  /** A subscription that goes on is orderly only if it was before. */
  lemma StepOrderly(w: World, a: Action, s: string, l: Listener)
    requires Enabled(w, a) && Listens(w.client.interest, s, l) && Ear(s, l) in w.since && Orderly(Next(w, a), s, l)
    ensures Orderly(w, s, l)
  {
  }

  lemma StepKeepsOneOk(w: World, a: Action, s: string, l: Listener)
    requires WorldOk(w) && Enabled(w, a) && Listens(Next(w, a).client.interest, s, l) && Orderly(Next(w, a), s, l)
    ensures SessionOk(Next(w, a), s, l)
  {
    StepListens(w, a, s, l);
    if Listens(w.client.interest, s, l) {
      StepOrderly(w, a, s, l);
      var p :| SessionOkAt(w, s, l, p);
      var q := StepKeepsSession(w, a, s, l, p);
    } else {
      var q := BeginningStep(w, s, l);
    }
  }

  lemma StepKeepsWorldOk(w: World, a: Action)
    requires WorldOk(w) && Enabled(w, a)
    ensures WorldOk(Next(w, a))
  {
    StepKeepsNonNegative(w, a);
    StepKeepsLink(w, a);
    StepKeepsTracked(w, a);
    var r := Next(w, a);
    forall s, l | Listens(r.client.interest, s, l) && Orderly(r, s, l) ensures SessionOk(r, s, l) {
      StepKeepsOneOk(w, a, s, l);
    }
  }

  // ----------------------------------------------------------- main results

  lemma {:induction false} RunKeepsWorldOk(w: World, actions: seq<Action>)
    requires WorldOk(w) && Run(w, actions).Some?
    ensures WorldOk(Run(w, actions).value)
    decreases |actions|
  {
    if actions != [] {
      StepKeepsWorldOk(w, actions[0]);
      RunKeepsWorldOk(Next(w, actions[0]), actions[1..]);
    }
  }

  lemma ReachableIsOk(w: World)
    requires Reachable(w)
    ensures WorldOk(w)
  {
    var actions :| Run(Start0, actions) == Some(w);
    RunKeepsWorldOk(Start0, actions);
  }

  /** What `l` has heard of `s` since it subscribed. */
  ghost function History(w: World, s: string, l: Listener): seq<int>
    requires Ear(s, l) in w.since && w.since[Ear(s, l)].index <= |w.client.calls|
  {
    Heard(w.client.calls[w.since[Ear(s, l)].index..], s, l)
  }

  /**
   In every run a listener whose subscription is orderly, and to which no
   broadcast came ahead of the stream, has heard every sequence number from the
   first to the highest, whatever dropped in between.
   */
  lemma SubscribedSessionsHearNoGap(w: World, s: string, l: Listener)
    requires Reachable(w) && Listens(w.client.interest, s, l)
    ensures Ear(s, l) in w.since && w.since[Ear(s, l)].index <= |w.client.calls|
    ensures var st := w.since[Ear(s, l)]; st.orderly && !st.ahead ==> GapFree(History(w, s, l), st.from)
  {
    ReachableIsOk(w);
    var st := w.since[Ear(s, l)];
    if st.orderly && !st.ahead {
      assert SessionOk(w, s, l);
      var p :| SessionOkAt(w, s, l, p);
      CoveredIsGapFree(History(w, s, l), st.from, p);
    }
  }

  /** Everything up to the noted number was heard. */
  ghost predicate UpToDate(w: World, s: string, l: Listener) {
    && Listens(w.client.interest, s, l)
    && Ear(s, l) in w.since && w.since[Ear(s, l)].index <= |w.client.calls|
    && var h := Get(w.client.interest.lastSequence, s); Covered(History(w, s, l), w.since[Ear(s, l)].from, h, h)
  }

  /** Whatever the server does, a gap opens exactly with a number that is more than one ahead of the noted one. */
  lemma GapOpensIffAhead(w: World, fate: Fate, s: string, l: Listener)
    requires Enabled(w, DeliverOther(fate)) && NonNegative(w.client.interest.lastSequence) && UpToDate(w, s, l)
    requires Hears(w.client.interest, w.link.down[0].message, fate, s, l)
    ensures var r, st := Next(w, DeliverOther(fate)), w.since[Ear(s, l)];
      && st.index <= |r.client.calls|
      && (GapFree(Heard(r.client.calls[st.index..], s, l), st.from)
          <==> var h := Get(w.client.interest.lastSequence, s);
               h.Some? ==> SequenceOf(w.link.down[0].message).value <= h.value + 1)
  {
    var m, h, st := w.link.down[0].message, Get(w.client.interest.lastSequence, s), w.since[Ear(s, l)];
    DeliveredCalls(w.client, m, fate, s, l, st.index);
    HearingMore(History(w, s, l), st.from, h, SequenceOf(m).value);
  }

  lemma HearingMore(d: seq<int>, from: Option<int>, h: Option<int>, n: int)
    requires Covered(d, from, h, h)
    ensures GapFree(d + [n], from) <==> (h.Some? ==> n <= h.value + 1)
  {
    var more := d + [n];
    HighestIsReached(more);
    assert n in more;
    if h.Some? && n > h.value + 1 {
      assert h.value + 1 !in more;
      assert First(more, from) == First(d, from);
    } else {
      StreamedKeepsCover(d, from, h, h, n);
      CoveredIsGapFree(more, from, Raised(h, n));
    }
  }
}
