/**
 The REST client's token refresh, shared by concurrent callers.

 JavaScript runs one piece of code at a time and gives way only at an `await`,
 so every function below is what happens between two awaits. `exchanges` holds
 the suspended (or settled) runs of the refresh body, `callers` the runs of
 `fetchWithAuth` and the plain calls of `requestRefreshToken`. What the server,
 the token source and the failure callback do is a parameter of each step.
 */
module TokenRefresh {
  import opened Basics

  /** How a promise of a token settles. */
  datatype Outcome = Resolves(token: Option<string>) | Rejects

  datatype Stage = AskingRefresher | AskingServer | ReadingBody | Settled(outcome: Outcome)

  datatype Exchange = Exchange(starter: nat, stage: Stage)

  datatype Waits = ForAnswer | ForToken | Nothing

  datatype Caller = Caller(
    endpoint: Option<string>,      // None: a plain call of requestRefreshToken
    sent: seq<Option<string>>,     // the Authorization header of each request
    statuses: seq<nat>,            // the answers
    joined: Option<nat>,           // the exchange it waits for
    got: Option<Outcome>,          // what that exchange gave it
    waits: Waits)

  datatype State = State(
    currentAccessToken: Option<string>,
    tokenRefresher: bool,
    refreshPromise: Option<nat>,
    exchanges: seq<Exchange>,
    callers: seq<Caller>,
    failures: nat)                 // calls of the failure callback

  const Start := State(None, false, None, [], [], 0)

  /** The failure callback: whether there is one, and whether a first and a second call of it throw. */
  datatype Callback = Callback(registered: bool, throwsFirst: bool, throwsSecond: bool)

  datatype RefresherReply = Gives(token: Option<string>) | Throws
  datatype ServerReply = Unreachable | NotOk | Ok
  datatype BodyReply = Unreadable | Body(accessToken: Option<string>)

  predicate IsAuthEndpoint(endpoint: string) {
    Contains(endpoint, "/api/v1/auth/")
  }

  predicate Contains(s: string, part: string)
    decreases |s|
  {
    |s| >= |part| && (s[..|part|] == part || (s != "" && Contains(s[1..], part)))
  }

  function Bearer(token: string): string {
    "Bearer " + token
  }

  // --------------------------------------------------------- the exchange

  function Settle(s: State, e: nat, outcome: Outcome): State
    requires e < |s.exchanges|
  {
    s.(refreshPromise := None, exchanges := s.exchanges[e := s.exchanges[e].(stage := Settled(outcome))])
  }

  function Failed(s: State, cb: Callback): State {
    s.(currentAccessToken := None, failures := s.failures + (if cb.registered then 1 else 0))
  }

  /** The catch clause, then the finally clause. */
  function Catch(s: State, e: nat, cb: Callback, throws: bool): State
    requires e < |s.exchanges|
  {
    Settle(Failed(s, cb), e, if cb.registered && throws then Rejects else Resolves(None))
  }

  function RefresherAnswers(s: State, e: nat, reply: RefresherReply, cb: Callback): State
    requires e < |s.exchanges|
  {
    match reply
    case Throws => Catch(s, e, cb, cb.throwsFirst)
    case Gives(token) =>
      if Truthy(token) || !cb.registered then Settle(s.(currentAccessToken := token), e, Resolves(token))
      else if cb.throwsFirst then Catch(Failed(s, cb), e, cb, cb.throwsSecond)
      else Settle(Failed(s, cb).(currentAccessToken := token), e, Resolves(token))
  }

  function ServerAnswers(s: State, e: nat, reply: ServerReply, cb: Callback): State
    requires e < |s.exchanges|
  {
    match reply
    case Unreachable => Catch(s, e, cb, cb.throwsFirst)
    case NotOk =>
      if cb.registered && cb.throwsFirst then Catch(Failed(s, cb), e, cb, cb.throwsSecond)
      else Settle(Failed(s, cb), e, Resolves(None))
    case Ok => s.(exchanges := s.exchanges[e := s.exchanges[e].(stage := ReadingBody)])
  }

  function BodyArrives(s: State, e: nat, reply: BodyReply, cb: Callback): State
    requires e < |s.exchanges|
  {
    match reply
    case Unreadable => Catch(s, e, cb, cb.throwsFirst)
    case Body(token) =>
      if Truthy(token) then Settle(s.(currentAccessToken := token), e, Resolves(token))
      else Settle(s, e, Resolves(None))
  }

  /** `requestRefreshToken`, called for caller `c`. A token source that throws before its first await throws at once. */
  function Ask(s: State, c: nat, throwsAtOnce: bool, cb: Callback): State
    requires c < |s.callers|
  {
    if s.refreshPromise.Some? then Join(s, c, s.refreshPromise.value)
    else
      var e := |s.exchanges|;
      var stage := if s.tokenRefresher then AskingRefresher else AskingServer;
      var begun := s.(exchanges := s.exchanges + [Exchange(c, stage)]);
      var ran := if s.tokenRefresher && throwsAtOnce then Catch(begun, e, cb, cb.throwsFirst) else begun;
      Join(ran.(refreshPromise := Some(e)), c, e)
  }

  function Join(s: State, c: nat, e: nat): State
    requires c < |s.callers|
  {
    s.(callers := s.callers[c := s.callers[c].(joined := Some(e), waits := ForToken)])
  }

  // ---------------------------------------------------------- the callers

  function CallRefresh(s: State, throwsAtOnce: bool, cb: Callback): State {
    Ask(s.(callers := s.callers + [Caller(None, [], [], None, None, ForToken)]), |s.callers|, throwsAtOnce, cb)
  }

  function FirstHeader(s: State, own: Option<string>): Option<string> {
    if Truthy(s.currentAccessToken) && own.None? then Some(Bearer(s.currentAccessToken.value)) else own
  }

  function FetchWithAuth(s: State, endpoint: string, own: Option<string>): State {
    s.(callers := s.callers + [Caller(Some(endpoint), [FirstHeader(s, own)], [], None, None, ForAnswer)])
  }

  function FetchFails(s: State, c: nat): State
    requires c < |s.callers|
  {
    s.(callers := s.callers[c := s.callers[c].(waits := Nothing)])
  }

  predicate Retries(caller: Caller, status: nat) {
    caller.statuses == [] && status == 401 && caller.endpoint.Some? && !IsAuthEndpoint(caller.endpoint.value)
  }

  function FetchAnswers(s: State, c: nat, status: nat, throwsAtOnce: bool, cb: Callback): State
    requires c < |s.callers|
  {
    var caller := s.callers[c];
    var answered := caller.(statuses := caller.statuses + [status], waits := Nothing);
    var t := s.(callers := s.callers[c := answered]);
    if Retries(caller, status) then Ask(t, c, throwsAtOnce, cb) else t
  }

  /** The awaited token arrives: the request is sent again if there is one. */
  function TokenReaches(s: State, c: nat, outcome: Outcome): State
    requires c < |s.callers|
  {
    var caller := s.callers[c].(got := Some(outcome), waits := Nothing);
    var next :=
      if caller.endpoint.Some? && outcome.Resolves? && Truthy(outcome.token)
      then caller.(sent := caller.sent + [Some(Bearer(outcome.token.value))], waits := ForAnswer)
      else caller;
    s.(callers := s.callers[c := next])
  }

  // ----------------------------------------------------------------- runs

  datatype Action =
    | SetAccessToken(token: Option<string>)
    | SetTokenRefresher(present: bool)
    | Refresh(throwsAtOnce: bool, cb: Callback)
    | Fetch(endpoint: string, own: Option<string>)
    | RefresherReplies(e: nat, fromRefresher: RefresherReply, cb: Callback)
    | ServerReplies(e: nat, fromServer: ServerReply, cb: Callback)
    | BodyReplies(e: nat, body: BodyReply, cb: Callback)
    | RequestFails(c: nat)
    | RequestAnswered(c: nat, status: nat, throwsAtOnce: bool, cb: Callback)
    | Delivered(c: nat)

  predicate At(s: State, e: nat, stage: Stage) {
    e < |s.exchanges| && s.exchanges[e].stage == stage
  }

  predicate Enabled(s: State, a: Action) {
    match a
    case RefresherReplies(e, _, _) => At(s, e, AskingRefresher)
    case ServerReplies(e, _, _) => At(s, e, AskingServer)
    case BodyReplies(e, _, _) => At(s, e, ReadingBody)
    case RequestFails(c) => c < |s.callers| && s.callers[c].waits == ForAnswer
    case RequestAnswered(c, _, _, _) => c < |s.callers| && s.callers[c].waits == ForAnswer
    case Delivered(c) => c < |s.callers| && s.callers[c].waits == ForToken && JoinedSettled(s, s.callers[c])
    case _ => true
  }

  predicate JoinedSettled(s: State, caller: Caller) {
    && caller.joined.Some? && caller.joined.value < |s.exchanges|
    && s.exchanges[caller.joined.value].stage.Settled?
  }

  function Next(s: State, a: Action): State
    requires Enabled(s, a)
  {
    match a
    case SetAccessToken(token) => s.(currentAccessToken := token)
    case SetTokenRefresher(present) => s.(tokenRefresher := present)
    case Refresh(throws, cb) => CallRefresh(s, throws, cb)
    case Fetch(endpoint, own) => FetchWithAuth(s, endpoint, own)
    case RefresherReplies(e, reply, cb) => RefresherAnswers(s, e, reply, cb)
    case ServerReplies(e, reply, cb) => ServerAnswers(s, e, reply, cb)
    case BodyReplies(e, reply, cb) => BodyArrives(s, e, reply, cb)
    case RequestFails(c) => FetchFails(s, c)
    case RequestAnswered(c, status, throws, cb) => FetchAnswers(s, c, status, throws, cb)
    case Delivered(c) => TokenReaches(s, c, s.exchanges[s.callers[c].joined.value].stage.outcome)
  }

  predicate CanRun(s: State, run: seq<Action>)
    decreases |run|
  {
    run == [] || (Enabled(s, run[0]) && CanRun(Next(s, run[0]), run[1..]))
  }

  function After(s: State, run: seq<Action>): State
    requires CanRun(s, run)
    decreases |run|
  {
    if run == [] then s else After(Next(s, run[0]), run[1..])
  }

  // ----------------------------------------------------------- invariants

  predicate InFlight(s: State, e: nat) {
    e < |s.exchanges| && !s.exchanges[e].stage.Settled?
  }

  ghost predicate ExchangesOk(s: State) {
    && (s.refreshPromise.Some? ==> s.refreshPromise.value < |s.exchanges|)
    && (forall e: nat :: InFlight(s, e) ==> s.refreshPromise == Some(e))
    && (forall e :: 0 <= e < |s.exchanges| ==> StartedBy(s, e, s.exchanges[e].starter))
  }

  predicate StartedBy(s: State, e: nat, c: nat) {
    c < |s.callers| && s.callers[c].joined == Some(e)
  }

  /** The token a caller was given by the exchange it joined. */
  predicate Given(s: State, caller: Caller) {
    JoinedSettled(s, caller) && caller.got == Some(s.exchanges[caller.joined.value].stage.outcome)
  }

  predicate GotToken(caller: Caller) {
    caller.got.Some? && caller.got.value.Resolves? && Truthy(caller.got.value.token)
  }

  predicate Refused(caller: Caller) {
    && caller.statuses != [] && caller.statuses[0] == 401
    && caller.endpoint.Some? && !IsAuthEndpoint(caller.endpoint.value)
  }

  predicate CallerOk(s: State, caller: Caller) {
    && (caller.joined.Some? ==> caller.joined.value < |s.exchanges|)
    && (caller.waits == ForToken <==> caller.joined.Some? && caller.got.None?)
    && (caller.got.Some? ==> Given(s, caller))
    && (caller.endpoint.None? ==> caller.sent == [] && caller.statuses == [] && caller.waits != ForAnswer)
    && (caller.endpoint.Some? ==> FetchOk(caller))
  }

  /** What one `fetchWithAuth` has done. */
  predicate FetchOk(caller: Caller) {
    && 1 <= |caller.sent| <= 2
    && |caller.statuses| <= |caller.sent|
    && (caller.waits == ForAnswer ==> |caller.sent| == |caller.statuses| + 1)
    && (caller.joined.Some? <==> Refused(caller))
    && (|caller.sent| == 2 <==> GotToken(caller))
    && (|caller.sent| == 2 ==> caller.sent[1] == Some(Bearer(caller.got.value.token.value)))
  }

  ghost predicate Ok(s: State) {
    ExchangesOk(s) && (forall c :: 0 <= c < |s.callers| ==> CallerOk(s, s.callers[c]))
  }

  // ---- every step keeps them

  /** Settling an exchange in flight, or moving it on, keeps what is known of every caller. */
  lemma StageChangeKeeps(s: State, t: State, e: nat)
    requires Ok(s) && InFlight(s, e) && t.callers == s.callers
    requires |t.exchanges| == |s.exchanges|
    requires forall d :: 0 <= d < |s.exchanges| && d != e ==> t.exchanges[d] == s.exchanges[d]
    requires t.exchanges[e].starter == s.exchanges[e].starter
    requires t.refreshPromise == if t.exchanges[e].stage.Settled? then None else s.refreshPromise
    ensures Ok(t)
  {
    forall d: nat | InFlight(t, d) ensures t.refreshPromise == Some(d) {
      assert InFlight(s, d);
    }
    forall d | 0 <= d < |t.exchanges| ensures StartedBy(t, d, t.exchanges[d].starter) {
      assert StartedBy(s, d, s.exchanges[d].starter);
    }
    forall c | 0 <= c < |t.callers| ensures CallerOk(t, t.callers[c]) {
      assert CallerOk(s, s.callers[c]);
    }
  }

  lemma AnswerKeeps(s: State, a: Action)
    requires Ok(s) && Enabled(s, a) && (a.RefresherReplies? || a.ServerReplies? || a.BodyReplies?)
    ensures Ok(Next(s, a))
  {
    assert InFlight(s, a.e);
    StageChangeKeeps(s, Next(s, a), a.e);
  }

  /** A caller that has joined nothing asks for a token. */
  lemma AskKeeps(s: State, c: nat, throwsAtOnce: bool, cb: Callback)
    requires c < |s.callers| && s.callers[c].joined.None? && s.callers[c].got.None?
    requires ExchangesOk(s)
    requires forall d :: 0 <= d < |s.callers| && d != c ==> CallerOk(s, s.callers[d])
    requires s.callers[c].endpoint.None? ==> s.callers[c].sent == [] && s.callers[c].statuses == []
    requires s.callers[c].endpoint.Some? ==> Refused(s.callers[c]) && |s.callers[c].sent| == |s.callers[c].statuses| == 1
    ensures Ok(Ask(s, c, throwsAtOnce, cb))
  {
    var t := Ask(s, c, throwsAtOnce, cb);
    forall e: nat | InFlight(t, e) ensures t.refreshPromise == Some(e) {
      if e < |s.exchanges| {
        assert InFlight(s, e);
      }
    }
    forall e | 0 <= e < |t.exchanges| ensures StartedBy(t, e, t.exchanges[e].starter) {
      if e < |s.exchanges| {
        assert StartedBy(s, e, s.exchanges[e].starter);
      }
    }
    forall d | 0 <= d < |t.callers| ensures CallerOk(t, t.callers[d]) {
    }
  }

  /** Changing one caller without a change of the exchanges. */
  lemma CallerChangeKeeps(s: State, t: State, c: nat)
    requires Ok(s) && c < |s.callers| == |t.callers| && t == s.(callers := s.callers[c := t.callers[c]])
    requires t.callers[c].joined == s.callers[c].joined
    requires CallerOk(t, t.callers[c])
    ensures Ok(t)
  {
    forall e: nat | InFlight(t, e) ensures t.refreshPromise == Some(e) {
      assert InFlight(s, e);
    }
    forall e | 0 <= e < |t.exchanges| ensures StartedBy(t, e, t.exchanges[e].starter) {
      assert StartedBy(s, e, s.exchanges[e].starter);
    }
    forall d | 0 <= d < |t.callers| ensures CallerOk(t, t.callers[d]) {
      assert d != c ==> CallerOk(s, s.callers[d]);
    }
  }

  /** A new caller that waits for nothing yet. */
  lemma NewCallerKeeps(s: State, caller: Caller)
    requires Ok(s) && caller.joined.None?
    ensures ExchangesOk(s.(callers := s.callers + [caller]))
    ensures forall d :: 0 <= d < |s.callers| ==> CallerOk(s.(callers := s.callers + [caller]), s.callers[d])
  {
    var t := s.(callers := s.callers + [caller]);
    forall e: nat | InFlight(t, e) ensures t.refreshPromise == Some(e) {
      assert InFlight(s, e);
    }
    forall e | 0 <= e < |t.exchanges| ensures StartedBy(t, e, t.exchanges[e].starter) {
      assert StartedBy(s, e, s.exchanges[e].starter);
    }
  }

  lemma CallKeeps(s: State, a: Action)
    requires Ok(s) && (a.Refresh? || a.Fetch?)
    ensures Ok(Next(s, a))
  {
    if a.Refresh? {
      var caller := Caller(None, [], [], None, None, ForToken);
      NewCallerKeeps(s, caller);
      AskKeeps(s.(callers := s.callers + [caller]), |s.callers|, a.throwsAtOnce, a.cb);
    } else {
      NewCallerKeeps(s, FetchWithAuth(s, a.endpoint, a.own).callers[|s.callers|]);
    }
  }

  lemma AnsweredKeeps(s: State, c: nat, status: nat, throwsAtOnce: bool, cb: Callback)
    requires Ok(s) && c < |s.callers| && s.callers[c].waits == ForAnswer
    ensures Ok(FetchAnswers(s, c, status, throwsAtOnce, cb))
  {
    var caller := s.callers[c];
    assert CallerOk(s, caller);
    var answered := caller.(statuses := caller.statuses + [status], waits := Nothing);
    var t := s.(callers := s.callers[c := answered]);
    if Retries(caller, status) {
      forall e | 0 <= e < |t.exchanges| ensures StartedBy(t, e, t.exchanges[e].starter) {
        assert StartedBy(s, e, s.exchanges[e].starter);
      }
      forall e: nat | InFlight(t, e) ensures t.refreshPromise == Some(e) {
        assert InFlight(s, e);
      }
      AskKeeps(t, c, throwsAtOnce, cb);
    } else {
      CallerChangeKeeps(s, t, c);
    }
  }

  lemma StepKeepsOk(s: State, a: Action)
    requires Ok(s) && Enabled(s, a)
    ensures Ok(Next(s, a))
  {
    match a
    case RequestAnswered(c, status, throws, cb) => AnsweredKeeps(s, c, status, throws, cb);
    case RequestFails(c) => CallerChangeKeeps(s, Next(s, a), c);
    case Delivered(c) => CallerChangeKeeps(s, Next(s, a), c);
    case Refresh(_, _) => CallKeeps(s, a);
    case Fetch(_, _) => CallKeeps(s, a);
    case SetAccessToken(_) => SameCallersKeep(s, Next(s, a));
    case SetTokenRefresher(_) => SameCallersKeep(s, Next(s, a));
    case _ => AnswerKeeps(s, a);
  }

  lemma SameCallersKeep(s: State, t: State)
    requires Ok(s) && t.callers == s.callers && t.exchanges == s.exchanges && t.refreshPromise == s.refreshPromise
    ensures Ok(t)
  {
    forall e: nat | InFlight(t, e) ensures t.refreshPromise == Some(e) {
      assert InFlight(s, e);
    }
    forall e | 0 <= e < |t.exchanges| ensures StartedBy(t, e, t.exchanges[e].starter) {
      assert StartedBy(s, e, s.exchanges[e].starter);
    }
    forall c | 0 <= c < |t.callers| ensures CallerOk(t, t.callers[c]) {
      assert CallerOk(s, s.callers[c]);
    }
  }

  lemma {:induction false} RunKeepsOk(s: State, run: seq<Action>)
    requires Ok(s) && CanRun(s, run)
    ensures Ok(After(s, run))
    decreases |run|
  {
    if run != [] {
      StepKeepsOk(s, run[0]);
      RunKeepsOk(Next(s, run[0]), run[1..]);
    }
  }

  // ------------------------------------------------------- main statements

  /** However the calls interleave, there is never more than one exchange under way. */
  lemma AtMostOneExchange(run: seq<Action>, d: nat, e: nat)
    requires CanRun(Start, run) && InFlight(After(Start, run), d) && InFlight(After(Start, run), e)
    ensures d == e && After(Start, run).refreshPromise == Some(e)
  {
    RunKeepsOk(Start, run);
  }

  /** Callers that joined one exchange are given one result, and none is left waiting for an exchange that cannot settle. */
  lemma JoinersAgree(run: seq<Action>, b: nat, c: nat)
    requires CanRun(Start, run)
    requires b < |After(Start, run).callers| && c < |After(Start, run).callers|
    ensures var s := After(Start, run); var x, y := s.callers[b], s.callers[c];
      && (x.got.Some? && y.got.Some? && x.joined == y.joined ==> x.got == y.got)
      && (x.waits == ForToken ==> Enabled(s, Delivered(b)) || (x.joined.Some? && x.joined == s.refreshPromise && InFlight(s, x.joined.value)))
  {
    RunKeepsOk(Start, run);
  }

  /** Each exchange was started for a caller of its own: there are never more exchanges than callers that needed a token. */
  lemma ExchangesHaveOwnStarters(run: seq<Action>, d: nat, e: nat)
    requires CanRun(Start, run) && d < |After(Start, run).exchanges| && e < |After(Start, run).exchanges| && d != e
    ensures var s := After(Start, run); s.exchanges[d].starter != s.exchanges[e].starter
  {
    RunKeepsOk(Start, run);
    var s := After(Start, run);
    assert StartedBy(s, d, s.exchanges[d].starter) && StartedBy(s, e, s.exchanges[e].starter);
  }

  /**
   A `fetchWithAuth` sends one request or two, and two exactly when the first
   was answered 401, the endpoint is not an auth endpoint and the exchange it
   then joined gave it a token, which the second request carries.
   */
  lemma RetriesOnceWithTheNewToken(run: seq<Action>, c: nat)
    requires CanRun(Start, run) && c < |After(Start, run).callers| && After(Start, run).callers[c].endpoint.Some?
    ensures var s := After(Start, run); var caller := s.callers[c];
      && 1 <= |caller.sent| <= 2
      && (caller.joined.Some? <==> Refused(caller))
      && (|caller.sent| == 2 <==> Refused(caller) && Given(s, caller) && GotToken(caller))
      && (|caller.sent| == 2 ==> caller.sent[1] == Some(Bearer(caller.got.value.token.value)))
  {
    RunKeepsOk(Start, run);
    assert CallerOk(After(Start, run), After(Start, run).callers[c]);
  }

  // ---- freeing the slot

  /** The slot holds a promise that has settled already. */
  predicate Stuck(s: State) {
    s.refreshPromise.Some? && s.refreshPromise.value < |s.exchanges| && !InFlight(s, s.refreshPromise.value)
  }

  /** The step starts an exchange whose token source throws before its first await. */
  predicate ThrowsAtOnce(s: State, a: Action)
    requires Enabled(s, a)
  {
    && s.refreshPromise.None? && s.tokenRefresher
    && ((a.Refresh? && a.throwsAtOnce) || (a.RequestAnswered? && a.throwsAtOnce && Retries(s.callers[a.c], a.status)))
  }

  predicate NoneThrowsAtOnce(s: State, run: seq<Action>)
    requires CanRun(s, run)
    decreases |run|
  {
    run == [] || (!ThrowsAtOnce(s, run[0]) && NoneThrowsAtOnce(Next(s, run[0]), run[1..]))
  }

  lemma StepSticks(s: State, a: Action)
    requires Ok(s) && Enabled(s, a)
    ensures Stuck(Next(s, a)) <==> Stuck(s) || ThrowsAtOnce(s, a)
    ensures Stuck(s) ==> Next(s, a).refreshPromise == s.refreshPromise && Next(s, a).exchanges == s.exchanges
  {
    if a.RefresherReplies? || a.ServerReplies? || a.BodyReplies? {
      assert InFlight(s, a.e);
    }
  }

  /**
   The slot is freed on settlement in every run in which no token source throws
   before its first await: the finally clause then runs before the assignment
   that fills the slot. An async function never does.
   */
  lemma {:induction false} SlotFreedIffNoneThrowsAtOnce(s: State, run: seq<Action>)
    requires Ok(s) && !Stuck(s) && CanRun(s, run)
    ensures !Stuck(After(s, run)) <==> NoneThrowsAtOnce(s, run)
    decreases |run|
  {
    if run != [] {
      StepKeepsOk(s, run[0]);
      StepSticks(s, run[0]);
      if Stuck(Next(s, run[0])) {
        StuckForGood(Next(s, run[0]), run[1..]);
      } else {
        SlotFreedIffNoneThrowsAtOnce(Next(s, run[0]), run[1..]);
      }
    }
  }

  /** Once stuck, no further exchange is ever started: every later caller is given the old result. */
  lemma {:induction false} StuckForGood(s: State, run: seq<Action>)
    requires Ok(s) && Stuck(s) && CanRun(s, run)
    ensures Stuck(After(s, run)) && After(s, run).exchanges == s.exchanges
    decreases |run|
  {
    if run != [] {
      StepKeepsOk(s, run[0]);
      StepSticks(s, run[0]);
      StuckForGood(Next(s, run[0]), run[1..]);
    }
  }

  /**
   What settling does to the session: a token is stored; without one the stored
   token goes and the failure callback is called, except that an answer without
   a token leaves both alone.
   */
  lemma SettlingDecidesTheSession(s: State, a: Action)
    requires Enabled(s, a) && (a.RefresherReplies? || a.ServerReplies? || a.BodyReplies?)
    requires Next(s, a).exchanges[a.e].stage.Settled?
    ensures var t := Next(s, a); var outcome := t.exchanges[a.e].stage.outcome;
      if outcome.Resolves? && Truthy(outcome.token) then
        t.currentAccessToken == outcome.token && t.failures == s.failures
      else if a.BodyReplies? && a.body.Body? then
        t.currentAccessToken == s.currentAccessToken && t.failures == s.failures
      else
        !Truthy(t.currentAccessToken) && (t.failures > s.failures <==> a.cb.registered)
  {
  }
}
