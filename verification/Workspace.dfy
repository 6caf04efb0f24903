/**
 The workspace store: coalesced refreshes that keep the last good data, and the
 dashboard's headline over it.

 `rounds` logs what the requests of every stored round answered. A round is
 stored in one step and its promise is cleared in a later one.
 */
module Workspace {
  import opened Basics

  datatype Device = Device(id: string, online: bool)
  datatype Session = Session(id: string, state: string)
  datatype Approval = Approval(id: string, status: string)
  datatype ProviderUsage = ProviderUsage(provider: string)

  datatype Section<T> = Section(data: seq<T>, error: Option<string>)

  /** A request's answer: a payload, possibly null, or an error with its message. */
  datatype Outcome<T> = Fulfilled(payload: Option<seq<T>>) | Failed(message: string)

  datatype Sections = Sections(
    devices: Section<Device>,
    sessions: Section<Session>,
    approvals: Section<Approval>,
    usage: Section<ProviderUsage>)

  datatype Round = Round(
    devices: Outcome<Device>,
    sessions: Outcome<Session>,
    approvals: Outcome<Approval>,
    usage: Outcome<ProviderUsage>)

  datatype Pending = Pending(
    devices: Option<Outcome<Device>>,
    sessions: Option<Outcome<Session>>,
    approvals: Option<Outcome<Approval>>,
    usage: Option<Outcome<ProviderUsage>>)

  datatype InFlight = Idle | Loading(pending: Pending) | Stored

  datatype State = State(
    shown: Sections,
    loaded: bool,
    refreshing: bool,
    lastRefreshedAt: Option<int>,
    inFlight: InFlight,
    started: nat,          // rounds of requests sent
    calls: seq<nat>,       // the round each call of refresh was given
    rounds: seq<Round>)

  const NothingShown := Sections(Section([], None), Section([], None), Section([], None), Section([], None))
  const NothingSettled := Pending(None, None, None, None)
  const Start := State(NothingShown, false, false, None, Idle, 0, [], [])

  // ---------------------------------------------------------- one section

  function Load<T>(answer: Outcome<T>): Section<T> {
    match answer
    case Fulfilled(Some(data)) => Section(data, None)
    case Fulfilled(None) => Section([], None)
    case Failed(message) => Section([], Some(message))
  }

  function Keep<T>(previous: Section<T>, next: Section<T>): Section<T> {
    if Truthy(next.error) then Section(previous.data, next.error) else next
  }

  function KeepQuietly<T>(previous: Section<T>, next: Section<T>): Section<T> {
    if Truthy(next.error) then Section(previous.data, None) else next
  }

  function Merge(previous: Sections, round: Round): Sections {
    Sections(
      Keep(previous.devices, Load(round.devices)),
      Keep(previous.sessions, Load(round.sessions)),
      Keep(previous.approvals, Load(round.approvals)),
      KeepQuietly(previous.usage, Load(round.usage)))
  }

  // -------------------------------------------------------------- refresh

  function Refresh(s: State): State {
    if s.inFlight.Idle? then
      s.(refreshing := true, inFlight := Loading(NothingSettled), started := s.started + 1, calls := s.calls + [s.started + 1])
    else s.(calls := s.calls + [s.started])
  }

  predicate AllSettled(p: Pending) {
    p.devices.Some? && p.sessions.Some? && p.approvals.Some? && p.usage.Some?
  }

  function Answers(p: Pending): Round
    requires AllSettled(p)
  {
    Round(p.devices.value, p.sessions.value, p.approvals.value, p.usage.value)
  }

  function Store(s: State, now: int): State
    requires s.inFlight.Loading? && AllSettled(s.inFlight.pending)
  {
    var round := Answers(s.inFlight.pending);
    s.(shown := Merge(s.shown, round), loaded := true, refreshing := false, lastRefreshedAt := Some(now),
       inFlight := Stored, rounds := s.rounds + [round])
  }

  // ----------------------------------------------------------------- runs

  datatype Action =
    | CallRefresh
    | DevicesSettle(fromDevices: Outcome<Device>)
    | SessionsSettle(fromSessions: Outcome<Session>)
    | ApprovalsSettle(fromApprovals: Outcome<Approval>)
    | UsageSettles(fromUsage: Outcome<ProviderUsage>)
    | StoreRound(now: int)
    | FinishRound

  predicate Enabled(s: State, a: Action) {
    match a
    case CallRefresh => true
    case DevicesSettle(_) => s.inFlight.Loading? && s.inFlight.pending.devices.None?
    case SessionsSettle(_) => s.inFlight.Loading? && s.inFlight.pending.sessions.None?
    case ApprovalsSettle(_) => s.inFlight.Loading? && s.inFlight.pending.approvals.None?
    case UsageSettles(_) => s.inFlight.Loading? && s.inFlight.pending.usage.None?
    case StoreRound(_) => s.inFlight.Loading? && AllSettled(s.inFlight.pending)
    case FinishRound => s.inFlight.Stored?
  }

  function Next(s: State, a: Action): State
    requires Enabled(s, a)
  {
    match a
    case CallRefresh => Refresh(s)
    case DevicesSettle(o) => s.(inFlight := Loading(s.inFlight.pending.(devices := Some(o))))
    case SessionsSettle(o) => s.(inFlight := Loading(s.inFlight.pending.(sessions := Some(o))))
    case ApprovalsSettle(o) => s.(inFlight := Loading(s.inFlight.pending.(approvals := Some(o))))
    case UsageSettles(o) => s.(inFlight := Loading(s.inFlight.pending.(usage := Some(o))))
    case StoreRound(now) => Store(s, now)
    case FinishRound => s.(inFlight := Idle)
  }

  predicate CanRun(s: State, run: seq<Action>)
    decreases |run|
  {
    run == [] || (Enabled(s, run[0]) && CanRun(Next(s, run[0]), run[1..]))
  }

  function After(s: State, run: seq<Action>): State
    requires CanRun(s, run)
    decreases |run|
  {
    if run == [] then s else After(Next(s, run[0]), run[1..])
  }

  // ----------------------------------------------------------- coalescing

  predicate Coalesced(s: State) {
    && s.started == |s.rounds| + (if s.inFlight.Loading? then 1 else 0)
    && (s.refreshing <==> s.inFlight.Loading?)
    && (s.loaded <==> s.rounds != [])
    && (s.lastRefreshedAt.Some? <==> s.loaded)
    && (s.inFlight.Stored? ==> s.loaded)
    && CallsInOrder(s.calls, s.started)
  }

  /** The calls were given the rounds 1, 2, ... `started` in order, each round at least once. */
  predicate CallsInOrder(calls: seq<nat>, started: nat) {
    if calls == [] then started == 0
    else
      && calls[|calls| - 1] == started
      && (CallsInOrder(calls[..|calls| - 1], started) || (started > 0 && CallsInOrder(calls[..|calls| - 1], started - 1)))
  }

  /** A call during a round sends no requests; at most one round is ever under way, and each was asked for by a call. */
  lemma {:induction false} RefreshesAreCoalesced(s: State, run: seq<Action>)
    requires Coalesced(s) && CanRun(s, run)
    ensures Coalesced(After(s, run))
    decreases |run|
  {
    if run != [] {
      if run[0].CallRefresh? {
        assert Next(s, run[0]).calls[..|s.calls|] == s.calls;
      }
      RefreshesAreCoalesced(Next(s, run[0]), run[1..]);
    }
  }

  lemma {:induction false} EveryRoundHasItsCall(calls: seq<nat>, started: nat, round: nat)
    requires CallsInOrder(calls, started) && 1 <= round <= started
    ensures round in calls
  {
    var front := calls[..|calls| - 1];
    if calls[|calls| - 1] != round {
      EveryRoundHasItsCall(front, if CallsInOrder(front, started) then started else started - 1, round);
      assert round in front;
    }
  }

  // ------------------------------------------------------- what is shown

  function Devices(rounds: seq<Round>): seq<Outcome<Device>> {
    seq(|rounds|, i requires 0 <= i < |rounds| => rounds[i].devices)
  }

  function Sessions(rounds: seq<Round>): seq<Outcome<Session>> {
    seq(|rounds|, i requires 0 <= i < |rounds| => rounds[i].sessions)
  }

  function Approvals(rounds: seq<Round>): seq<Outcome<Approval>> {
    seq(|rounds|, i requires 0 <= i < |rounds| => rounds[i].approvals)
  }

  function Usages(rounds: seq<Round>): seq<Outcome<ProviderUsage>> {
    seq(|rounds|, i requires 0 <= i < |rounds| => rounds[i].usage)
  }

  /** What the latest request that succeeded delivered; nothing before the first. */
  function LastGood<T>(answers: seq<Outcome<T>>): seq<T> {
    if answers == [] then []
    else
      var latest := answers[|answers| - 1];
      if latest.Fulfilled? then Load(latest).data else LastGood(answers[..|answers| - 1])
  }

  /** Since the latest success a request failed with an empty message. */
  predicate Blanked<T(==)>(answers: seq<Outcome<T>>) {
    answers != []
    && var latest := answers[|answers| - 1];
      latest.Failed? && (latest.message == "" || Blanked(answers[..|answers| - 1]))
  }

  function LatestError<T>(answers: seq<Outcome<T>>): Option<string> {
    if answers == [] || answers[|answers| - 1].Fulfilled? then None else Some(answers[|answers| - 1].message)
  }

  /** A section shows the last good data, unless an empty message blanked it, and the latest request's error. */
  predicate Shows<T(==)>(section: Section<T>, answers: seq<Outcome<T>>) {
    && section.data == (if Blanked(answers) then [] else LastGood(answers))
    && section.error == LatestError(answers)
  }

  lemma KeepShows<T>(section: Section<T>, answers: seq<Outcome<T>>, answer: Outcome<T>)
    requires Shows(section, answers)
    ensures Shows(Keep(section, Load(answer)), answers + [answer])
  {
    assert (answers + [answer])[..|answers|] == answers;
  }

  lemma KeepQuietlyShows<T>(section: Section<T>, answers: seq<Outcome<T>>, answer: Outcome<T>)
    requires section.data == if Blanked(answers) then [] else LastGood(answers)
    ensures var next := KeepQuietly(section, Load(answer)); var all := answers + [answer];
      && next.data == (if Blanked(all) then [] else LastGood(all))
      && (next.error.Some? <==> answer == Failed(""))
  {
    assert (answers + [answer])[..|answers|] == answers;
  }

  predicate AllShown(shown: Sections, rounds: seq<Round>) {
    && Shows(shown.devices, Devices(rounds))
    && Shows(shown.sessions, Sessions(rounds))
    && Shows(shown.approvals, Approvals(rounds))
    && UsageShown(shown.usage, Usages(rounds))
  }

  predicate UsageShown(section: Section<ProviderUsage>, answers: seq<Outcome<ProviderUsage>>) {
    && section.data == (if Blanked(answers) then [] else LastGood(answers))
    && (section.error.Some? <==> answers != [] && answers[|answers| - 1] == Failed(""))
  }

  lemma AnswersGrow(before: seq<Round>, round: Round)
    ensures Devices(before + [round]) == Devices(before) + [round.devices]
    ensures Sessions(before + [round]) == Sessions(before) + [round.sessions]
    ensures Approvals(before + [round]) == Approvals(before) + [round.approvals]
    ensures Usages(before + [round]) == Usages(before) + [round.usage]
  {
  }

  lemma MergeShows(shown: Sections, before: seq<Round>, round: Round)
    requires AllShown(shown, before)
    ensures AllShown(Merge(shown, round), before + [round])
  {
    AnswersGrow(before, round);
    KeepShows(shown.devices, Devices(before), round.devices);
    KeepShows(shown.sessions, Sessions(before), round.sessions);
    KeepShows(shown.approvals, Approvals(before), round.approvals);
    KeepQuietlyShows(shown.usage, Usages(before), round.usage);
  }

  /** After any calls, settlements and failures, every section shows the last good data and the latest error. */
  lemma {:induction false} StoreShowsLastGood(s: State, run: seq<Action>)
    requires AllShown(s.shown, s.rounds) && CanRun(s, run)
    ensures AllShown(After(s, run).shown, After(s, run).rounds)
    decreases |run|
  {
    if run != [] {
      if run[0].StoreRound? {
        MergeShows(s.shown, s.rounds, Answers(s.inFlight.pending));
      }
      StoreShowsLastGood(Next(s, run[0]), run[1..]);
    }
  }

  /** The last good data by position: the payload of the request after which all failed. */
  lemma {:induction false} LastGoodByPosition<T>(answers: seq<Outcome<T>>, i: nat)
    requires i < |answers| && answers[i].Fulfilled?
    requires forall j :: i < j < |answers| ==> answers[j].Failed?
    ensures LastGood(answers) == Load(answers[i]).data
    ensures Blanked(answers) <==> exists j :: i < j < |answers| && answers[j] == Failed("")
  {
    if i < |answers| - 1 {
      var front := answers[..|answers| - 1];
      LastGoodByPosition(front, i);
      if Blanked(front) {
        var j :| i < j < |front| && front[j] == Failed("");
        assert answers[j] == Failed("");
      }
      if answers[|answers| - 1] != Failed("") && !Blanked(front) {
        forall j | i < j < |answers| ensures answers[j] != Failed("") {
          assert j < |front| ==> front[j] == answers[j];
        }
      }
    }
  }

  /**
   A section shows the last good data in exactly the runs in which no request
   has failed with an empty message since, or there was nothing to lose.
   */
  lemma LastGoodIsShownIff(run: seq<Action>)
    requires CanRun(Start, run)
    ensures var s := After(Start, run); var answers := Devices(s.rounds);
      && (s.shown.devices.data == LastGood(answers) <==> !Blanked(answers) || LastGood(answers) == [])
      && (s.shown.devices.error.None? <==> answers == [] || answers[|answers| - 1].Fulfilled?)
    ensures var s := After(Start, run); var answers := Sessions(s.rounds);
      && (s.shown.sessions.data == LastGood(answers) <==> !Blanked(answers) || LastGood(answers) == [])
      && (s.shown.sessions.error.None? <==> answers == [] || answers[|answers| - 1].Fulfilled?)
    ensures var s := After(Start, run); var answers := Approvals(s.rounds);
      && (s.shown.approvals.data == LastGood(answers) <==> !Blanked(answers) || LastGood(answers) == [])
      && (s.shown.approvals.error.None? <==> answers == [] || answers[|answers| - 1].Fulfilled?)
  {
    StoreShowsLastGood(Start, run);
  }

  // ------------------------------------------------------------- headline

  function PendingApprovals(s: Sections): seq<Approval> {
    OnlyPending(s.approvals.data)
  }

  function OnlyPending(approvals: seq<Approval>): seq<Approval> {
    if approvals == [] then []
    else (if approvals[0].status == "pending" then [approvals[0]] else []) + OnlyPending(approvals[1..])
  }

  const LIVE_STATES := {"running", "waiting_for_approval", "initializing", "paused"}

  function LiveSessions(sessions: seq<Session>): seq<Session> {
    if sessions == [] then []
    else (if sessions[0].state in LIVE_STATES then [sessions[0]] else []) + LiveSessions(sessions[1..])
  }

  datatype Tone = Success | Warning | Danger | Muted

  datatype Headline =
    | CouldNotBeLoaded
    | PairAMachine
    | DecisionsWaiting(count: nat)
    | Offline
    | AgentsWorking(count: nat)
    | AllClear

  function ToneOf(h: Headline): Tone {
    match h
    case CouldNotBeLoaded => Danger
    case PairAMachine => Muted
    case DecisionsWaiting(_) => Warning
    case Offline => Danger
    case AgentsWorking(_) => Success
    case AllClear => Success
  }

  predicate SomeOnline(devices: seq<Device>) {
    exists i :: 0 <= i < |devices| && devices[i].online
  }

  function Summary(devicesError: Option<string>, devices: seq<Device>, approvals: seq<Approval>, live: seq<Session>): Headline {
    if Truthy(devicesError) && |devices| == 0 then CouldNotBeLoaded
    else if |devices| == 0 then PairAMachine
    else if |approvals| > 0 then DecisionsWaiting(|approvals|)
    else if !SomeOnline(devices) then Offline
    else if |live| > 0 then AgentsWorking(|live|)
    else AllClear
  }

  function Shown(s: State): Headline {
    Summary(s.shown.devices.error, s.shown.devices.data, PendingApprovals(s.shown), LiveSessions(s.shown.sessions.data))
  }

  predicate NonePending(approvals: seq<Approval>) {
    forall i :: 0 <= i < |approvals| ==> approvals[i].status != "pending"
  }

  lemma {:induction false} OnlyPendingEmpty(approvals: seq<Approval>)
    ensures OnlyPending(approvals) == [] <==> NonePending(approvals)
  {
    if approvals != [] {
      OnlyPendingEmpty(approvals[1..]);
      if NonePending(approvals[1..]) && approvals[0].status != "pending" {
        forall i | 0 <= i < |approvals| ensures approvals[i].status != "pending" {
          assert i > 0 ==> approvals[1..][i - 1] == approvals[i];
        }
      }
    }
  }

  /**
   After every history, the headline is a success exactly when the last good
   device list has an online machine that is still shown and either the last
   good approval list has none pending or that list has been blanked.
   */
  lemma SuccessHeadlineIff(run: seq<Action>)
    requires CanRun(Start, run)
    ensures var s := After(Start, run); var devices, approvals := Devices(s.rounds), Approvals(s.rounds);
      ToneOf(Shown(s)) == Success <==>
      && !Blanked(devices) && SomeOnline(LastGood(devices))
      && (Blanked(approvals) || NonePending(LastGood(approvals)))
  {
    var s := After(Start, run);
    StoreShowsLastGood(Start, run);
    SuccessIff(s);
    assert !SomeOnline([]) && NonePending([]);
  }

  lemma SuccessIff(s: State)
    ensures ToneOf(Shown(s)) == Success <==> SomeOnline(s.shown.devices.data) && NonePending(s.shown.approvals.data)
  {
    OnlyPendingEmpty(s.shown.approvals.data);
    SummarySuccessIff(s.shown.devices.error, s.shown.devices.data, PendingApprovals(s.shown), LiveSessions(s.shown.sessions.data));
  }

  lemma SummarySuccessIff(devicesError: Option<string>, devices: seq<Device>, approvals: seq<Approval>, live: seq<Session>)
    ensures ToneOf(Summary(devicesError, devices, approvals, live)) == Success <==> SomeOnline(devices) && approvals == []
  {
  }

  /** The prompt to pair a machine: never above a failed request whose error has a message. */
  lemma PairPromptIff(run: seq<Action>)
    requires CanRun(Start, run)
    ensures var s := After(Start, run); var devices := Devices(s.rounds);
      Shown(s) == PairAMachine <==>
      (Blanked(devices) || LastGood(devices) == []) && (LatestError(devices).None? || LatestError(devices) == Some(""))
  {
    StoreShowsLastGood(Start, run);
  }

  lemma Then(s: State, a: Action, rest: seq<Action>)
    requires Enabled(s, a) && CanRun(Next(s, a), rest)
    ensures CanRun(s, [a] + rest) && After(s, [a] + rest) == After(Next(s, a), rest)
  {
    assert ([a] + rest)[1..] == rest;
  }

  /** The four answers of a round, and its end. */
  function RoundActions(round: Round, now: int): seq<Action> {
    [DevicesSettle(round.devices)] + ([SessionsSettle(round.sessions)] + ([ApprovalsSettle(round.approvals)]
    + ([UsageSettles(round.usage)] + ([StoreRound(now)] + ([FinishRound] + [])))))
  }

  /** A whole round, from the call to its end. */
  lemma WholeRound(s: State, round: Round, now: int)
    requires s.inFlight.Idle?
    ensures CanRun(s, [CallRefresh] + RoundActions(round, now))
    ensures After(s, [CallRefresh] + RoundActions(round, now)).shown == Merge(s.shown, round)
  {
    var s1 := Next(s, CallRefresh);
    var s2 := Next(s1, DevicesSettle(round.devices));
    var s3 := Next(s2, SessionsSettle(round.sessions));
    var s4 := Next(s3, ApprovalsSettle(round.approvals));
    var s5 := Next(s4, UsageSettles(round.usage));
    var s6 := Next(s5, StoreRound(now));
    Then(s6, FinishRound, []);
    Then(s5, StoreRound(now), [FinishRound] + []);
    Then(s4, UsageSettles(round.usage), [StoreRound(now)] + ([FinishRound] + []));
    Then(s3, ApprovalsSettle(round.approvals), [UsageSettles(round.usage)] + ([StoreRound(now)] + ([FinishRound] + [])));
    Then(s2, SessionsSettle(round.sessions),
         [ApprovalsSettle(round.approvals)] + ([UsageSettles(round.usage)] + ([StoreRound(now)] + ([FinishRound] + []))));
    Then(s1, DevicesSettle(round.devices), RoundActions(round, now)[1..]);
    Then(s, CallRefresh, RoundActions(round, now));
  }

  /**
   The headline does not look at the approval request's error: a first round in
   which that request fails already claims that all is clear.
   */
  lemma AllClearWithoutApprovals(devices: seq<Device>, message: string, now: int)
    requires SomeOnline(devices)
    ensures var round := Round(Fulfilled(Some(devices)), Fulfilled(None), Failed(message), Fulfilled(None));
      var run := [CallRefresh] + RoundActions(round, now);
      CanRun(Start, run) && Shown(After(Start, run)) == AllClear && After(Start, run).shown.approvals.error == Some(message)
  {
    WholeRound(Start, Round(Fulfilled(Some(devices)), Fulfilled(None), Failed(message), Fulfilled(None)), now);
  }

  /** The badge of one session: whether it is marked live. */
  predicate MarkedLive(state: string) {
    state == "running" || state == "initializing" || state == "waiting_for_approval"
  }

  /** A paused session counts as a working agent in the headline, but its own badge says it is not live. */
  lemma CountedButNotMarked(state: string)
    ensures state in LIVE_STATES && !MarkedLive(state) <==> state == "paused"
    ensures MarkedLive(state) ==> state in LIVE_STATES
  {
  }
}
