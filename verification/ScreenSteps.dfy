/**
 The gateway screen as functions on values: one per log record, prompt or tick.

 A line is what a call of `print` receives, named by its meaning. `log` keeps
 every printed line in order, with whether it was held for a prompt, and
 `output` what reached the terminal. Texts classified by regular expressions
 arrive classified; the clock is a parameter and positive.
 */
module ScreenSteps {
  import opened Basics
  import WordWrap

  type Time = t: int | t > 0 witness 1

  datatype Phase = Starting | Connecting | Online | Reconnecting | Local | Stopping | Stopped

  datatype Problem = Problem(title: string, hint: string)

  datatype Agent = Agent(adapter: string, installed: bool, health: string)

  datatype Line =
    | Connected(after: int)
    | BackOnline(at: Time, offlineFor: int)
    | LostConnection(at: Time)
    | ProblemTitle(title: string)
    | DashboardOpened(browsers: nat)
    | DashboardClosed
    | AgentsFound(count: nat)
    | AgentLine(agent: Agent)
    | ChecksPassed(count: nat)
    | NoteLine(text: string)
    | Stopping(letting: int)
    | Said(text: string)

  /** A printed line, and whether it was held back; a held line skips the rewriting of command names. */
  datatype Entry = Entry(line: Line, held: bool)

  /** What is written, and whether the status line was still standing on that row. */
  datatype Output = Printed(entry: Entry, overStatus: bool) | Direct(text: string, overStatus: bool)

  datatype Terminal = Terminal(
    suspended: bool,
    held: seq<Line>,
    ticking: bool,
    statusShown: bool,
    output: seq<Output>,
    log: seq<Entry>)

  datatype Link = Link(
    phase: Phase,
    phaseSince: Time,
    onlineSince: int,
    outageSince: int,          // 0: no outage
    attempt: nat,
    retryAt: int,
    everOnline: bool,
    announced: set<string>,
    lastProblem: Option<string>)

  /** A preflight note as it is to be shown, or nothing if its rewriting throws: its check is no valid pattern. */
  type Note = Option<string>

  datatype Facts = Facts(agents: seq<Agent>, notes: seq<Note>, failures: seq<string>)

  datatype State = State(link: Link, webClients: nat, fatalShown: bool, facts: Facts, term: Terminal)

  function Initial(now: Time): State {
    State(Link(Starting, now, 0, 0, 0, 0, false, {}, None), 0, false, Facts([], [], []), Terminal(false, [], false, false, [], []))
  }

  datatype Record =
    | GatewayIdentity
    | GatewayAgent(agent: Agent)
    | StateChange(to: string, noControlPlane: bool)
    | PreflightWarn(note: Note)
    | PreflightFail(failure: string)
    | TunnelReconnect(attempt: nat, inMs: nat)
    | Problematic(problem: Problem)
    | Fatal(title: string)
    | WebClients(connected: bool, clients: int)
    | Signal(aborting: bool, activeSessions: int)
    | Notice(text: string)
    | Ignored

  // -------------------------------------------------------------- terminal

  function ClearStatus(t: Terminal): Terminal {
    t.(statusShown := false)
  }

  function Draw(t: Terminal): Terminal {
    if !t.ticking || t.suspended then t else t.(statusShown := true)
  }

  function Print(t: Terminal, line: Line): Terminal {
    if t.suspended then t.(held := t.held + [line], log := t.log + [Entry(line, true)])
    else
      var u := ClearStatus(t);
      Draw(u.(output := u.output + [Printed(Entry(line, false), u.statusShown)], log := u.log + [Entry(line, false)]))
  }

  function PrintAll(t: Terminal, lines: seq<Line>): Terminal
    decreases |lines|
  {
    if lines == [] then t else PrintAll(Print(t, lines[0]), lines[1..])
  }

  /** A line written without `print`. */
  function Write(t: Terminal, text: string): Terminal {
    t.(output := t.output + [Direct(text, t.statusShown)])
  }

  function WriteAll(t: Terminal, texts: seq<string>): Terminal
    decreases |texts|
  {
    if texts == [] then t else WriteAll(Write(t, texts[0]), texts[1..])
  }

  function StartTicker(t: Terminal): Terminal {
    t.(ticking := true)
  }

  function StopTicker(t: Terminal): Terminal {
    ClearStatus(t.(ticking := false))
  }

  function Suspend(t: Terminal): Terminal {
    ClearStatus(t).(suspended := true)
  }

  function Released(held: seq<Line>, overStatus: bool): seq<Output> {
    seq(|held|, i requires 0 <= i < |held| => Printed(Entry(held[i], true), overStatus))
  }

  function Resume(t: Terminal): Terminal {
    Draw(t.(suspended := false, held := [], output := t.output + Released(t.held, t.statusShown)))
  }

  // ---------------------------------------------------------------- screen

  function Say(s: State, line: Line): State {
    s.(term := Print(s.term, line))
  }

  function PhaseSet(l: Link, phase: Phase, now: Time): Link {
    if l.phase == phase then l else l.(phase := phase, phaseSince := now)
  }

  function PhaseDrawn(t: Terminal, before: Phase, phase: Phase): Terminal {
    if before == phase then t else Draw(if phase == Stopped then StopTicker(t) else t)
  }

  function SetPhase(s: State, phase: Phase, now: Time): State {
    s.(link := PhaseSet(s.link, phase, now), term := PhaseDrawn(s.term, s.link.phase, phase))
  }

  function OnlineLine(l: Link, now: Time): Line {
    if !l.everOnline then Connected(now - l.phaseSince)
    else BackOnline(now, now - (if l.outageSince != 0 then l.outageSince else now))
  }

  function OnlineAdvice(l: Link): seq<Line> {
    if !l.everOnline then [Said(""), Said("Leave this window open. Closing it takes this PC offline."), Said("")] else []
  }

  function OnlineLines(l: Link, now: Time): seq<Line> {
    [OnlineLine(l, now)] + OnlineAdvice(l)
  }

  function OutageOver(l: Link, now: Time): Link {
    l.(everOnline := true, onlineSince := now, outageSince := 0, attempt := 0, retryAt := 0, announced := {}, lastProblem := None)
  }

  function Announced(s: State, now: Time): State {
    s.(link := OutageOver(s.link, now), term := PrintAll(s.term, OnlineLines(s.link, now)))
  }

  function OnOnline(s: State, now: Time): State {
    SetPhase(Announced(s, now), Online, now)
  }

  function Lose(s: State, now: Time): State {
    if s.link.phase == Online then s.(link := s.link.(outageSince := now), term := Print(s.term, LostConnection(now))) else s
  }

  function OnLost(s: State, now: Time): State {
    if s.link.phase == Phase.Stopping || s.link.phase == Stopped || !s.link.everOnline then s
    else SetPhase(Lose(s, now), Reconnecting, now)
  }

  function OnWebClients(s: State, connected: bool, clients: int): State {
    var t := s.(webClients := if connected then Max(clients, 1) else 0);
    if connected && s.webClients == 0 then Say(t, DashboardOpened(t.webClients))
    else if !connected && s.webClients > 0 then Say(t, DashboardClosed)
    else t
  }

  function WrappedLines(text: string, indent: nat, columns: int): seq<string> {
    WordWrap.Indented(WordWrap.Wrapped("", WordWrap.Split(text), WordWrap.WrapWidth(columns, indent)), indent)
  }

  function AllSaid(texts: seq<string>): seq<Line> {
    seq(|texts|, i requires 0 <= i < |texts| => Said(texts[i]))
  }

  function OnProblem(s: State, problem: Problem, columns: int): State {
    if s.link.phase == Phase.Stopping || s.link.phase == Stopped then s
    else
      s.(link := ProblemNoted(s.link, problem),
         term := ProblemPrinted(s.term, problem.title in s.link.announced, problem, columns))
  }

  function ProblemPrinted(t: Terminal, known: bool, problem: Problem, columns: int): Terminal {
    if known then t else PrintAll(t, ProblemLines(problem, columns))
  }

  function ProblemNoted(l: Link, problem: Problem): Link {
    var t := l.(lastProblem := Some(problem.title));
    if problem.title in l.announced then t else t.(announced := l.announced + {problem.title})
  }

  function ProblemLines(problem: Problem, columns: int): seq<Line> {
    [ProblemTitle(problem.title)] + AllSaid(WrappedLines(problem.hint, 5, columns))
  }

  function ShowIdentity(s: State, now: Time): State {
    var t := SetPhase(s.(term := WriteAll(s.term, ["THIS PC", "", "Starting up", "Device identity loaded"])), Starting, now);
    t.(term := StartTicker(t.term))
  }

  function Ranked(agents: seq<Agent>, rank: nat): seq<Agent> {
    if agents == [] then []
    else (if agents[0].adapter != "mock" && Rank(agents[0]) == rank then [agents[0]] else []) + Ranked(agents[1..], rank)
  }

  function Rank(agent: Agent): nat {
    if !agent.installed then 2 else if agent.health == "healthy" then 0 else 1
  }

  function Ready(agents: seq<Agent>): nat {
    if agents == [] then 0
    else
      var agent := agents[0];
      (if agent.adapter != "mock" && agent.installed && agent.health != "unhealthy" then 1 else 0) + Ready(agents[1..])
  }

  function AgentLines(agents: seq<Agent>): seq<Line> {
    seq(|agents|, i requires 0 <= i < |agents| => AgentLine(agents[i]))
  }

  function FoundLines(agents: seq<Agent>): seq<Line> {
    var ready := Ready(agents);
    var ranked := Ranked(agents, 0) + Ranked(agents, 1) + Ranked(agents, 2);
    [if ready > 0 then AgentsFound(ready) else Said("No coding agents found")] + AgentLines(ranked)
  }

  function ShowAgents(s: State): State {
    s.(term := PrintAll(s.term, FoundLines(s.facts.agents)))
  }

  /** The lines of a note; none if there is no text to wrap, or nothing left by wrapping it. */
  function NoteText(note: Note, columns: int): (lines: seq<string>)
    ensures forall i :: 0 <= i < |lines| ==> |lines[i]| >= 8
  {
    if note.None? then [] else WrappedLines(note.value, 8, columns)
  }

  /** A note whose rewriting throws, or that leaves no first line, ends the listing by its exception. */
  function PrintNotes(t: Terminal, notes: seq<Note>, columns: int): Terminal
    decreases |notes|
  {
    if notes == [] then t
    else
      var lines := NoteText(notes[0], columns);
      if lines == [] then t
      else PrintNotes(PrintAll(t, NoteLines(lines)), notes[1..], columns)
  }

  /** The first line stands beside a mark, without its indentation. */
  function NoteLines(lines: seq<string>): seq<Line>
    requires lines != [] && |lines[0]| >= 8
  {
    [NoteLine(lines[0][8..])] + AllSaid(lines[1..])
  }

  function ShowChecks(s: State, columns: int): State {
    s.(term := PrintNotes(Print(s.term, ChecksPassed(|s.facts.notes|)), s.facts.notes, columns))
  }

  function ShowFatal(s: State, title: string, now: Time): State {
    var t := SetPhase(s.(fatalShown := true), Stopped, now);
    t.(term := WriteAll(StopTicker(t.term), ["", title]))
  }

  function OnDegraded(s: State, noControlPlane: bool, now: Time): State {
    if noControlPlane then SetPhase(Say(s, Said("Local only")), Local, now) else OnLost(s, now)
  }

  function OnStateChange(s: State, to: string, noControlPlane: bool, now: Time, columns: int): State {
    if to == "preflight" then ShowAgents(s)
    else if to == "local_ready" then ShowChecks(s, columns)
    else OnLinkChange(s, to, noControlPlane, now)
  }

  function OnLinkChange(s: State, to: string, noControlPlane: bool, now: Time): State {
    if to == "online" then OnOnline(s, now)
    else if to == "degraded" then OnDegraded(s, noControlPlane, now)
    else OnPlainPhase(s, to, now)
  }

  function OnPlainPhase(s: State, to: string, now: Time): State {
    if to == "connecting" then SetPhase(s, Connecting, now)
    else if to == "draining" || to == "aborting" then SetPhase(s, Phase.Stopping, now)
    else if to == "stopped" then SetPhase(s, Stopped, now)
    else s
  }

  function OnSignal(s: State, aborting: bool, activeSessions: int, now: Time): State {
    SetPhase(
      if aborting then Say(s, Said("Forcing stop"))
      else if s.link.phase != Phase.Stopping then Say(s, Line.Stopping(activeSessions))
      else s,
      Phase.Stopping, now)
  }

  function Handle(s: State, record: Record, now: Time, columns: int): State {
    match record
    case GatewayIdentity => ShowIdentity(s, now)
    case StateChange(to, noControlPlane) => OnStateChange(s, to, noControlPlane, now, columns)
    case Problematic(problem) => OnProblem(s, problem, columns)
    case _ => Other(s, record, now)
  }

  function Other(s: State, record: Record, now: Time): State {
    match record
    case Fatal(title) => ShowFatal(s, title, now)
    case WebClients(connected, clients) => OnWebClients(s, connected, clients)
    case Signal(aborting, active) => OnSignal(s, aborting, active, now)
    case Notice(text) => Say(s, Said(text))
    case _ => Collect(s, record, now)
  }

  /** The records that are only remembered. */
  function Collect(s: State, record: Record, now: Time): State {
    match record
    case GatewayAgent(agent) => s.(facts := s.facts.(agents := s.facts.agents + [agent]))
    case PreflightWarn(note) => s.(facts := s.facts.(notes := s.facts.notes + [note]))
    case PreflightFail(failure) => s.(facts := s.facts.(failures := s.facts.failures + [failure]))
    case TunnelReconnect(attempt, inMs) => s.(link := s.link.(attempt := attempt, retryAt := now + inMs))
    case _ => s
  }
}
