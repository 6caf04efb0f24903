/** The gateway screen on mutable fields: each method computes the function of the same step. */
module GatewayScreen {
  import opened Basics
  import opened ScreenSteps
  import WordWrap

  class Screen {
    var phase: Phase
    var phaseSince: Time
    var onlineSince: int
    var outageSince: int
    var attempt: nat
    var retryAt: int
    var webClients: nat
    var everOnline: bool
    var announced: set<string>
    var lastProblem: Option<string>
    var fatalShown: bool
    var agents: seq<Agent>
    var notes: seq<Note>
    var failures: seq<string>
    var suspended: bool
    var held: seq<Line>
    var timer: bool
    var statusShown: bool
    // What was written, and the lines printed so far.
    var output: seq<Output>
    var log: seq<Entry>

    ghost function Term(): Terminal
      reads this`suspended, this`held, this`timer, this`statusShown, this`output, this`log
    {
      Terminal(suspended, held, timer, statusShown, output, log)
    }

    ghost function NowLink(): Link
      reads this`phase, this`phaseSince, this`onlineSince, this`outageSince, this`attempt, this`retryAt,
            this`everOnline, this`announced, this`lastProblem
    {
      Link(phase, phaseSince, onlineSince, outageSince, attempt, retryAt, everOnline, announced, lastProblem)
    }

    ghost function Now(): State
      reads this
    {
      State(NowLink(), webClients, fatalShown, Facts(agents, notes, failures), Term())
    }

    constructor (now: Time)
      ensures Now() == Initial(now)
    {
      phase, phaseSince, onlineSince, outageSince, attempt, retryAt := Starting, now, 0, 0, 0, 0;
      webClients, everOnline, announced, lastProblem, fatalShown := 0, false, {}, None, false;
      agents, notes, failures := [], [], [];
      suspended, held, timer, statusShown, output, log := false, [], false, false, [], [];
    }

    // ------------------------------------------------------------ terminal

    method ClearStatus()
      modifies this`statusShown
      ensures Term() == ScreenSteps.ClearStatus(old(Term()))
    {
      statusShown := false;
    }

    method Draw()
      modifies this`statusShown
      ensures Term() == ScreenSteps.Draw(old(Term()))
    {
      if !timer || suspended { return; }
      statusShown := true;
    }

    method Print(line: Line)
      modifies this`held, this`output, this`log, this`statusShown
      ensures Term() == ScreenSteps.Print(old(Term()), line)
    {
      log := log + [Entry(line, suspended)];
      if suspended {
        held := held + [line];
        return;
      }
      ClearStatus();
      output := output + [Printed(Entry(line, false), statusShown)];
      Draw();
    }

    method PrintEach(lines: seq<Line>)
      modifies this`held, this`output, this`log, this`statusShown
      ensures Term() == PrintAll(old(Term()), lines)
    {
      for i := 0 to |lines|
        invariant suspended == old(suspended) && timer == old(timer)
        invariant PrintAll(Term(), lines[i..]) == PrintAll(old(Term()), lines)
      {
        assert lines[i..][0] == lines[i] && lines[i..][1..] == lines[i + 1..];
        Print(lines[i]);
      }
    }

    method Write(text: string)
      modifies this`output
      ensures Term() == ScreenSteps.Write(old(Term()), text)
    {
      output := output + [Direct(text, statusShown)];
    }

    method WriteEach(texts: seq<string>)
      modifies this`output
      ensures Term() == WriteAll(old(Term()), texts)
    {
      for i := 0 to |texts|
        invariant WriteAll(Term(), texts[i..]) == WriteAll(old(Term()), texts)
      {
        assert texts[i..][0] == texts[i] && texts[i..][1..] == texts[i + 1..];
        Write(texts[i]);
      }
    }

    method StartTicker()
      modifies this`timer
      ensures Term() == ScreenSteps.StartTicker(old(Term()))
    {
      timer := true;
    }

    method StopTicker()
      modifies this`timer, this`statusShown
      ensures Term() == ScreenSteps.StopTicker(old(Term()))
    {
      timer := false;
      ClearStatus();
    }

    method Suspend()
      modifies this`statusShown, this`suspended
      ensures Term() == ScreenSteps.Suspend(old(Term()))
    {
      ClearStatus();
      suspended := true;
    }

    method Resume()
      modifies this`statusShown, this`suspended, this`held, this`output
      ensures Term() == ScreenSteps.Resume(old(Term()))
    {
      suspended := false;
      var lines := held;
      held := [];
      for i := 0 to |lines|
        invariant held == [] && !suspended && statusShown == old(statusShown)
        invariant output == old(output) + Released(lines[..i], old(statusShown))
      {
        ghost var before := Released(lines[..i], old(statusShown));
        assert Released(lines[..i + 1], old(statusShown)) == before + [Printed(Entry(lines[i], true), old(statusShown))];
        output := output + [Printed(Entry(lines[i], true), statusShown)];
      }
      assert lines[..|lines|] == lines;
      Draw();
    }

    // -------------------------------------------------------------- screen

    method SetPhase(to: Phase, now: Time)
      modifies this`phase, this`phaseSince, this`timer, this`statusShown
      ensures NowLink() == PhaseSet(old(NowLink()), to, now) && Term() == PhaseDrawn(old(Term()), old(phase), to)
    {
      if phase == to { return; }
      phase, phaseSince := to, now;
      if to == Stopped { StopTicker(); }
      Draw();
    }

    method PrintOnline(now: Time)
      modifies this`held, this`output, this`log, this`statusShown
      ensures Term() == PrintAll(old(Term()), OnlineLines(old(NowLink()), now))
    {
      var first, advice := BackOnline(now, now - (if outageSince != 0 then outageSince else now)), [];
      if !everOnline {
        first := Connected(now - phaseSince);
        advice := [Said(""), Said("Leave this window open. Closing it takes this PC offline."), Said("")];
      }
      PrintEach([first] + advice);
    }

    method OnOnline(now: Time)
      modifies this`phase, this`phaseSince, this`onlineSince, this`outageSince, this`attempt, this`retryAt,
               this`everOnline, this`announced, this`lastProblem, this`held, this`output, this`log, this`statusShown, this`timer
      ensures NowLink() == PhaseSet(OutageOver(old(NowLink()), now), Online, now)
      ensures Term() == PhaseDrawn(PrintAll(old(Term()), OnlineLines(old(NowLink()), now)), old(phase), Online)
    {
      PrintOnline(now);
      everOnline, onlineSince, outageSince, attempt, retryAt := true, now, 0, 0, 0;
      announced, lastProblem := {}, None;
      assert NowLink() == OutageOver(old(NowLink()), now);
      SetPhase(Online, now);
    }

    method Lose(now: Time)
      modifies this`outageSince, this`held, this`output, this`log, this`statusShown
      ensures Now() == ScreenSteps.Lose(old(Now()), now)
    {
      if phase == Online {
        outageSince := now;
        Print(LostConnection(now));
      }
    }

    method OnLost(now: Time)
      modifies this`phase, this`phaseSince, this`outageSince, this`held, this`output, this`log, this`statusShown, this`timer
      ensures Now() == ScreenSteps.OnLost(old(Now()), now)
    {
      if phase == Phase.Stopping || phase == Stopped { return; }
      if !everOnline { return; }
      Lose(now);
      SetPhase(Reconnecting, now);
    }

    method OnWebClients(connected: bool, clients: int)
      modifies this`webClients, this`held, this`output, this`log, this`statusShown
      ensures Now() == ScreenSteps.OnWebClients(old(Now()), connected, clients)
    {
      var before := webClients;
      webClients := if connected then Max(clients, 1) else 0;
      if connected && before == 0 {
        Print(DashboardOpened(webClients));
      } else if !connected && before > 0 {
        Print(DashboardClosed);
      }
    }

    method PrintHints(problem: Problem, columns: int)
      modifies this`held, this`output, this`log, this`statusShown
      ensures Term() == PrintAll(old(Term()), ProblemLines(problem, columns))
    {
      var hints := WordWrap.Wrap(problem.hint, 5, columns);
      PrintEach([ProblemTitle(problem.title)] + AllSaid(hints));
    }

    method Note(problem: Problem) returns (known: bool)
      modifies this`announced, this`lastProblem
      ensures known == (problem.title in old(announced)) && NowLink() == ProblemNoted(old(NowLink()), problem)
    {
      lastProblem := Some(problem.title);
      known := problem.title in announced;
      if !known {
        announced := announced + {problem.title};
      }
    }

    method Announce(problem: Problem, columns: int)
      modifies this`announced, this`lastProblem, this`held, this`output, this`log, this`statusShown
      ensures NowLink() == ProblemNoted(old(NowLink()), problem)
      ensures Term() == ProblemPrinted(old(Term()), problem.title in old(announced), problem, columns)
    {
      var known := Note(problem);
      if !known {
        PrintHints(problem, columns);
      }
    }

    method OnProblem(problem: Problem, columns: int)
      modifies this`announced, this`lastProblem, this`held, this`output, this`log, this`statusShown
      ensures Now() == ScreenSteps.OnProblem(old(Now()), problem, columns)
    {
      if phase == Phase.Stopping || phase == Stopped { return; }
      Announce(problem, columns);
    }

    method ShowIdentity(now: Time)
      modifies this`phase, this`phaseSince, this`output, this`statusShown, this`timer
      ensures Now() == ScreenSteps.ShowIdentity(old(Now()), now)
    {
      WriteEach(["THIS PC", "", "Starting up", "Device identity loaded"]);
      Begin(now);
    }

    method Begin(now: Time)
      modifies this`phase, this`phaseSince, this`statusShown, this`timer
      ensures NowLink() == PhaseSet(old(NowLink()), Starting, now)
      ensures Term() == ScreenSteps.StartTicker(PhaseDrawn(old(Term()), old(phase), Starting))
    {
      SetPhase(Starting, now);
      StartTicker();
    }

    method ShowAgents()
      modifies this`held, this`output, this`log, this`statusShown
      ensures Now() == ScreenSteps.ShowAgents(old(Now()))
    {
      var ready := Ready(agents);
      var ranked := Ranked(agents, 0) + Ranked(agents, 1) + Ranked(agents, 2);
      PrintEach([if ready > 0 then AgentsFound(ready) else Said("No coding agents found")] + AgentLines(ranked));
    }

    /** One note; false if its rewriting throws, or its wrapping has no first line. */
    method PrintNote(note: Note, columns: int) returns (shown: bool)
      modifies this`held, this`output, this`log, this`statusShown
      ensures var lines := NoteText(note, columns);
        shown == (lines != []) && Term() == if shown then PrintAll(old(Term()), NoteLines(lines)) else old(Term())
    {
      if note.None? { return false; }
      var lines := WordWrap.Wrap(note.value, 8, columns);
      shown := lines != [];
      if shown {
        PrintEach([NoteLine(lines[0][8..])] + AllSaid(lines[1..]));
      }
    }

    method ShowChecks(columns: int)
      modifies this`held, this`output, this`log, this`statusShown
      ensures Term() == PrintNotes(ScreenSteps.Print(old(Term()), ChecksPassed(|notes|)), notes, columns)
    {
      Print(ChecksPassed(|notes|));
      ghost var t := Term();
      for i := 0 to |notes|
        invariant PrintNotes(Term(), notes[i..], columns) == PrintNotes(t, notes, columns)
      {
        assert notes[i..][0] == notes[i] && notes[i..][1..] == notes[i + 1..];
        var shown := PrintNote(notes[i], columns);
        if !shown { return; }
      }
    }

    method ShowFatal(title: string, now: Time)
      modifies this`phase, this`phaseSince, this`fatalShown, this`output, this`statusShown, this`timer
      ensures Now() == ScreenSteps.ShowFatal(old(Now()), title, now)
    {
      fatalShown := true;
      SetPhase(Stopped, now);
      WriteFatal(title);
    }

    method WriteFatal(title: string)
      modifies this`output, this`statusShown, this`timer
      ensures Term() == WriteAll(ScreenSteps.StopTicker(old(Term())), ["", title])
    {
      StopTicker();
      WriteEach(["", title]);
    }

    method OnDegraded(noControlPlane: bool, now: Time)
      modifies this`phase, this`phaseSince, this`outageSince, this`held, this`output, this`log, this`statusShown, this`timer
      ensures Now() == ScreenSteps.OnDegraded(old(Now()), noControlPlane, now)
    {
      if noControlPlane {
        Print(Said("Local only"));
        SetPhase(Local, now);
      } else {
        OnLost(now);
      }
    }

    method OnStateChange(to: string, noControlPlane: bool, now: Time, columns: int)
      modifies this
      ensures Now() == ScreenSteps.OnStateChange(old(Now()), to, noControlPlane, now, columns)
    {
      if to == "preflight" {
        ShowAgents();
      } else if to == "local_ready" {
        ShowChecks(columns);
      } else {
        OnLinkChange(to, noControlPlane, now);
      }
    }

    method OnLinkChange(to: string, noControlPlane: bool, now: Time)
      modifies this
      ensures Now() == ScreenSteps.OnLinkChange(old(Now()), to, noControlPlane, now)
    {
      if to == "online" {
        OnOnline(now);
      } else if to == "degraded" {
        OnDegraded(noControlPlane, now);
      } else {
        OnPlainPhase(to, now);
      }
    }

    method OnPlainPhase(to: string, now: Time)
      modifies this`phase, this`phaseSince, this`statusShown, this`timer
      ensures Now() == ScreenSteps.OnPlainPhase(old(Now()), to, now)
    {
      if to == "connecting" {
        SetPhase(Connecting, now);
      } else if to == "draining" || to == "aborting" {
        SetPhase(Phase.Stopping, now);
      } else if to == "stopped" {
        SetPhase(Stopped, now);
      }
    }

    method OnSignal(aborting: bool, activeSessions: int, now: Time)
      modifies this`phase, this`phaseSince, this`held, this`output, this`log, this`statusShown, this`timer
      ensures Now() == ScreenSteps.OnSignal(old(Now()), aborting, activeSessions, now)
    {
      if aborting {
        Print(Said("Forcing stop"));
      } else if phase != Phase.Stopping {
        Print(Line.Stopping(activeSessions));
      }
      SetPhase(Phase.Stopping, now);
    }

    method Handle(record: Record, now: Time, columns: int)
      modifies this
      ensures Now() == ScreenSteps.Handle(old(Now()), record, now, columns)
    {
      match record {
        case GatewayIdentity => ShowIdentity(now);
        case StateChange(to, noControlPlane) => OnStateChange(to, noControlPlane, now, columns);
        case Problematic(problem) => OnProblem(problem, columns);
        case _ => HandleOther(record, now);
      }
    }

    /** The other records. */
    method HandleOther(record: Record, now: Time)
      modifies this
      ensures Now() == Other(old(Now()), record, now)
    {
      match record {
        case Fatal(title) => ShowFatal(title, now);
        case WebClients(connected, clients) => OnWebClients(connected, clients);
        case Signal(aborting, active) => OnSignal(aborting, active, now);
        case Notice(text) => Print(Said(text));
        case _ => Collect(record, now);
      }
    }

    method Collect(record: Record, now: Time)
      modifies this`agents, this`notes, this`failures, this`attempt, this`retryAt
      ensures Now() == ScreenSteps.Collect(old(Now()), record, now)
    {
      match record {
        case GatewayAgent(agent) => agents := agents + [agent];
        case PreflightWarn(note) => notes := notes + [note];
        case PreflightFail(failure) => failures := failures + [failure];
        case TunnelReconnect(n, inMs) => attempt, retryAt := n, now + inMs;
        case _ =>
      }
    }
  }
}
