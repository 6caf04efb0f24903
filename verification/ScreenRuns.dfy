/** What the gateway screen tells over any stream of log records, prompts and ticks. */
module ScreenRuns {
  import opened Basics
  import opened ScreenSteps
  import WordWrap

  datatype Event = Sink(record: Record, now: Time, columns: int) | SuspendCalled | ResumeCalled | Tick

  function Step(s: State, e: Event): State {
    match e
    case Sink(record, now, columns) => Handle(s, record, now, columns)
    case SuspendCalled => s.(term := Suspend(s.term))
    case ResumeCalled => s.(term := Resume(s.term))
    case Tick => s.(term := Draw(s.term))
  }

  function After(s: State, events: seq<Event>): State
    decreases |events|
  {
    if events == [] then s else After(Step(s, events[0]), events[1..])
  }

  // ------------------------------------------------- what a reader has seen

  /** What the printed lines so far say. */
  datatype View = View(everOnline: bool, announced: set<string>, lostAt: Option<Time>, dashboard: bool)

  const NothingSeen := View(false, {}, None, false)

  predicate SaysOnline(line: Line) {
    line.Connected? || line.BackOnline?
  }

  function Watch(v: View, line: Line): View {
    match line
    case Connected(_) => v.(everOnline := true, announced := {}, lostAt := None)
    case BackOnline(_, _) => v.(everOnline := true, announced := {}, lostAt := None)
    case ProblemTitle(title) => v.(announced := v.announced + {title})
    case LostConnection(at) => v.(lostAt := Some(at))
    case DashboardOpened(_) => v.(dashboard := true)
    case DashboardClosed => v.(dashboard := false)
    case _ => v
  }

  function Seen(log: seq<Entry>): View {
    if log == [] then NothingSeen else Watch(Seen(log[..|log| - 1]), log[|log| - 1].line)
  }

  /** A line that fits what has been said before. */
  predicate Fits(v: View, line: Line) {
    match line
    case Connected(_) => !v.everOnline
    case BackOnline(at, offlineFor) => v.everOnline && offlineFor == (if v.lostAt.Some? then at - v.lostAt.value else 0)
    case LostConnection(_) => v.everOnline && v.lostAt.None?
    case ProblemTitle(title) => title !in v.announced
    case DashboardOpened(_) => !v.dashboard
    case DashboardClosed => v.dashboard
    case _ => true
  }

  predicate Coherent(log: seq<Entry>) {
    log == [] || (Coherent(log[..|log| - 1]) && Fits(Seen(log[..|log| - 1]), log[|log| - 1].line))
  }

  lemma OneMore(log: seq<Entry>, entry: Entry)
    ensures Seen(log + [entry]) == Watch(Seen(log), entry.line)
    ensures Coherent(log + [entry]) <==> Coherent(log) && Fits(Seen(log), entry.line)
  {
    assert (log + [entry])[..|log|] == log;
  }

  // -------------------------------------------------------------- terminal

  function Delivered(output: seq<Output>): seq<Entry> {
    if output == [] then []
    else
      var last := output[|output| - 1];
      Delivered(output[..|output| - 1]) + (if last.Printed? then [last.entry] else [])
  }

  function Waiting(held: seq<Line>): seq<Entry> {
    seq(|held|, i requires 0 <= i < |held| => Entry(held[i], true))
  }

  predicate NeverOverStatus(output: seq<Output>) {
    forall i :: 0 <= i < |output| && output[i].Printed? ==> !output[i].overStatus
  }

  predicate TermOk(t: Terminal) {
    && Delivered(t.output) + Waiting(t.held) == t.log
    && NeverOverStatus(t.output)
    && (t.statusShown ==> t.ticking && !t.suspended)
    && (!t.suspended ==> t.held == [])
  }

  lemma DeliveredOneMore(output: seq<Output>, o: Output)
    ensures Delivered(output + [o]) == Delivered(output) + (if o.Printed? then [o.entry] else [])
  {
    assert (output + [o])[..|output|] == output;
  }

  lemma {:induction false} DeliveredReleased(output: seq<Output>, held: seq<Line>, over: bool)
    ensures Delivered(output + Released(held, over)) == Delivered(output) + Waiting(held)
  {
    if held == [] {
      assert output + Released(held, over) == output;
    } else {
      var front, last := held[..|held| - 1], held[|held| - 1];
      DeliveredReleased(output, front, over);
      var o := Printed(Entry(last, true), over);
      DeliveredOneMore(output + Released(front, over), o);
      assert output + Released(held, over) == output + Released(front, over) + [o];
      assert Waiting(held) == Waiting(front) + [Entry(last, true)];
    }
  }

  lemma OneMoreWaits(delivered: seq<Entry>, held: seq<Line>, line: Line)
    ensures delivered + Waiting(held + [line]) == delivered + Waiting(held) + [Entry(line, true)]
  {
    assert Waiting(held + [line]) == Waiting(held) + [Entry(line, true)];
  }

  lemma PrintKeepsTerm(t: Terminal, line: Line)
    requires TermOk(t)
    ensures TermOk(Print(t, line))
    ensures Print(t, line).log == t.log + [Entry(line, t.suspended)]
  {
    if t.suspended {
      OneMoreWaits(Delivered(t.output), t.held, line);
    } else {
      WrittenKeepsTerm(t, line);
    }
  }

  lemma WrittenKeepsTerm(t: Terminal, line: Line)
    requires TermOk(t) && !t.suspended
    ensures TermOk(Print(t, line))
    ensures Print(t, line).log == t.log + [Entry(line, false)]
  {
    var o := Printed(Entry(line, false), false);
    assert Print(t, line).output == t.output + [o];
    DeliveredOneMore(t.output, o);
    NothingWaits(Delivered(t.output));
    NothingWaits(Delivered(t.output + [o]));
  }

  lemma NothingWaits(delivered: seq<Entry>)
    ensures delivered + Waiting([]) == delivered
  {
  }

  lemma WriteKeepsTerm(t: Terminal, text: string)
    requires TermOk(t)
    ensures TermOk(Write(t, text)) && Write(t, text).log == t.log
  {
    DeliveredOneMore(t.output, Direct(text, t.statusShown));
  }

  lemma {:induction false} WritesKeep(t: Terminal, texts: seq<string>)
    requires TermOk(t)
    ensures TermOk(WriteAll(t, texts)) && WriteAll(t, texts).log == t.log
    decreases |texts|
  {
    if texts != [] {
      WriteKeepsTerm(t, texts[0]);
      WritesKeep(Write(t, texts[0]), texts[1..]);
    }
  }

  lemma ResumeKeepsTerm(t: Terminal)
    requires TermOk(t)
    ensures TermOk(Resume(t)) && Resume(t).log == t.log
    ensures Resume(t).held == [] && Delivered(Resume(t).output) == t.log
  {
    DeliveredReleased(t.output, t.held, t.statusShown);
    var r := Resume(t);
    assert Waiting(r.held) == [];
    forall i | 0 <= i < |r.output| && r.output[i].Printed? ensures !r.output[i].overStatus {
      if i < |t.output| {
        assert r.output[i] == t.output[i];
      } else {
        assert r.output[i] == Released(t.held, t.statusShown)[i - |t.output|];
      }
    }
  }

  // ----------------------------------------------------------- the invariant

  /** The screen's fields agree with what its printed lines say. */
  predicate Agrees(s: State, v: View) {
    && s.link.everOnline == v.everOnline
    && s.link.announced == v.announced
    && s.link.outageSince == (if v.lostAt.Some? then v.lostAt.value else 0)
    && (s.link.phase == Online ==> v.everOnline && v.lostAt.None?)
    && (s.webClients > 0 <==> v.dashboard)
  }

  predicate Ok(s: State) {
    TermOk(s.term) && Coherent(s.term.log) && Agrees(s, Seen(s.term.log))
  }

  /** Printing extends the log by the line and keeps it coherent if the line fits. */
  lemma PrintKeeps(t: Terminal, line: Line)
    requires TermOk(t) && Coherent(t.log) && Fits(Seen(t.log), line)
    ensures TermOk(Print(t, line)) && Coherent(Print(t, line).log)
    ensures Seen(Print(t, line).log) == Watch(Seen(t.log), line)
  {
    PrintKeepsTerm(t, line);
    OneMore(t.log, Entry(line, t.suspended));
  }

  predicate Neutral(line: Line) {
    line.AgentsFound? || line.AgentLine? || line.ChecksPassed? || line.NoteLine? || line.Stopping? || line.Said?
  }

  predicate AllNeutral(lines: seq<Line>) {
    forall i :: 0 <= i < |lines| ==> Neutral(lines[i])
  }

  lemma {:induction false} NeutralLinesKeep(t: Terminal, lines: seq<Line>)
    requires TermOk(t) && Coherent(t.log) && AllNeutral(lines)
    ensures TermOk(PrintAll(t, lines)) && Coherent(PrintAll(t, lines).log)
    ensures Seen(PrintAll(t, lines).log) == Seen(t.log)
    decreases |lines|
  {
    if lines != [] {
      PrintKeeps(t, lines[0]);
      NeutralLinesKeep(Print(t, lines[0]), lines[1..]);
    }
  }

  lemma PrintAllFirst(t: Terminal, line: Line, lines: seq<Line>)
    ensures PrintAll(t, [line] + lines) == PrintAll(Print(t, line), lines)
  {
    assert ([line] + lines)[1..] == lines;
  }

  /** A change of the terminal that leaves its log alone, and of fields that no line speaks of. */
  lemma SetPhaseKeeps(s: State, phase: Phase, now: Time)
    requires Ok(s) && (phase == Online ==> Seen(s.term.log).everOnline && Seen(s.term.log).lostAt.None?)
    ensures Ok(SetPhase(s, phase, now))
  {
  }

  /** A line that changes the view, with lines that do not after it. */
  lemma LineAndMoreKeep(t: Terminal, line: Line, more: seq<Line>)
    requires TermOk(t) && Coherent(t.log) && Fits(Seen(t.log), line) && AllNeutral(more)
    ensures TermOk(PrintAll(t, [line] + more)) && Coherent(PrintAll(t, [line] + more).log)
    ensures Seen(PrintAll(t, [line] + more).log) == Watch(Seen(t.log), line)
  {
    PrintKeeps(t, line);
    NeutralLinesKeep(Print(t, line), more);
    PrintAllFirst(t, line, more);
  }

  lemma AnnouncedKeeps(s: State, now: Time)
    requires Ok(s)
    ensures Ok(Announced(s, now))
    ensures Seen(Announced(s, now).term.log).everOnline && Seen(Announced(s, now).term.log).lostAt.None?
  {
    OnlineLineFits(s, Seen(s.term.log), now);
    LineAndMoreKeep(s.term, OnlineLine(s.link, now), OnlineAdvice(s.link));
  }

  /** The online line fits what has been said, and what it says agrees with the fields set beside it. */
  lemma OnlineLineFits(s: State, v: View, now: Time)
    requires Agrees(s, v)
    ensures Fits(v, OnlineLine(s.link, now)) && AllNeutral(OnlineAdvice(s.link))
    ensures Agrees(s.(link := OutageOver(s.link, now)), Watch(v, OnlineLine(s.link, now)))
    ensures Watch(v, OnlineLine(s.link, now)).everOnline && Watch(v, OnlineLine(s.link, now)).lostAt.None?
  {
  }

  lemma OnlineKeeps(s: State, now: Time)
    requires Ok(s)
    ensures Ok(OnOnline(s, now))
  {
    AnnouncedKeeps(s, now);
    SetPhaseKeeps(Announced(s, now), Online, now);
  }

  lemma LostKeeps(s: State, now: Time)
    requires Ok(s)
    ensures Ok(OnLost(s, now))
  {
    if s.link.phase == Online {
      PrintKeeps(s.term, LostConnection(now));
    }
  }

  lemma WebClientsKeep(s: State, connected: bool, clients: int)
    requires Ok(s)
    ensures Ok(OnWebClients(s, connected, clients))
  {
    if connected && s.webClients == 0 {
      PrintKeeps(s.term, DashboardOpened(Max(clients, 1)));
    } else if !connected && s.webClients > 0 {
      PrintKeeps(s.term, DashboardClosed);
    }
  }

  lemma ProblemKeeps(s: State, problem: Problem, columns: int)
    requires Ok(s)
    ensures Ok(OnProblem(s, problem, columns))
  {
    if problem.title !in s.link.announced {
      LineAndMoreKeep(s.term, ProblemTitle(problem.title), AllSaid(WrappedLines(problem.hint, 5, columns)));
    }
  }

  lemma SayKeeps(s: State, line: Line)
    requires Ok(s) && Neutral(line)
    ensures Ok(Say(s, line)) && Seen(Say(s, line).term.log) == Seen(s.term.log)
  {
    PrintKeeps(s.term, line);
  }

  lemma {:induction false} NotesKeep(t: Terminal, notes: seq<Note>, columns: int)
    requires TermOk(t) && Coherent(t.log)
    ensures TermOk(PrintNotes(t, notes, columns)) && Coherent(PrintNotes(t, notes, columns).log)
    ensures Seen(PrintNotes(t, notes, columns).log) == Seen(t.log)
    decreases |notes|
  {
    if notes != [] {
      var lines := NoteText(notes[0], columns);
      if lines != [] {
        NeutralLinesKeep(t, NoteLines(lines));
        NotesKeep(PrintAll(t, NoteLines(lines)), notes[1..], columns);
      }
    }
  }

  lemma AgentsKeep(s: State)
    requires Ok(s)
    ensures Ok(ShowAgents(s))
  {
    NeutralLinesKeep(s.term, FoundLines(s.facts.agents));
  }

  lemma ChecksKeep(s: State, columns: int)
    requires Ok(s)
    ensures Ok(ShowChecks(s, columns))
  {
    PrintKeeps(s.term, ChecksPassed(|s.facts.notes|));
    NotesKeep(Print(s.term, ChecksPassed(|s.facts.notes|)), s.facts.notes, columns);
  }

  lemma IdentityKeeps(s: State, now: Time)
    requires Ok(s)
    ensures Ok(ShowIdentity(s, now))
  {
    var written := WriteAll(s.term, ["THIS PC", "", "Starting up", "Device identity loaded"]);
    WritesKeep(s.term, ["THIS PC", "", "Starting up", "Device identity loaded"]);
    SetPhaseKeeps(s.(term := written), Starting, now);
  }

  lemma FatalKeeps(s: State, title: string, now: Time)
    requires Ok(s)
    ensures Ok(ShowFatal(s, title, now))
  {
    SetPhaseKeeps(s.(fatalShown := true), Stopped, now);
    WritesKeep(StopTicker(SetPhase(s.(fatalShown := true), Stopped, now).term), ["", title]);
  }

  lemma PlainPhaseKeeps(s: State, to: string, now: Time)
    requires Ok(s)
    ensures Ok(OnPlainPhase(s, to, now))
  {
    SetPhaseKeeps(s, Connecting, now);
    SetPhaseKeeps(s, Phase.Stopping, now);
    SetPhaseKeeps(s, Stopped, now);
  }

  lemma DegradedKeeps(s: State, noControlPlane: bool, now: Time)
    requires Ok(s)
    ensures Ok(OnDegraded(s, noControlPlane, now))
  {
    if noControlPlane {
      SaidThenPhaseKeeps(s, Said("Local only"), Local, now);
    } else {
      LostKeeps(s, now);
    }
  }

  lemma LinkChangeKeeps(s: State, to: string, noControlPlane: bool, now: Time)
    requires Ok(s)
    ensures Ok(OnLinkChange(s, to, noControlPlane, now))
  {
    if to == "online" {
      OnlineKeeps(s, now);
    } else if to == "degraded" {
      DegradedKeeps(s, noControlPlane, now);
    } else {
      PlainPhaseKeeps(s, to, now);
    }
  }

  lemma StateChangeKeeps(s: State, to: string, noControlPlane: bool, now: Time, columns: int)
    requires Ok(s)
    ensures Ok(OnStateChange(s, to, noControlPlane, now, columns))
  {
    if to == "preflight" {
      AgentsKeep(s);
    } else if to == "local_ready" {
      ChecksKeep(s, columns);
    } else {
      LinkChangeKeeps(s, to, noControlPlane, now);
    }
  }

  lemma SignalKeeps(s: State, aborting: bool, active: int, now: Time)
    requires Ok(s)
    ensures Ok(OnSignal(s, aborting, active, now))
  {
    if aborting {
      SaidThenPhaseKeeps(s, Said("Forcing stop"), Phase.Stopping, now);
    } else if s.link.phase != Phase.Stopping {
      SaidThenPhaseKeeps(s, Line.Stopping(active), Phase.Stopping, now);
    } else {
      SetPhaseKeeps(s, Phase.Stopping, now);
    }
  }

  lemma SaidThenPhaseKeeps(s: State, line: Line, phase: Phase, now: Time)
    requires Ok(s) && Neutral(line) && phase != Online
    ensures Ok(SetPhase(Say(s, line), phase, now))
  {
    SayKeeps(s, line);
    SetPhaseKeeps(Say(s, line), phase, now);
  }

  lemma CollectKeeps(s: State, record: Record, now: Time)
    requires Ok(s)
    ensures Ok(Collect(s, record, now))
  {
  }

  lemma FatalRecordKeeps(s: State, title: string, now: Time, columns: int)
    requires Ok(s)
    ensures Ok(Handle(s, Fatal(title), now, columns))
  {
    FatalKeeps(s, title, now);
  }

  lemma WebClientsRecordKeeps(s: State, connected: bool, clients: int, now: Time, columns: int)
    requires Ok(s)
    ensures Ok(Handle(s, WebClients(connected, clients), now, columns))
  {
    WebClientsKeep(s, connected, clients);
  }

  lemma SignalRecordKeeps(s: State, aborting: bool, active: int, now: Time, columns: int)
    requires Ok(s)
    ensures Ok(Handle(s, Signal(aborting, active), now, columns))
  {
    SignalKeeps(s, aborting, active, now);
  }

  lemma IdentityRecordKeeps(s: State, now: Time, columns: int)
    requires Ok(s)
    ensures Ok(Handle(s, GatewayIdentity, now, columns))
  {
    IdentityKeeps(s, now);
  }

  lemma StateChangeRecordKeeps(s: State, to: string, none: bool, now: Time, columns: int)
    requires Ok(s)
    ensures Ok(Handle(s, StateChange(to, none), now, columns))
  {
    StateChangeKeeps(s, to, none, now, columns);
  }

  lemma ProblemRecordKeeps(s: State, problem: Problem, now: Time, columns: int)
    requires Ok(s)
    ensures Ok(Handle(s, Problematic(problem), now, columns))
  {
    ProblemKeeps(s, problem, columns);
  }

  lemma NoticeKeeps(s: State, text: string, now: Time, columns: int)
    requires Ok(s)
    ensures Ok(Handle(s, Notice(text), now, columns))
  {
    SayKeeps(s, Said(text));
  }

  predicate OnlyCollected(record: Record) {
    record.GatewayAgent? || record.PreflightWarn? || record.PreflightFail? || record.TunnelReconnect? || record.Ignored?
  }

  lemma CollectedKeeps(s: State, record: Record, now: Time, columns: int)
    requires Ok(s) && OnlyCollected(record)
    ensures Ok(Handle(s, record, now, columns))
  {
    CollectKeeps(s, record, now);
  }

  lemma HandleKeeps(s: State, record: Record, now: Time, columns: int)
    requires Ok(s)
    ensures Ok(Handle(s, record, now, columns))
  {
    match record
    case GatewayIdentity => IdentityRecordKeeps(s, now, columns);
    case StateChange(to, none) => StateChangeRecordKeeps(s, to, none, now, columns);
    case Problematic(problem) => ProblemRecordKeeps(s, problem, now, columns);
    case Fatal(title) => FatalRecordKeeps(s, title, now, columns);
    case WebClients(connected, clients) => WebClientsRecordKeeps(s, connected, clients, now, columns);
    case Signal(aborting, active) => SignalRecordKeeps(s, aborting, active, now, columns);
    case Notice(text) => NoticeKeeps(s, text, now, columns);
    case _ => CollectedKeeps(s, record, now, columns);
  }

  lemma StepKeepsOk(s: State, e: Event)
    requires Ok(s)
    ensures Ok(Step(s, e))
  {
    match e
    case Sink(record, now, columns) => HandleKeeps(s, record, now, columns);
    case ResumeCalled => ResumeKeepsTerm(s.term);
    case _ =>
  }

  lemma {:induction false} RunKeepsOk(s: State, events: seq<Event>)
    requires Ok(s)
    ensures Ok(After(s, events))
    decreases |events|
  {
    if events != [] {
      StepKeepsOk(s, events[0]);
      RunKeepsOk(Step(s, events[0]), events[1..]);
    }
  }

  // ------------------------------------------------- reading the log by position

  predicate OnlineAt(log: seq<Entry>, i: int) {
    0 <= i < |log| && SaysOnline(log[i].line)
  }

  predicate ConnectedAt(log: seq<Entry>, i: int) {
    0 <= i < |log| && log[i].line.Connected?
  }

  predicate LostAt(log: seq<Entry>, i: int) {
    0 <= i < |log| && log[i].line.LostConnection?
  }

  lemma {:induction false} FitsAt(log: seq<Entry>, j: nat)
    requires Coherent(log) && j < |log|
    ensures Coherent(log[..j]) && Fits(Seen(log[..j]), log[j].line)
    decreases |log|
  {
    if j < |log| - 1 {
      var front := log[..|log| - 1];
      FitsAt(front, j);
      assert front[..j] == log[..j];
    }
  }

  lemma {:induction false} SeenTitle(log: seq<Entry>, i: nat)
    requires i < |log| && log[i].line.ProblemTitle?
    requires forall k :: i < k ==> !OnlineAt(log, k)
    ensures log[i].line.title in Seen(log).announced
    decreases |log|
  {
    if i < |log| - 1 {
      var front := log[..|log| - 1];
      assert !OnlineAt(log, |log| - 1);
      forall k | i < k ensures !OnlineAt(front, k) {
        assert !OnlineAt(log, k);
      }
      SeenTitle(front, i);
    }
  }

  lemma {:induction false} SeenOnline(log: seq<Entry>, i: nat)
    requires OnlineAt(log, i)
    ensures Seen(log).everOnline
    decreases |log|
  {
    if i < |log| - 1 {
      SeenOnline(log[..|log| - 1], i);
    }
  }

  lemma {:induction false} FirstOnlineIsConnected(log: seq<Entry>) returns (i: nat)
    requires Coherent(log) && Seen(log).everOnline
    ensures ConnectedAt(log, i)
    decreases |log|
  {
    var n := |log| - 1;
    if log[n].line.Connected? {
      i := n;
    } else {
      i := FirstOnlineIsConnected(log[..n]);
    }
  }

  lemma {:induction false} LatestOnline(log: seq<Entry>) returns (i: nat)
    requires Coherent(log) && Seen(log).everOnline && Seen(log).lostAt.None?
    ensures OnlineAt(log, i) && forall k :: i < k ==> !LostAt(log, k)
    decreases |log|
  {
    var n := |log| - 1;
    if SaysOnline(log[n].line) {
      i := n;
    } else {
      i := LatestOnline(log[..n]);
      forall k | i < k ensures !LostAt(log, k) {
        assert !LostAt(log[..n], k);
      }
    }
  }

  lemma {:induction false} SeenLost(log: seq<Entry>, i: nat)
    requires Coherent(log) && LostAt(log, i) && forall k :: i < k ==> !OnlineAt(log, k)
    ensures Seen(log).lostAt == Some(log[i].line.at)
    decreases |log|
  {
    if i < |log| - 1 {
      var front := log[..|log| - 1];
      assert !OnlineAt(log, |log| - 1);
      forall k | i < k ensures !OnlineAt(front, k) {
        assert !OnlineAt(log, k);
      }
      SeenLost(front, i);
    }
  }

  lemma {:induction false} SeenNotLost(log: seq<Entry>) returns (i: nat)
    requires Seen(log).lostAt.Some?
    ensures LostAt(log, i) && forall k :: i < k ==> !OnlineAt(log, k)
    decreases |log|
  {
    var n := |log| - 1;
    if log[n].line.LostConnection? {
      i := n;
    } else {
      i := SeenNotLost(log[..n]);
      forall k | i < k ensures !OnlineAt(log, k) {
        assert !OnlineAt(log[..n], k);
      }
    }
  }

  predicate OpenedAt(log: seq<Entry>, i: int) {
    0 <= i < |log| && log[i].line.DashboardOpened?
  }

  predicate ClosedAt(log: seq<Entry>, i: int) {
    0 <= i < |log| && log[i].line.DashboardClosed?
  }

  lemma {:induction false} SeenDashboard(log: seq<Entry>, i: nat)
    requires OpenedAt(log, i) && forall k :: i < k ==> !ClosedAt(log, k)
    ensures Seen(log).dashboard
    decreases |log|
  {
    if i < |log| - 1 {
      var front := log[..|log| - 1];
      assert !ClosedAt(log, |log| - 1);
      forall k | i < k ensures !ClosedAt(front, k) {
        assert !ClosedAt(log, k);
      }
      SeenDashboard(front, i);
    }
  }

  lemma {:induction false} LatestOpened(log: seq<Entry>) returns (i: nat)
    requires Seen(log).dashboard
    ensures OpenedAt(log, i) && forall k :: i < k ==> !ClosedAt(log, k)
    decreases |log|
  {
    var n := |log| - 1;
    if log[n].line.DashboardOpened? {
      i := n;
    } else {
      i := LatestOpened(log[..n]);
      forall k | i < k ensures !ClosedAt(log, k) {
        assert !ClosedAt(log[..n], k);
      }
    }
  }

  // ------------------------------------------------------- main statements

  function Log(start: Time, events: seq<Event>): seq<Entry> {
    After(Initial(start), events).term.log
  }

  lemma LogIsCoherent(start: Time, events: seq<Event>)
    ensures Coherent(Log(start, events)) && Ok(After(Initial(start), events))
  {
    RunKeepsOk(Initial(start), events);
  }

  /** A problem's title is not announced again before the machine has been online in between. */
  lemma ProblemsAnnouncedOnce(start: Time, events: seq<Event>, i: nat, j: nat)
    requires i < j < |Log(start, events)|
    requires Log(start, events)[j].line.ProblemTitle? && Log(start, events)[i].line == Log(start, events)[j].line
    ensures exists k :: i < k < j && OnlineAt(Log(start, events), k)
  {
    var log := Log(start, events);
    LogIsCoherent(start, events);
    FitsAt(log, j);
    if forall k :: i < k < j ==> !OnlineAt(log, k) {
      forall k | i < k ensures !OnlineAt(log[..j], k) {
        assert k < j ==> !OnlineAt(log, k);
      }
      SeenTitle(log[..j], i);
    }
  }

  /** "Connected" comes before every other online line, so it comes at most once, and every "Back online" follows it. */
  lemma ConnectedComesFirst(start: Time, events: seq<Event>, i: nat, j: nat)
    requires i < |Log(start, events)| && j < |Log(start, events)| && OnlineAt(Log(start, events), i)
    ensures ConnectedAt(Log(start, events), j) ==> j <= i
    ensures Log(start, events)[i].line.BackOnline? ==> exists k :: k < i && ConnectedAt(Log(start, events), k)
  {
    var log := Log(start, events);
    LogIsCoherent(start, events);
    if ConnectedAt(log, j) && i < j {
      FitsAt(log, j);
      SeenOnline(log[..j], i);
    }
    if log[i].line.BackOnline? {
      FitsAt(log, i);
      var k := FirstOnlineIsConnected(log[..i]);
      assert ConnectedAt(log, k);
    }
  }

  /** Each "Lost connection" has an online line of its own before it, with no other loss in between. */
  lemma EachLossHasItsOwnOnline(start: Time, events: seq<Event>, j: nat) returns (i: nat)
    requires LostAt(Log(start, events), j)
    ensures i < j && OnlineAt(Log(start, events), i) && forall k :: i < k < j ==> !LostAt(Log(start, events), k)
  {
    var log := Log(start, events);
    LogIsCoherent(start, events);
    FitsAt(log, j);
    i := LatestOnline(log[..j]);
    forall k | i < k < j ensures !LostAt(log, k) {
      assert !LostAt(log[..j], k);
    }
  }

  /** "Back online" counts from the loss since the previous online line, and shows zero if there was none. */
  lemma OutageIsMeasured(start: Time, events: seq<Event>, j: nat)
    requires j < |Log(start, events)| && Log(start, events)[j].line.BackOnline?
    ensures var log := Log(start, events); forall i | LostAt(log, i) && i < j && (forall k :: i < k < j ==> !OnlineAt(log, k)) ::
      log[j].line.offlineFor == log[j].line.at - log[i].line.at
    ensures var log := Log(start, events);
      log[j].line.offlineFor == 0 || (exists i :: i < j && LostAt(log, i) && forall k :: i < k < j ==> !OnlineAt(log, k))
  {
    var log := Log(start, events);
    LogIsCoherent(start, events);
    FitsAt(log, j);
    forall i | LostAt(log, i) && i < j && (forall k :: i < k < j ==> !OnlineAt(log, k))
      ensures log[j].line.offlineFor == log[j].line.at - log[i].line.at
    {
      forall k | i < k ensures !OnlineAt(log[..j], k) {
        assert k < j ==> !OnlineAt(log, k);
      }
      SeenLost(log[..j], i);
    }
    if log[j].line.offlineFor != 0 {
      var i := SeenNotLost(log[..j]);
      assert LostAt(log, i);
      forall k | i < k < j ensures !OnlineAt(log, k) {
        assert !OnlineAt(log[..j], k);
      }
    }
  }

  /** "Dashboard opened" and "Dashboard closed" alternate. */
  lemma DashboardLinesAlternate(start: Time, events: seq<Event>, i: nat, j: nat)
    requires i < j && OpenedAt(Log(start, events), i)
    ensures OpenedAt(Log(start, events), j) ==> exists k :: i < k < j && ClosedAt(Log(start, events), k)
  {
    var log := Log(start, events);
    LogIsCoherent(start, events);
    if OpenedAt(log, j) && forall k :: i < k < j ==> !ClosedAt(log, k) {
      FitsAt(log, j);
      forall k | i < k ensures !ClosedAt(log[..j], k) {
        assert k < j ==> !ClosedAt(log, k);
      }
      SeenDashboard(log[..j], i);
    }
  }

  lemma ClosedFollowsItsOwnOpened(start: Time, events: seq<Event>, j: nat) returns (i: nat)
    requires ClosedAt(Log(start, events), j)
    ensures i < j && OpenedAt(Log(start, events), i) && forall k :: i < k < j ==> !ClosedAt(Log(start, events), k)
  {
    var log := Log(start, events);
    LogIsCoherent(start, events);
    FitsAt(log, j);
    i := LatestOpened(log[..j]);
    forall k | i < k < j ensures !ClosedAt(log, k) {
      assert !ClosedAt(log[..j], k);
    }
  }

  /**
   Lines come out once each and in the order printed: what was delivered,
   followed by what is held, is the log. A line skips the rewriting of command
   names exactly if it was held, nothing stays held outside a prompt, and no
   printed line is written over the status line.
   */
  lemma LinesComeOutOnceInOrder(start: Time, events: seq<Event>)
    ensures var t := After(Initial(start), events).term;
      && Delivered(t.output) + Waiting(t.held) == Log(start, events)
      && (!t.suspended ==> Delivered(t.output) == Log(start, events))
      && NeverOverStatus(t.output)
      && (t.statusShown ==> t.ticking && !t.suspended)
  {
    LogIsCoherent(start, events);
    var t := After(Initial(start), events).term;
    assert Waiting([]) == [];
    if !t.suspended {
      assert Delivered(t.output) + [] == Delivered(t.output);
    }
  }

  // ---------------------------------------------------------- notes shown

  /** The note can be rewritten, and is not blank. */
  predicate Showable(note: Note) {
    note.Some? && !WordWrap.AllSpaces(note.value)
  }

  /** How many notes come before the first that cannot be shown. */
  function ShowableNotes(notes: seq<Note>): (n: nat)
    ensures n <= |notes|
    ensures forall i :: 0 <= i < n ==> Showable(notes[i])
    ensures n < |notes| ==> !Showable(notes[n])
  {
    if notes == [] || !Showable(notes[0]) then 0 else 1 + ShowableNotes(notes[1..])
  }

  lemma NoteTextEmptyIff(note: Note, columns: int)
    ensures NoteText(note, columns) == [] <==> !Showable(note)
  {
    if note.Some? {
      WordWrap.NoLinesIffBlank(note.value, WordWrap.WrapWidth(columns, 8));
    }
  }

  /** The notes in a log. */
  function NotesIn(log: seq<Entry>): nat {
    if log == [] then 0 else NotesIn(log[..|log| - 1]) + (if log[|log| - 1].line.NoteLine? then 1 else 0)
  }

  lemma NotesInOneMore(log: seq<Entry>, entry: Entry)
    ensures NotesIn(log + [entry]) == NotesIn(log) + (if entry.line.NoteLine? then 1 else 0)
  {
    assert (log + [entry])[..|log|] == log;
  }

  lemma PrintCounts(t: Terminal, line: Line)
    ensures NotesIn(Print(t, line).log) == NotesIn(t.log) + (if line.NoteLine? then 1 else 0)
  {
    NotesInOneMore(t.log, Entry(line, t.suspended));
  }

  lemma {:induction false} SaidCounts(t: Terminal, texts: seq<string>)
    ensures NotesIn(PrintAll(t, AllSaid(texts)).log) == NotesIn(t.log)
    decreases |texts|
  {
    if texts != [] {
      var lines := AllSaid(texts);
      assert lines[0] == Said(texts[0]) && lines[1..] == AllSaid(texts[1..]);
      PrintCounts(t, lines[0]);
      SaidCounts(Print(t, lines[0]), texts[1..]);
    }
  }

  lemma NoteCounts(t: Terminal, lines: seq<string>)
    requires lines != [] && |lines[0]| >= 8
    ensures NotesIn(PrintAll(t, NoteLines(lines)).log) == NotesIn(t.log) + 1
  {
    var first := NoteLine(lines[0][8..]);
    PrintAllFirst(t, first, AllSaid(lines[1..]));
    PrintCounts(t, first);
    SaidCounts(Print(t, first), lines[1..]);
  }

  /** The listing shows the notes before the first that cannot be shown. */
  lemma {:induction false} LeadingNotesAreShown(t: Terminal, notes: seq<Note>, columns: int)
    ensures NotesIn(PrintNotes(t, notes, columns).log) == NotesIn(t.log) + ShowableNotes(notes)
    ensures PrintNotes(t, notes, columns) == PrintNotes(t, notes[..ShowableNotes(notes)], columns)
    decreases |notes|
  {
    if notes != [] {
      NoteTextEmptyIff(notes[0], columns);
      var lines := NoteText(notes[0], columns);
      if lines != [] {
        NoteCounts(t, lines);
        LeadingNotesAreShown(PrintAll(t, NoteLines(lines)), notes[1..], columns);
        var shown := notes[..ShowableNotes(notes)];
        assert shown[0] == notes[0] && shown[1..] == notes[1..][..ShowableNotes(notes[1..])];
      }
    }
  }

  /** Every note is shown exactly if each can be rewritten and none is blank. */
  lemma AllNotesShownIff(t: Terminal, notes: seq<Note>, columns: int)
    ensures NotesIn(PrintNotes(t, notes, columns).log) == NotesIn(t.log) + |notes|
       <==> forall i :: 0 <= i < |notes| ==> Showable(notes[i])
  {
    LeadingNotesAreShown(t, notes, columns);
  }
}
