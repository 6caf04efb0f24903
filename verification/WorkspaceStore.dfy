/** The workspace store on mutable fields. */
module WorkspaceStore {
  import opened Basics
  import opened Workspace

  class Store {
    var devices: Section<Device>
    var sessions: Section<Session>
    var approvals: Section<Approval>
    var usage: Section<ProviderUsage>
    var loaded: bool
    var refreshing: bool
    var lastRefreshedAt: Option<int>
    var inFlight: InFlight
    // Bookkeeping of the requests and the promises handed out.
    var started: nat
    var calls: seq<nat>
    var rounds: seq<Round>

    ghost function Shown(): Sections
      reads this
    {
      Sections(devices, sessions, approvals, usage)
    }

    ghost function Now(): State
      reads this
    {
      State(Shown(), loaded, refreshing, lastRefreshedAt, inFlight, started, calls, rounds)
    }

    constructor ()
      ensures Now() == Start
    {
      devices, sessions, approvals, usage := Section([], None), Section([], None), Section([], None), Section([], None);
      loaded, refreshing, lastRefreshedAt, inFlight := false, false, None, Idle;
      started, calls, rounds := 0, [], [];
    }

    method Refresh() returns (round: nat)
      modifies this
      ensures Now() == Workspace.Refresh(old(Now())) && round == started
    {
      if inFlight.Idle? {
        refreshing := true;
        inFlight := Loading(NothingSettled);
        started := started + 1;
      }
      calls := calls + [started];
      round := started;
    }

    /** One of the four requests settles. */
    method Settle(a: Action)
      requires Enabled(Now(), a) && (a.DevicesSettle? || a.SessionsSettle? || a.ApprovalsSettle? || a.UsageSettles?)
      modifies this
      ensures Now() == Next(old(Now()), a)
    {
      var pending := inFlight.pending;
      match a {
        case DevicesSettle(o) => pending := pending.(devices := Some(o));
        case SessionsSettle(o) => pending := pending.(sessions := Some(o));
        case ApprovalsSettle(o) => pending := pending.(approvals := Some(o));
        case UsageSettles(o) => pending := pending.(usage := Some(o));
      }
      inFlight := Loading(pending);
    }

    method Show(round: Round)
      modifies this`devices, this`sessions, this`approvals, this`usage
      ensures Shown() == Merge(old(Shown()), round)
    {
      var d, s, a, u := Load(round.devices), Load(round.sessions), Load(round.approvals), Load(round.usage);
      devices := if Truthy(d.error) then devices.(error := d.error) else d;
      sessions := if Truthy(s.error) then sessions.(error := s.error) else s;
      approvals := if Truthy(a.error) then approvals.(error := a.error) else a;
      usage := if Truthy(u.error) then Section(usage.data, None) else u;
    }

    method OnAllSettled(now: int)
      requires inFlight.Loading? && AllSettled(inFlight.pending)
      modifies this
      ensures Now() == Next(old(Now()), StoreRound(now))
    {
      var round := Answers(inFlight.pending);
      Show(round);
      loaded, refreshing, lastRefreshedAt := true, false, Some(now);
      inFlight, rounds := Stored, rounds + [round];
    }

    method Finally()
      requires inFlight.Stored?
      modifies this
      ensures Now() == Next(old(Now()), FinishRound)
    {
      inFlight := Idle;
    }
  }
}
