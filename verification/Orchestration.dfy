/**
 The multi-agent orchestrator as functions on values.

 A run is a plan of steps that extends itself: a planning step's plan becomes
 further steps, and a failed test or review sends the work back to a builder and
 is checked again. `Advance` and `Cancel` are the only things that move a run,
 one at a time; what the sessions and the machines answer meanwhile is a
 parameter.
 */
module Orchestration {
  import opened Basics
  import PlanGraph
  import StepOrder

  datatype Kind = Planning | Implementation | Testing | Review | General

  datatype StepState = Pending | Running | Blocked | Completed | Failed | Skipped

  datatype Origin = Given | Planner | Guarantee | SentBack

  datatype Step = Step(
    id: string,
    kind: Kind,
    dependsOn: seq<string>,
    state: StepState,
    session: bool,             // it has a session
    origin: Origin,
    attempt: nat,              // 1 unless it was sent back
    passed: Option<bool>)      // what a completed test or review found

  /** A step as the user or the planner gives it. */
  datatype Planned = Planned(id: string, kind: Kind, dependsOn: seq<string>)

  datatype RunState = Created | Active | WaitingForApproval | Succeeded | Broken | Cancelled

  datatype Run = Run(steps: seq<Step>, maxFix: nat, error: bool, state: RunState)

  predicate Over(state: RunState) {
    state.Succeeded? || state.Broken? || state.Cancelled?
  }

  /** What the parser lets through of a planner's reply. */
  predicate Parsed(planned: seq<Planned>) {
    && 0 < |planned| <= 12
    && (forall i, j :: 0 <= i < j < |planned| ==> planned[i].id != planned[j].id)
    && forall p :: p in planned ==>
         && p.id != "" && !p.kind.Planning?
         && forall d :: d in p.dependsOn ==> d != p.id && exists q :: q in planned && q.id == d
  }

  type Plan = planned: seq<Planned> | Parsed(planned) witness [Planned("step", General, [])]

  /** What is read out of a finished session. */
  datatype Answer = Answer(plan: Option<Plan>, testsPassed: Option<bool>, approved: Option<bool>)

  datatype Session = Missing | Waiting | Working | Stopped | Finished(answer: Answer)

  datatype Start = NoAgent | OverBudget | Denied | NeedsApproval | Offline | Delivered

  /** What the sessions and the attempts to start a step answer during one call of `advance`. */
  datatype World = World(session: string -> Session, start: string -> Start)

  // -------------------------------------------------------------------- ids

  function IdSet(steps: seq<Step>): set<string> {
    set s | s in steps :: s.id
  }

  function Suffix(wanted: string, n: nat): string {
    wanted + "-" + Decimal(n)
  }

  lemma SuffixesDiffer(wanted: string, n: nat, m: nat)
    requires n != m
    ensures Suffix(wanted, n) != Suffix(wanted, m)
  {
    var front := wanted + "-";
    assert Suffix(wanted, n)[|front|..] == Decimal(n) && Suffix(wanted, m)[|front|..] == Decimal(m);
    if Decimal(n) == Decimal(m) {
      DecimalInjective(n, m);
    }
  }

  function Suffixed(taken: set<string>, wanted: string, n: nat): (id: string)
    ensures id !in taken && id != "" && exists m :: m >= n && id == Suffix(wanted, m)
    decreases |taken|
  {
    var id := Suffix(wanted, n);
    if id in taken then
      var later := Suffixed(taken - {id}, wanted, n + 1);
      assert later != id by {
        var m :| m >= n + 1 && later == Suffix(wanted, m);
        SuffixesDiffer(wanted, n, m);
      }
      later
    else
      assert id == Suffix(wanted, n);
      id
  }

  /** The wanted id, or the first free one with a number behind it. */
  function UniqueId(taken: set<string>, wanted: string): (id: string)
    ensures id !in taken && (wanted != "" ==> id != "")
  {
    if wanted in taken then Suffixed(taken, wanted, 2) else wanted
  }

  function TrailingDigits(id: string): (n: nat)
    ensures n <= |id|
  {
    if id != "" && '0' <= id[|id| - 1] <= '9' then 1 + TrailingDigits(id[..|id| - 1]) else 0
  }

  const Recheck := "-recheck-"

  /** The id of the check that was repeated first. */
  function BaseId(id: string): string {
    var end := |id| - TrailingDigits(id);
    if end < |id| && end >= |Recheck| && id[end - |Recheck|..end] == Recheck then id[..end - |Recheck|] else id
  }

  // --------------------------------------------------------------- sent back

  function Rewire(s: Step, old_: string, new_: string): Step {
    s.(dependsOn := seq(|s.dependsOn|, i requires 0 <= i < |s.dependsOn| =>
                          if s.dependsOn[i] == old_ then new_ else s.dependsOn[i]))
  }

  function RewireAll(steps: seq<Step>, old_: string, new_: string): seq<Step> {
    seq(|steps|, i requires 0 <= i < |steps| => Rewire(steps[i], old_, new_))
  }

  function FixStep(check: Step, id: string): Step {
    Step(id, Implementation, [check.id], Pending, false, SentBack, check.attempt, None)
  }

  function RecheckStep(check: Step, id: string, fixId: string): Step {
    Step(id, check.kind, [fixId], Pending, false, SentBack, check.attempt + 1, None)
  }

  function FixId(steps: seq<Step>, check: Step): string {
    UniqueId(IdSet(steps), BaseId(check.id) + "-fix-" + Decimal(check.attempt))
  }

  function RecheckId(steps: seq<Step>, check: Step): string {
    UniqueId(IdSet(steps) + {FixId(steps, check)}, BaseId(check.id) + Recheck + Decimal(check.attempt))
  }

  function Extended(steps: seq<Step>, check: Step): seq<Step> {
    RewireAll(steps, check.id, RecheckId(steps, check))
    + [FixStep(check, FixId(steps, check)), RecheckStep(check, RecheckId(steps, check), FixId(steps, check))]
  }

  /** A check failed: a fix and a repeated check are added, and everything that waited on the check waits on the repeated one. */
  function SendBack(run: Run, i: nat): Run
    requires i < |run.steps|
  {
    var check := run.steps[i];
    if check.attempt > run.maxFix then run.(error := true) else run.(steps := Extended(run.steps, check))
  }

  // ---------------------------------------------------------------- planning

  /** The ids that the planned steps are given. */
  function Names(taken: set<string>, planned: seq<Planned>): (names: seq<string>)
    ensures |names| == |planned|
    decreases |planned|
  {
    if planned == [] then []
    else
      var id := UniqueId(taken, planned[0].id);
      [id] + Names(taken + {id}, planned[1..])
  }

  function NameOf(planned: seq<Planned>, names: seq<string>, id: string): string
    requires |names| == |planned|
  {
    if planned == [] then "" else if planned[0].id == id then names[0] else NameOf(planned[1..], names[1..], id)
  }

  function NewStep(id: string, kind: Kind, dependsOn: seq<string>, origin: Origin): Step {
    Step(id, kind, dependsOn, Pending, false, origin, 1, None)
  }

  /** A planned step waits for the steps it names, and else for the planning step. */
  function NewDependencies(planned: seq<Planned>, names: seq<string>, p: Planned, plannerId: string): seq<string>
    requires |names| == |planned|
  {
    if p.dependsOn == [] then [plannerId]
    else seq(|p.dependsOn|, i requires 0 <= i < |p.dependsOn| => NameOf(planned, names, p.dependsOn[i]))
  }

  function PlannedSteps(planned: seq<Planned>, names: seq<string>, plannerId: string): seq<Step>
    requires |names| == |planned|
  {
    seq(|planned|, i requires 0 <= i < |planned| =>
          NewStep(names[i], planned[i].kind, NewDependencies(planned, names, planned[i], plannerId), Planner))
  }

  function OfKind(steps: seq<Step>, kind: Kind): seq<string> {
    if steps == [] then []
    else (if steps[0].kind == kind then [steps[0].id] else []) + OfKind(steps[1..], kind)
  }

  /** A plan that builds, but has no test, gets one behind all its builders. */
  function WithTest(taken: set<string>, added: seq<Step>): seq<Step> {
    if OfKind(added, Implementation) == [] || OfKind(added, Testing) != [] then added
    else added + [NewStep(UniqueId(taken, "test"), Testing, OfKind(added, Implementation), Guarantee)]
  }

  /** And if it has no review, one behind all its builders and tests. */
  function WithReview(taken: set<string>, added: seq<Step>): seq<Step> {
    if OfKind(added, Implementation) == [] || OfKind(added, Review) != [] then added
    else added + [NewStep(UniqueId(taken, "review"), Review,
                          OfKind(added, Implementation) + OfKind(added, Testing), Guarantee)]
  }

  function AddedSteps(steps: seq<Step>, plannerId: string, planned: seq<Planned>): seq<Step> {
    var added := PlannedSteps(planned, Names(IdSet(steps), planned), plannerId);
    var tested := WithTest(IdSet(steps) + IdSet(added), added);
    WithReview(IdSet(steps) + IdSet(tested), tested)
  }

  function Nodes(steps: seq<Step>): seq<StepOrder.Step> {
    seq(|steps|, i requires 0 <= i < |steps| => StepOrder.Step(steps[i].id, "", steps[i].dependsOn))
  }

  /** The plan with the planner's steps, unless its validation throws. */
  ghost function Expand(steps: seq<Step>, plannerId: string, planned: seq<Planned>): Option<seq<Step>> {
    var all := steps + AddedSteps(steps, plannerId, planned);
    if PlanGraph.Dag(Nodes(all)) then Some(all) else None
  }

  // --------------------------------------------------------------- reconcile

  predicate InProgress(s: Step) {
    s.state.Running? || (s.state.Blocked? && s.session)
  }

  function Put(run: Run, i: nat, s: Step): Run
    requires i < |run.steps|
  {
    run.(steps := run.steps[i := s])
  }

  /** A test or review gave its finding. */
  function Judge(run: Run, i: nat, finding: Option<bool>): Run
    requires i < |run.steps|
  {
    var step := run.steps[i];
    match finding
    case None => Put(run, i, step.(state := Failed))
    case Some(true) => Put(run, i, step.(state := Completed, passed := Some(true)))
    case Some(false) => SendBack(Put(run, i, step.(state := Completed, passed := Some(false))), i)
  }

  ghost function TakePlan(run: Run, i: nat, plan: Option<Plan>): Run
    requires i < |run.steps|
  {
    var step := run.steps[i];
    var done := Put(run, i, step.(state := Completed));
    var all := if plan.None? then None else Expand(done.steps, step.id, plan.value);
    if all.None? then Put(run, i, step.(state := Failed)) else run.(steps := all.value)
  }

  ghost function Finish(run: Run, i: nat, answer: Answer): Run
    requires i < |run.steps|
  {
    match run.steps[i].kind
    case Planning => TakePlan(run, i, answer.plan)
    case Testing => Judge(run, i, answer.testsPassed)
    case Review => Judge(run, i, answer.approved)
    case _ => Put(run, i, run.steps[i].(state := Completed))
  }

  /** One dispatched step is brought up to date with its session. */
  ghost function ReconcileOne(run: Run, i: nat, session: Session): Run
    requires i < |run.steps|
  {
    var step := run.steps[i];
    if !InProgress(step) || !step.session then run
    else
      match session
      case Missing => run
      case Waiting => run
      case Working => Put(run, i, step.(state := Running))
      case Stopped => Put(run, i, step.(state := Failed))
      case Finished(answer) => Finish(Put(run, i, step.(state := Running)), i, answer)
  }

  lemma FinishGrows(run: Run, i: nat, answer: Answer)
    requires i < |run.steps|
    ensures |Finish(run, i, answer).steps| >= |run.steps|
  {
  }

  lemma ReconcileGrows(run: Run, i: nat, session: Session)
    requires i < |run.steps|
    ensures |ReconcileOne(run, i, session).steps| >= |run.steps|
  {
    if session.Finished? {
      FinishGrows(Put(run, i, run.steps[i].(state := Running)), i, session.answer);
    }
  }

  /** Steps `i` to `n`; an error ends the round. */
  ghost function Reconciled(run: Run, world: World, i: nat, n: nat): Run
    requires i <= n <= |run.steps|
    decreases n - i
  {
    if i == n then run
    else
      ReconcileGrows(run, i, world.session(run.steps[i].id));
      var next := ReconcileOne(run, i, world.session(run.steps[i].id));
      if next.error then next else Reconciled(next, world, i + 1, n)
  }

  // ---------------------------------------------------------------- dispatch

  predicate Writes(kind: Kind) {
    kind.Implementation? || kind.General?
  }

  predicate IsCompleted(steps: seq<Step>, id: string) {
    exists s :: s in steps && s.id == id && s.state.Completed?
  }

  predicate Ready(steps: seq<Step>, s: Step) {
    s.state.Pending? && forall d :: d in s.dependsOn ==> IsCompleted(steps, d)
  }

  function Unblock(s: Step): Step {
    if s.state.Blocked? && !s.session then s.(state := Pending) else s
  }

  function Unblocked(steps: seq<Step>): seq<Step> {
    seq(|steps|, i requires 0 <= i < |steps| => Unblock(steps[i]))
  }

  function Started(s: Step, start: Start): Step {
    match start
    case NoAgent => s.(state := Blocked)
    case OverBudget => s.(state := Blocked)
    case Denied => s.(state := Failed, session := true)
    case NeedsApproval => s.(state := Blocked, session := true)
    case Offline => s.(state := Blocked, session := false)
    case Delivered => s.(state := Running, session := true)
  }

  predicate Builds(s: Step) {
    Writes(s.kind) && InProgress(s)
  }

  /** Starts the steps that were ready from `i` on; builders take turns. */
  function Dispatched(ready: seq<Step>, steps: seq<Step>, world: World, i: nat, busy: bool): (r: seq<Step>)
    requires i <= |ready| == |steps|
    ensures |r| == |steps|
    decreases |ready| - i
  {
    if i == |ready| then steps
    else if !Ready(ready, ready[i]) || (Writes(ready[i].kind) && busy) then Dispatched(ready, steps, world, i + 1, busy)
    else
      var s := Started(steps[i], world.start(steps[i].id));
      Dispatched(ready, steps[i := s], world, i + 1, busy || Builds(s))
  }

  function DispatchReady(steps: seq<Step>, world: World): (r: seq<Step>)
    ensures |r| == |steps|
  {
    Dispatched(steps, steps, world, 0, exists s :: s in steps && Builds(s))
  }

  // --------------------------------------------------------------- the moves

  function StateOf(steps: seq<Step>, error: bool): RunState {
    if error then Broken
    else if forall s :: s in steps ==> s.state.Completed? || s.state.Skipped? then Succeeded
    else if exists s :: s in steps && s.state.Failed? then Broken
    else if exists s :: s in steps && s.state.Blocked? && s.session then WaitingForApproval
    else Active
  }

  ghost function Advance(run: Run, world: World): Run {
    if Over(run.state) then run
    else
      var r := Reconciled(run, world, 0, |run.steps|);
      var steps := if r.error then r.steps else DispatchReady(Unblocked(r.steps), world);
      var state := StateOf(steps, r.error);
      Run(steps, r.maxFix, r.error || state.Broken?, state)
  }

  function CancelStep(s: Step): Step {
    if s.state.Pending? || (s.state.Blocked? && !s.session) then s.(state := Skipped)
    else if InProgress(s) && s.session then s.(state := Failed)
    else s
  }

  function CancelSteps(steps: seq<Step>): seq<Step> {
    seq(|steps|, i requires 0 <= i < |steps| => CancelStep(steps[i]))
  }

  function Cancel(run: Run): Run {
    if Over(run.state) then run else run.(steps := CancelSteps(run.steps), error := true, state := Cancelled)
  }

  /** The number of fix attempts; `None` if none is asked for, or no finite number. */
  function Clamp(wanted: Option<real>): nat {
    if wanted.None? then 2
    else if wanted.value.Floor < 0 then 0
    else if wanted.value.Floor > 5 then 5
    else wanted.value.Floor
  }

  function GivenSteps(given: seq<Planned>): seq<Step> {
    seq(|given|, i requires 0 <= i < |given| => NewStep(given[i].id, given[i].kind, given[i].dependsOn, Given))
  }

  /** A new run, before its first advance, unless its validation throws. */
  ghost function Create(given: seq<Planned>, maxFix: Option<real>): Option<Run> {
    if PlanGraph.Dag(Nodes(GivenSteps(given))) then Some(Run(GivenSteps(given), Clamp(maxFix), false, Created)) else None
  }
}
