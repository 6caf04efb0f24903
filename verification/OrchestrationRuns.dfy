/**
 What holds in every run of the orchestrator, whatever the sessions, the
 planner and the machines answer.
 */
module OrchestrationRuns {
  import opened Basics
  import opened Orchestration
  import opened OrchestrationGraph
  import opened OrchestrationPlanning
  import opened OrchestrationSteps
  import PlanGraph

  // ------------------------------------------------------------------ progress

  /** A step that a next round can go on with, or that waits for a machine. */
  predicate Moving(s: Step) {
    s.state.Running? || (s.state.Blocked? && !s.session)
  }

  /** A ready step is started, unless a builder is at work. */
  lemma {:induction false} ReadyIsTried(ready: seq<Step>, steps: seq<Step>, world: World, i: nat, busy: bool, j: nat)
    requires i <= |ready| == |steps| && j < |ready| && (forall k :: i <= k < |ready| ==> steps[k] == ready[k])
    requires busy ==> exists s :: s in steps && Builds(s)
    ensures var r := Dispatched(ready, steps, world, i, busy);
      && (busy ==> exists s :: s in r && Builds(s))
      && (j < i ==> r[j] == steps[j])
      && (j >= i && !Ready(ready, ready[j]) ==> r[j] == ready[j])
      && (j >= i && Ready(ready, ready[j]) && r[j].state.Pending? ==> exists s :: s in r && Builds(s))
    decreases |ready| - i
  {
    if i < |ready| {
      if !Ready(ready, ready[i]) || (Writes(ready[i].kind) && busy) {
        ReadyIsTried(ready, steps, world, i + 1, busy, j);
      } else {
        var s := Started(steps[i], world.start(steps[i].id));
        var next := steps[i := s];
        if busy || Builds(s) {
          StillBuilds(steps, i, s);
        }
        ReadyIsTried(ready, next, world, i + 1, busy || Builds(s), j);
        if j == i {
          assert Dispatched(ready, next, world, i + 1, busy || Builds(s))[j] == s;
        }
      }
    }
  }

  lemma StillBuilds(steps: seq<Step>, i: nat, s: Step)
    requires i < |steps| && !Builds(steps[i]) && (Builds(s) || exists x :: x in steps && Builds(x))
    ensures exists x :: x in steps[i := s] && Builds(x)
  {
    assert steps[i := s][i] == s;
    if !Builds(s) {
      var x :| x in steps && Builds(x);
      var k :| 0 <= k < |steps| && steps[k] == x;
      assert steps[i := s][k] == x;
    }
  }

  /** Of the steps that are not completed, one depends on completed ones only. */
  lemma {:induction false} FirstOpen(steps: seq<Step>, s: Step, rank: map<string, int>, bound: int) returns (first: Step)
    requires Formed(steps) && Ranked(steps, rank, bound) && s in steps && !s.state.Completed?
    ensures first in steps && !first.state.Completed?
    ensures forall d :: d in first.dependsOn ==> IsCompleted(steps, d)
    decreases if s.id in rank then rank[s.id] else 0
  {
    if d :| d in s.dependsOn && !IsCompleted(steps, d) {
      var t :| t in steps && t.id == d;
      first := FirstOpen(steps, t, rank, bound);
    } else {
      first := s;
    }
  }

  lemma CompletedBefore(a: seq<Step>, b: seq<Step>, id: string)
    requires SamePlan(a, b) && IsCompleted(b, id)
    ensures IsCompleted(a, id)
  {
    var s :| s in b && s.id == id && s.state.Completed?;
    var i :| 0 <= i < |b| && b[i] == s;
    assert a[i] in a;
  }

  lemma {:induction false} DispatchedIsSamePlan(ready: seq<Step>, steps: seq<Step>, world: World, i: nat, busy: bool)
    requires i <= |ready| == |steps| && (forall k :: i <= k < |ready| ==> steps[k] == ready[k]) && SamePlan(ready, steps)
    ensures SamePlan(ready, Dispatched(ready, steps, world, i, busy))
    decreases |ready| - i
  {
    if i < |ready| {
      if !Ready(ready, ready[i]) || (Writes(ready[i].kind) && busy) {
        DispatchedIsSamePlan(ready, steps, world, i + 1, busy);
      } else {
        var s := Started(steps[i], world.start(steps[i].id));
        DispatchedIsSamePlan(ready, steps[i := s], world, i + 1, busy || Builds(s));
      }
    }
  }

  predicate NoneSkipped(steps: seq<Step>) {
    forall s :: s in steps ==> !s.state.Skipped?
  }

  /** A step that stayed pending was not ready, or a builder is at work. */
  lemma PendingWaits(steps: seq<Step>, world: World, j: nat)
    requires j < |steps| && DispatchReady(steps, world)[j].state.Pending?
    requires forall d :: d in steps[j].dependsOn ==> IsCompleted(steps, d)
    ensures exists s :: s in DispatchReady(steps, world) && Builds(s)
  {
    ReadyIsTried(steps, steps, world, 0, exists s :: s in steps && Builds(s), j);
  }

  /** What the state says of a step that stands behind completed ones only. */
  lemma FirstOpenMoves(steps: seq<Step>, world: World, s: Step)
    requires var r := DispatchReady(steps, world);
      && SamePlan(steps, r) && s in r && !s.state.Completed? && !s.state.Skipped?
      && (forall d :: d in s.dependsOn ==> IsCompleted(r, d)) && StateOf(r, false) == Active
    ensures exists x :: x in DispatchReady(steps, world) && Moving(x)
  {
    var r := DispatchReady(steps, world);
    var j :| 0 <= j < |r| && r[j] == s;
    if s.state.Pending? {
      forall d | d in steps[j].dependsOn ensures IsCompleted(steps, d) {
        CompletedBefore(steps, r, d);
      }
      PendingWaits(steps, world, j);
      var x :| x in r && Builds(x);
      assert Moving(x);
    } else {
      assert Moving(s);
    }
  }

  /** After a round that leaves the run active, some step is running or waits for a machine. */
  lemma SomethingMoves(steps: seq<Step>, world: World)
    requires ValidPlan(steps) && NoneSkipped(DispatchReady(steps, world))
    requires StateOf(DispatchReady(steps, world), false) == Active
    ensures exists s :: s in DispatchReady(steps, world) && Moving(s)
  {
    var r := DispatchReady(steps, world);
    DispatchedIsSamePlan(steps, steps, world, 0, exists s :: s in steps && Builds(s));
    SamePlanIsValid(steps, r);
    ValidIffRankable(r);
    var rank, bound :| Ranked(r, rank, bound);
    var open :| open in r && !(open.state.Completed? || open.state.Skipped?);
    var s := FirstOpen(r, open, rank, bound);
    FirstOpenMoves(steps, world, s);
  }

  // ----------------------------------------------------------------- the moves

  datatype Move = Advancing(world: World) | Cancelling

  ghost function Moved(run: Run, move: Move): Run {
    if move.Advancing? then Advance(run, move.world) else Cancel(run)
  }

  ghost function After(run: Run, moves: seq<Move>): Run
    decreases |moves|
  {
    if moves == [] then run else After(Moved(run, moves[0]), moves[1..])
  }

  /** What the state of a run says. */
  ghost predicate StateOk(run: Run) {
    && (!Over(run.state) ==> !run.error)
    && (!run.state.Cancelled? ==> NoneSkipped(run.steps))
    && (run.state.Succeeded? ==> !run.error && forall s :: s in run.steps ==> s.state.Completed?)
    && (run.state.Active? ==> exists s :: s in run.steps && Moving(s))
  }

  lemma ErrorKeepsOrder(steps: seq<Step>, error: bool)
    requires AllInOrder(steps, error)
    ensures AllInOrder(steps, true)
  {
    forall s, t | s in steps && t in steps && t.id in s.dependsOn ensures InOrder(s, t, true) {
      assert InOrder(s, t, error);
    }
  }

  lemma PutSkipsNone(run: Run, i: nat, s: Step)
    requires i < |run.steps| && NoneSkipped(run.steps) && !s.state.Skipped?
    ensures NoneSkipped(Put(run, i, s).steps)
  {
    forall x | x in run.steps[i := s] ensures !x.state.Skipped? {
      InPut(run.steps, i, s, x);
    }
  }

  lemma SendBackSkipsNone(run: Run, i: nat)
    requires i < |run.steps| && NoneSkipped(run.steps)
    ensures NoneSkipped(SendBack(run, i).steps)
  {
    var check := run.steps[i];
    forall s | s in SendBack(run, i).steps ensures !s.state.Skipped? {
      if check.attempt <= run.maxFix {
        InExtended(run.steps, check, s);
      }
    }
  }

  lemma FinishSkipsNone(run: Run, i: nat, answer: Answer)
    requires i < |run.steps| && NoneSkipped(run.steps)
    ensures NoneSkipped(Finish(run, i, answer).steps)
  {
    var step := run.steps[i];
    PutSkipsNone(run, i, step.(state := Completed));
    PutSkipsNone(run, i, step.(state := Failed));
    PutSkipsNone(run, i, step.(state := Completed, passed := Some(true)));
    PutSkipsNone(run, i, step.(state := Completed, passed := Some(false)));
    SendBackSkipsNone(Put(run, i, step.(state := Completed, passed := Some(false))), i);
    if step.kind.Planning? && answer.plan.Some? {
      var done := Put(run, i, step.(state := Completed));
      forall s | s in AddedSteps(done.steps, step.id, answer.plan.value) ensures !s.state.Skipped? {
        NewStepsArePending(done.steps, step.id, answer.plan.value, s);
      }
    }
  }

  lemma ReconcileOneSkipsNone(run: Run, i: nat, session: Session)
    requires i < |run.steps| && NoneSkipped(run.steps)
    ensures NoneSkipped(ReconcileOne(run, i, session).steps)
  {
    var step := run.steps[i];
    PutSkipsNone(run, i, step.(state := Running));
    PutSkipsNone(run, i, step.(state := Failed));
    if session.Finished? {
      FinishSkipsNone(Put(run, i, step.(state := Running)), i, session.answer);
    }
  }

  lemma ReconciledSkipsNone(run: Run, world: World)
    requires NoneSkipped(run.steps) && !run.error
    ensures NoneSkipped(Reconciled(run, world, 0, |run.steps|).steps)
  {
    var keeps := (r: Run) => NoneSkipped(r.steps);
    forall r: Run, i: nat, session: Session | i < |r.steps| && keeps(r) && !r.error
      ensures keeps(ReconcileOne(r, i, session))
    {
      ReconcileOneSkipsNone(r, i, session);
    }
    ReconciledKeeps(keeps, run, world, 0, |run.steps|);
  }

  lemma {:induction false} DispatchSkipsNone(ready: seq<Step>, steps: seq<Step>, world: World, i: nat, busy: bool)
    requires i <= |ready| == |steps| && NoneSkipped(steps)
    ensures NoneSkipped(Dispatched(ready, steps, world, i, busy))
    decreases |ready| - i
  {
    if i < |ready| {
      if !Ready(ready, ready[i]) || (Writes(ready[i].kind) && busy) {
        DispatchSkipsNone(ready, steps, world, i + 1, busy);
      } else {
        var s := Started(steps[i], world.start(steps[i].id));
        forall x | x in steps[i := s] ensures !x.state.Skipped? {
          InPut(steps, i, s, x);
        }
        DispatchSkipsNone(ready, steps[i := s], world, i + 1, busy || Builds(s));
      }
    }
  }

  /** What is left when a round has been reconciled without an error. */
  lemma DispatchKeepsOk(run: Run, world: World)
    requires RunOk(run) && !run.error && NoneSkipped(run.steps)
    ensures RunOk(run.(steps := DispatchReady(Unblocked(run.steps), world)))
    ensures NoneSkipped(DispatchReady(Unblocked(run.steps), world))
  {
    var waiting := run.(steps := Unblocked(run.steps));
    UnblockedKeepsOk(run);
    forall s | s in waiting.steps ensures !s.state.Skipped? {
      var i :| 0 <= i < |waiting.steps| && waiting.steps[i] == s;
      assert run.steps[i] in run.steps;
    }
    var busy := exists s :: s in waiting.steps && Builds(s);
    DispatchedKeepsOk(waiting.steps, waiting, world, 0, busy);
    DispatchSkipsNone(waiting.steps, waiting.steps, world, 0, busy);
  }

  lemma AdvanceKeepsOk(run: Run, world: World)
    requires RunOk(run) && StateOk(run)
    ensures RunOk(Advance(run, world)) && StateOk(Advance(run, world))
  {
    if !Over(run.state) {
      var n := |run.steps|;
      var r := Reconciled(run, world, 0, n);
      ReconciledKeepsOk(run, world);
      ReconciledSkipsNone(run, world);
      if r.error {
        ErrorKeepsOrder(r.steps, true);
      } else {
        DispatchKeepsOk(r, world);
        var steps := DispatchReady(Unblocked(r.steps), world);
        ErrorKeepsOrder(steps, false);
        if StateOf(steps, false) == Active {
          UnblockedKeepsOk(r);
          SomethingMoves(Unblocked(r.steps), world);
        }
      }
    }
  }

  lemma CancelKeepsOk(run: Run)
    requires RunOk(run) && StateOk(run)
    ensures RunOk(Cancel(run)) && StateOk(Cancel(run))
  {
    var steps := CancelSteps(run.steps);
    SamePlanIsValid(run.steps, steps);
    SamePlanInOrder(run.steps, steps, run.error);
    ErrorKeepsOrder(steps, run.error);
    forall s | s in steps ensures StepOk(s, run.maxFix) {
      var i :| 0 <= i < |steps| && steps[i] == s;
      assert run.steps[i] in run.steps;
    }
  }

  lemma {:induction false} AfterIsOk(run: Run, moves: seq<Move>)
    requires RunOk(run) && StateOk(run)
    ensures RunOk(After(run, moves)) && StateOk(After(run, moves))
    decreases |moves|
  {
    if moves != [] {
      if moves[0].Advancing? {
        AdvanceKeepsOk(run, moves[0].world);
      } else {
        CancelKeepsOk(run);
      }
      AfterIsOk(Moved(run, moves[0]), moves[1..]);
    }
  }

  lemma CreatedIsOk(given: seq<Planned>, maxFix: Option<real>)
    requires Create(given, maxFix).Some?
    ensures RunOk(Create(given, maxFix).value) && StateOk(Create(given, maxFix).value)
  {
    var steps := GivenSteps(given);
    forall s | s in steps ensures s.state.Pending? && s.attempt == 1 {
      var i :| 0 <= i < |steps| && steps[i] == s;
    }
    assert forall i :: 0 <= i < |steps| ==> steps[i] in steps;
  }

  /** A run that was created and moved any number of times. */
  ghost predicate Reached(run: Run) {
    exists given, maxFix, moves :: Create(given, maxFix).Some? && run == After(Create(given, maxFix).value, moves)
  }

  lemma ReachedIsOk(run: Run)
    requires Reached(run)
    ensures RunOk(run) && StateOk(run)
  {
    var given, maxFix, moves :| Create(given, maxFix).Some? && run == After(Create(given, maxFix).value, moves);
    CreatedIsOk(given, maxFix);
    AfterIsOk(Create(given, maxFix).value, moves);
  }

  // ------------------------------------------------------------- main results

  /** In every run the plan stays free of cycles, with unique ids and known dependencies, however it extended itself. */
  lemma PlansStayAcyclic(run: Run)
    requires Reached(run)
    ensures PlanGraph.Dag(Nodes(run.steps))
  {
    ReachedIsOk(run);
  }

  /**
   In every run, a step was started only when all it depends on was completed,
   and every test and review among that had passed, unless it is the fix of one.
   */
  lemma NothingStartsEarly(run: Run, s: Step, t: Step)
    requires Reached(run) && s in run.steps && t in run.steps && t.id in s.dependsOn && Begun(s)
    ensures t.state.Completed? && (IsCheck(t) ==> t.passed == Some(true) || IsFix(s))
  {
    ReachedIsOk(run);
    assert InOrder(s, t, run.error);
  }

  /** In every run at most one step that may write is in progress. */
  lemma BuildersTakeTurns(run: Run, i: nat, j: nat)
    requires Reached(run) && i < j < |run.steps|
    ensures !(Builds(run.steps[i]) && Builds(run.steps[j]))
  {
    ReachedIsOk(run);
  }

  /** A run that is shown as running has a step that runs, or one that waits for a machine to start it. */
  lemma NeverStuck(run: Run)
    requires Reached(run) && run.state.Active?
    ensures exists s :: s in run.steps && Moving(s)
  {
    ReachedIsOk(run);
  }

  lemma {:induction false} EndsWithPass(run: Run, c: Step) returns (r: Step)
    requires RunOk(run) && !run.error && (forall s :: s in run.steps ==> s.state.Completed?)
    requires c in run.steps && IsCheck(c)
    ensures r in run.steps && r.kind == c.kind && r.passed == Some(true) && (r == c || WaitsFor(run.steps, r.id, c.id))
    decreases run.maxFix + 1 - c.attempt
  {
    assert StepOk(c, run.maxFix);
    r := c;
    if Unpassed(c) {
      assert Repeated(run.steps, c);
      var f, next :| f in run.steps && next in run.steps && RepeatedBy(c, f, next);
      assert StepOk(next, run.maxFix);
      DirectWait(run.steps, f, c.id);
      DirectWait(run.steps, next, f.id);
      WaitsTransitively(run.steps, next.id, f.id, c.id);
      r := EndsWithPass(run, next);
      if r != next {
        WaitsTransitively(run.steps, r.id, next.id, c.id);
      }
    }
  }

  /** A run succeeds only when every test and review has passed, or been followed by one of its kind that did. */
  lemma SuccessIsChecked(run: Run, c: Step) returns (r: Step)
    requires Reached(run) && run.state.Succeeded? && c in run.steps && IsCheck(c)
    ensures r in run.steps && r.kind == c.kind && r.state.Completed? && r.passed == Some(true)
    ensures r == c || WaitsFor(run.steps, r.id, c.id)
  {
    ReachedIsOk(run);
    r := EndsWithPass(run, c);
  }
}
