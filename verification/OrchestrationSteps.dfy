/** What each part of a round of the orchestrator keeps: reconciling, sending back, planning and dispatching. */
module OrchestrationSteps {
  import opened Basics
  import opened Orchestration
  import opened OrchestrationGraph
  import opened OrchestrationPlanning
  import PlanGraph

  // ------------------------------------------------------------------ invariant

  predicate IsCheck(s: Step) {
    s.kind.Testing? || s.kind.Review?
  }

  predicate IsFix(s: Step) {
    s.origin.SentBack? && s.kind.Implementation?
  }

  /** The step was started, or at least tried with a session. */
  predicate Begun(s: Step) {
    s.state.Running? || s.state.Completed? || s.state.Failed? || (s.state.Blocked? && s.session)
  }

  predicate Unpassed(t: Step) {
    t.state.Completed? && IsCheck(t) && t.passed != Some(true)
  }

  /** How a step may stand to one it depends on. */
  predicate InOrder(s: Step, t: Step, error: bool) {
    && (Begun(s) ==> t.state.Completed?)
    && (Unpassed(t) && !IsFix(s) ==> error && !Begun(s))
  }

  ghost predicate AllInOrder(steps: seq<Step>, error: bool) {
    forall s, t :: s in steps && t in steps && t.id in s.dependsOn ==> InOrder(s, t, error)
  }

  /** `f` fixes what check `c` found, and `r` checks again. */
  predicate RepeatedBy(c: Step, f: Step, r: Step) {
    f.dependsOn == [c.id] && r.dependsOn == [f.id] && f.kind == Implementation && r.kind == c.kind && r.attempt == c.attempt + 1
  }

  ghost predicate Repeated(steps: seq<Step>, c: Step) {
    exists f, r :: f in steps && r in steps && RepeatedBy(c, f, r)
  }

  /** Each failed check has its fix and its repetition, unless the attempts are used up. */
  ghost predicate FailuresRepeated(steps: seq<Step>, error: bool) {
    !error ==> forall c :: c in steps && Unpassed(c) ==> Repeated(steps, c)
  }

  /** Builders take turns. */
  ghost predicate OneBuilder(steps: seq<Step>) {
    forall i, j :: 0 <= i < j < |steps| ==> !(Builds(steps[i]) && Builds(steps[j]))
  }

  predicate StepOk(s: Step, maxFix: nat) {
    s.attempt <= maxFix + 1 && (s.state.Running? ==> s.session)
  }

  ghost predicate RunOk(run: Run) {
    && ValidPlan(run.steps)
    && AllInOrder(run.steps, run.error)
    && FailuresRepeated(run.steps, run.error)
    && OneBuilder(run.steps)
    && forall s :: s in run.steps ==> StepOk(s, run.maxFix)
  }

  // ----------------------------------------------------- a change of one step

  predicate SameNode(a: Step, b: Step) {
    a.id == b.id && a.dependsOn == b.dependsOn && a.kind == b.kind && a.origin == b.origin && a.attempt == b.attempt
  }

  lemma PutKeepsValid(steps: seq<Step>, i: nat, s: Step)
    requires i < |steps| && SameNode(steps[i], s) && ValidPlan(steps)
    ensures ValidPlan(steps[i := s])
  {
    assert Nodes(steps[i := s]) == Nodes(steps);
  }

  lemma InPut(steps: seq<Step>, i: nat, s: Step, x: Step)
    requires i < |steps|
    ensures x in steps[i := s] <==> x == s || exists j :: 0 <= j < |steps| && j != i && steps[j] == x
  {
    var r := steps[i := s];
    if x in r {
      var j :| 0 <= j < |r| && r[j] == x;
    }
    if x == s {
      assert r[i] == x;
    }
    if exists j :: 0 <= j < |steps| && j != i && steps[j] == x {
      var j :| 0 <= j < |steps| && j != i && steps[j] == x;
      assert r[j] == x;
    }
  }

  /** The step may be started: all it depends on is completed, and passed. */
  ghost predicate Clear(steps: seq<Step>, s: Step) {
    forall t :: t in steps && t.id in s.dependsOn ==> t.state.Completed? && (Unpassed(t) ==> IsFix(s))
  }

  lemma PutKeepsOrder(steps: seq<Step>, error: bool, i: nat, s: Step)
    requires i < |steps| && SameNode(steps[i], s) && AllInOrder(steps, error)
    requires !steps[i].state.Completed? && !Unpassed(s)
    requires Begun(s) ==> Begun(steps[i]) || Clear(steps, steps[i])
    ensures AllInOrder(steps[i := s], error)
  {
    var r, o := steps[i := s], steps[i];
    forall x, t | x in r && t in r && t.id in x.dependsOn ensures InOrder(x, t, error) {
      InPut(steps, i, s, x);
      InPut(steps, i, s, t);
      var x0 := if x == s then o else x;
      var t0 := if t == s then o else t;
      assert x0 in steps && t0 in steps;
      assert InOrder(x0, t0, error);
    }
  }

  /** The fixes and repetitions of completed checks are where they were. */
  lemma RepeatedKept(steps: seq<Step>, i: nat, s: Step, c: Step)
    requires i < |steps| && SameNode(steps[i], s) && Repeated(steps, c)
    ensures Repeated(steps[i := s], c)
  {
    var f, r :| f in steps && r in steps && RepeatedBy(c, f, r);
    var all := steps[i := s];
    var j :| 0 <= j < |steps| && steps[j] == f;
    var k :| 0 <= k < |steps| && steps[k] == r;
    assert all[j] in all && all[k] in all;
  }

  lemma PutKeepsRepeated(steps: seq<Step>, error: bool, i: nat, s: Step)
    requires i < |steps| && SameNode(steps[i], s) && FailuresRepeated(steps, error) && !Unpassed(s)
    ensures FailuresRepeated(steps[i := s], error)
  {
    var r := steps[i := s];
    forall c | !error && c in r && Unpassed(c) ensures Repeated(r, c) {
      InPut(steps, i, s, c);
      RepeatedKept(steps, i, s, c);
    }
  }

  lemma PutKeepsBuilder(steps: seq<Step>, i: nat, s: Step)
    requires i < |steps| && OneBuilder(steps) && (Builds(s) ==> Builds(steps[i]))
    ensures OneBuilder(steps[i := s])
  {
  }

  lemma PutKeepsSteps(run: Run, i: nat, s: Step)
    requires i < |run.steps| && SameNode(run.steps[i], s) && (s.state.Running? ==> s.session)
    requires forall x :: x in run.steps ==> StepOk(x, run.maxFix)
    ensures forall x :: x in run.steps[i := s] ==> StepOk(x, run.maxFix)
  {
    assert run.steps[i] in run.steps;
    forall x | x in run.steps[i := s] ensures StepOk(x, run.maxFix) {
      InPut(run.steps, i, s, x);
    }
  }

  /** A step changes, without starting to build. */
  lemma PutKeepsOk(run: Run, i: nat, s: Step)
    requires i < |run.steps| && SameNode(run.steps[i], s) && RunOk(run) && (s.state.Running? ==> s.session)
    requires !run.steps[i].state.Completed? && !Unpassed(s) && (Builds(s) ==> Builds(run.steps[i]))
    requires Begun(s) ==> Begun(run.steps[i]) || Clear(run.steps, run.steps[i])
    ensures RunOk(Put(run, i, s))
  {
    PutKeepsValid(run.steps, i, s);
    PutKeepsOrder(run.steps, run.error, i, s);
    PutKeepsRepeated(run.steps, run.error, i, s);
    PutKeepsBuilder(run.steps, i, s);
    PutKeepsSteps(run, i, s);
  }

  // -------------------------------------------------------- a check that fails

  /** The attempts are used up: the run ends with an error. */
  lemma GiveUpKeepsOrder(steps: seq<Step>, error: bool, i: nat, s: Step)
    requires i < |steps| && SameNode(steps[i], s) && AllInOrder(steps, error)
    requires !steps[i].state.Completed? && Begun(steps[i])
    ensures AllInOrder(steps[i := s], true)
  {
    var r, o := steps[i := s], steps[i];
    forall x, t | x in r && t in r && t.id in x.dependsOn ensures InOrder(x, t, true) {
      InPut(steps, i, s, x);
      InPut(steps, i, s, t);
      var x0 := if x == s then o else x;
      var t0 := if t == s then o else t;
      assert x0 in steps && t0 in steps;
      assert InOrder(x0, t0, error);
    }
  }

  /**
   Nothing that waited on the check was started, and now it all waits on the
   repeated check.
   */
  lemma ExtendedInOrder(steps: seq<Step>, check: Step)
    requires Formed(steps) && check in steps && check.state.Completed?
    requires forall s, t :: s in steps && t in steps && t.id in s.dependsOn && t != check ==> InOrder(s, t, false)
    requires forall s :: s in steps && check.id in s.dependsOn ==> !Begun(s)
    ensures AllInOrder(Extended(steps, check), false)
  {
    var all, fix, recheck := Extended(steps, check), FixId(steps, check), RecheckId(steps, check);
    IdsOfExtended(steps, check);
    forall s, t | s in all && t in all && t.id in s.dependsOn ensures InOrder(s, t, false) {
      InExtended(steps, check, s);
      InExtended(steps, check, t);
      if s == FixStep(check, fix) || s == RecheckStep(check, recheck, fix) {
        if t.id == check.id {
          assert IsFix(s) && !Begun(s);
        } else {
          assert t.id == fix && t == FixStep(check, fix);
        }
      } else {
        var o :| o in steps && s == Rewire(o, check.id, recheck);
        RewiredDependencies(o, check.id, recheck, t.id);
        RewiredInOrder(steps, check, o, t);
      }
    }
  }

  lemma RewiredInOrder(steps: seq<Step>, check: Step, o: Step, t: Step)
    requires Formed(steps) && check in steps && o in steps && t in Extended(steps, check)
    requires forall s, t :: s in steps && t in steps && t.id in s.dependsOn && t != check ==> InOrder(s, t, false)
    requires check.id in o.dependsOn ==> !Begun(o)
    requires t.id in Rewire(o, check.id, RecheckId(steps, check)).dependsOn
    ensures InOrder(Rewire(o, check.id, RecheckId(steps, check)), t, false)
  {
    var fix, recheck := FixId(steps, check), RecheckId(steps, check);
    IdsOfExtended(steps, check);
    InExtended(steps, check, t);
    RewiredDependencies(o, check.id, recheck, t.id);
    if t.id in IdSet(steps) {
      var t0 :| t0 in steps && t == Rewire(t0, check.id, recheck);
      assert InOrder(o, t0, false);
    } else {
      assert t == RecheckStep(check, recheck, fix);
    }
  }

  lemma CheckRepeated(steps: seq<Step>, check: Step)
    ensures Repeated(Extended(steps, check), Rewire(check, check.id, RecheckId(steps, check)))
  {
    var all, fix, recheck := Extended(steps, check), FixId(steps, check), RecheckId(steps, check);
    var f, r := all[|steps|], all[|steps| + 1];
    assert f in all && r in all && f == FixStep(check, fix) && r == RecheckStep(check, recheck, fix);
    assert RepeatedBy(Rewire(check, check.id, recheck), f, r);
  }

  lemma ExtendedRepeats(steps: seq<Step>, check: Step, c: Step)
    requires Formed(steps) && check in steps && c in Extended(steps, check) && Unpassed(c) && IsCheck(check)
    requires forall d :: d in steps && Unpassed(d) && d != check ==> Repeated(steps, d)
    ensures Repeated(Extended(steps, check), c)
  {
    var recheck := RecheckId(steps, check);
    InExtended(steps, check, c);
    var o :| o in steps && c == Rewire(o, check.id, recheck);
    if o == check {
      CheckRepeated(steps, check);
    } else {
      assert c.id != check.id by {
        if c.id == check.id {
          OneWithId(steps, o, check);
        }
      }
      OldRepeated(steps, check, o);
    }
  }

  lemma OldRepeated(steps: seq<Step>, check: Step, o: Step)
    requires Formed(steps) && check in steps && IsCheck(check) && Repeated(steps, o) && o.id != check.id
    ensures Repeated(Extended(steps, check), Rewire(o, check.id, RecheckId(steps, check)))
  {
    var all, recheck := Extended(steps, check), RecheckId(steps, check);
    var f, r :| f in steps && r in steps && RepeatedBy(o, f, r);
    if f.id == check.id {
      OneWithId(steps, f, check);
    }
    StaysUnrewired(steps, check, f, o.id);
    StaysUnrewired(steps, check, r, f.id);
  }

  lemma StaysUnrewired(steps: seq<Step>, check: Step, s: Step, d: string)
    requires s in steps && s.dependsOn == [d] && d != check.id
    ensures s in Extended(steps, check)
  {
    var i :| 0 <= i < |steps| && steps[i] == s;
    var r := Rewire(s, check.id, RecheckId(steps, check));
    assert r.dependsOn == s.dependsOn;
    assert Extended(steps, check)[i] == r;
  }

  lemma ExtendedBuilders(steps: seq<Step>, check: Step)
    requires OneBuilder(steps)
    ensures OneBuilder(Extended(steps, check))
  {
    var all, n := Extended(steps, check), |steps|;
    forall i, j | 0 <= i < j < |all| ensures !(Builds(all[i]) && Builds(all[j])) {
      if j < n {
        assert Builds(all[i]) == Builds(steps[i]) && Builds(all[j]) == Builds(steps[j]);
      } else {
        assert !Builds(all[j]);
      }
    }
  }

  /** The plan with the finding of a check that failed. */
  lemma FailedCheckInOrder(run: Run, i: nat, failed: Step)
    requires i < |run.steps| && RunOk(run) && !run.error && run.steps[i].state.Running?
    requires SameNode(run.steps[i], failed) && failed.state.Completed?
    ensures var steps := run.steps[i := failed];
      && (forall s, t :: s in steps && t in steps && t.id in s.dependsOn && t != failed ==> InOrder(s, t, false))
      && forall s :: s in steps && failed.id in s.dependsOn ==> !Begun(s)
  {
    var steps, check := run.steps[i := failed], run.steps[i];
    forall s, t | s in steps && t in steps && t.id in s.dependsOn && t != failed ensures InOrder(s, t, false) {
      InPut(run.steps, i, failed, s);
      InPut(run.steps, i, failed, t);
      assert InOrder(if s == failed then check else s, t, false);
    }
    ValidIffRankable(run.steps);
    forall s | s in steps && failed.id in s.dependsOn ensures !Begun(s) {
      InPut(run.steps, i, failed, s);
      assert check in run.steps;
      assert InOrder(if s == failed then check else s, check, false);
    }
  }

  lemma ExtendedRepeatsAll(run: Run, i: nat, failed: Step)
    requires i < |run.steps| && RunOk(run) && !run.error && IsCheck(run.steps[i])
    requires SameNode(run.steps[i], failed)
    ensures FailuresRepeated(Extended(run.steps[i := failed], failed), false)
  {
    var steps := run.steps[i := failed];
    PutKeepsValid(run.steps, i, failed);
    ValidIffRankable(steps);
    assert steps[i] == failed && failed in steps;
    forall c | c in steps && Unpassed(c) && c != failed ensures Repeated(steps, c) {
      InPut(run.steps, i, failed, c);
      RepeatedKept(run.steps, i, failed, c);
    }
    forall c | c in Extended(steps, failed) && Unpassed(c) ensures Repeated(Extended(steps, failed), c) {
      ExtendedRepeats(steps, failed, c);
    }
  }

  lemma ExtendedSteps(steps: seq<Step>, check: Step, maxFix: nat)
    requires check.attempt <= maxFix && forall s :: s in steps ==> StepOk(s, maxFix)
    ensures forall s :: s in Extended(steps, check) ==> StepOk(s, maxFix)
  {
    forall s | s in Extended(steps, check) ensures StepOk(s, maxFix) {
      InExtended(steps, check, s);
    }
  }

  lemma SentBackIsOk(run: Run, i: nat, failed: Step)
    requires i < |run.steps| && RunOk(run) && !run.error && run.steps[i].state.Running? && IsCheck(run.steps[i])
    requires SameNode(run.steps[i], failed) && failed.state.Completed? && failed.attempt <= run.maxFix
    ensures RunOk(SendBack(Put(run, i, failed), i))
  {
    var steps := run.steps[i := failed];
    PutKeepsValid(run.steps, i, failed);
    ValidIffRankable(steps);
    assert steps[i] == failed && failed in steps;
    SendBackKeepsValid(Put(run, i, failed), i);
    FailedCheckInOrder(run, i, failed);
    ExtendedInOrder(steps, failed);
    ExtendedRepeatsAll(run, i, failed);
    PutKeepsBuilder(run.steps, i, failed);
    ExtendedBuilders(steps, failed);
    PutKeepsSteps(run, i, failed);
    ExtendedSteps(steps, failed, run.maxFix);
  }

  lemma JudgeKeepsOk(run: Run, i: nat, finding: Option<bool>)
    requires i < |run.steps| && RunOk(run) && !run.error && run.steps[i].state.Running? && IsCheck(run.steps[i])
    ensures RunOk(Judge(run, i, finding))
  {
    var step := run.steps[i];
    match finding
    case None => PutKeepsOk(run, i, step.(state := Failed));
    case Some(true) => PutKeepsOk(run, i, step.(state := Completed, passed := Some(true)));
    case Some(false) =>
      var failed := step.(state := Completed, passed := Some(false));
      if step.attempt <= run.maxFix {
        SentBackIsOk(run, i, failed);
      } else {
        PutKeepsValid(run.steps, i, failed);
        GiveUpKeepsOrder(run.steps, false, i, failed);
        PutKeepsBuilder(run.steps, i, failed);
        PutKeepsSteps(run, i, failed);
      }
  }

  // ------------------------------------------------------------ a plan arrives

  lemma NewStepsArePending(steps: seq<Step>, plannerId: string, planned: seq<Planned>, s: Step)
    requires s in AddedSteps(steps, plannerId, planned)
    ensures s.state.Pending? && s.attempt == 1
  {
    var block := Block(steps, plannerId, planned);
    var more := AddedShape(steps, plannerId, planned);
    if s in block {
      var i :| 0 <= i < |block| && block[i] == s;
    }
  }

  lemma ExpandedInOrder(steps: seq<Step>, planner: Step, planned: seq<Planned>)
    requires Formed(steps) && planner in steps && planner.kind.Planning? && Parsed(planned) && AllInOrder(steps, false)
    requires Formed(steps + AddedSteps(steps, planner.id, planned))
    ensures AllInOrder(steps + AddedSteps(steps, planner.id, planned), false)
  {
    var added := AddedSteps(steps, planner.id, planned);
    var all := steps + added;
    forall s, t | s in all && t in all && t.id in s.dependsOn ensures InOrder(s, t, false) {
      if s in steps {
        var t0 :| t0 in steps && t0.id == t.id;
        OneWithId(all, t, t0);
      } else {
        NewStepsArePending(steps, planner.id, planned, s);
        if t in added {
          NewStepsArePending(steps, planner.id, planned, t);
        } else {
          NewStepWaits(steps, planner.id, planned, s);
          DependencyIsPlanner(steps, planner, added, t);
        }
      }
    }
  }

  lemma DependencyIsPlanner(steps: seq<Step>, planner: Step, added: seq<Step>, t: Step)
    requires Formed(steps + added) && planner in steps && t in steps && (t.id == planner.id || t.id in IdSet(added))
    ensures t == planner || t in added
  {
    if t.id == planner.id {
      OneWithId(steps + added, t, planner);
    } else {
      var a :| a in added && a.id == t.id;
      OneWithId(steps + added, t, a);
    }
  }

  lemma RepeatedInMore(steps: seq<Step>, more: seq<Step>, c: Step)
    requires Repeated(steps, c)
    ensures Repeated(steps + more, c)
  {
    var f, r :| f in steps && r in steps && RepeatedBy(c, f, r);
    assert f in steps + more && r in steps + more;
  }

  lemma PendingDoNotBuild(steps: seq<Step>, more: seq<Step>)
    requires OneBuilder(steps) && forall s :: s in more ==> s.state.Pending?
    ensures OneBuilder(steps + more)
  {
    var all := steps + more;
    forall i, j | 0 <= i < j < |all| ensures !(Builds(all[i]) && Builds(all[j])) {
      if j >= |steps| {
        assert all[j] == more[j - |steps|] && all[j] in more;
      }
    }
  }

  lemma ExpandKeepsOk(run: Run, planner: Step, planned: seq<Planned>)
    requires RunOk(run) && !run.error && planner in run.steps && planner.kind.Planning? && Parsed(planned)
    requires Expand(run.steps, planner.id, planned).Some?
    ensures RunOk(run.(steps := Expand(run.steps, planner.id, planned).value))
  {
    var added := AddedSteps(run.steps, planner.id, planned);
    var all := run.steps + added;
    ValidIffRankable(run.steps);
    ValidIffRankable(all);
    ExpandedInOrder(run.steps, planner, planned);
    forall s | s in added ensures s.state.Pending? && s.attempt == 1 {
      NewStepsArePending(run.steps, planner.id, planned, s);
    }
    forall c | c in all && Unpassed(c) ensures Repeated(all, c) {
      RepeatedInMore(run.steps, added, c);
    }
    PendingDoNotBuild(run.steps, added);
  }

  lemma TakePlanKeepsOk(run: Run, i: nat, plan: Option<Plan>)
    requires i < |run.steps| && RunOk(run) && !run.error && run.steps[i].state.Running? && run.steps[i].kind.Planning?
    ensures RunOk(TakePlan(run, i, plan))
  {
    var step := run.steps[i];
    var done := Put(run, i, step.(state := Completed));
    PutKeepsOk(run, i, step.(state := Completed));
    if plan.Some? && Expand(done.steps, step.id, plan.value).Some? {
      assert done.steps[i] in done.steps;
      ExpandKeepsOk(done, done.steps[i], plan.value);
    } else {
      PutKeepsOk(run, i, step.(state := Failed));
    }
  }

  // ------------------------------------------------------------------ advance

  lemma FinishKeepsOk(run: Run, i: nat, answer: Answer)
    requires i < |run.steps| && RunOk(run) && !run.error && run.steps[i].state.Running?
    ensures RunOk(Finish(run, i, answer))
  {
    match run.steps[i].kind
    case Planning => TakePlanKeepsOk(run, i, answer.plan);
    case Testing => JudgeKeepsOk(run, i, answer.testsPassed);
    case Review => JudgeKeepsOk(run, i, answer.approved);
    case _ => PutKeepsOk(run, i, run.steps[i].(state := Completed));
  }

  lemma ReconcileOneKeepsOk(run: Run, i: nat, session: Session)
    requires i < |run.steps| && RunOk(run) && !run.error
    ensures RunOk(ReconcileOne(run, i, session))
  {
    var step := run.steps[i];
    if InProgress(step) && step.session && !session.Missing? && !session.Waiting? {
      PutKeepsOk(run, i, step.(state := if session.Stopped? then Failed else Running));
      if session.Finished? {
        FinishKeepsOk(Put(run, i, step.(state := Running)), i, session.answer);
      }
    }
  }

  ghost predicate KeptByReconciling(keeps: Run -> bool) {
    forall run: Run, i: nat, session: Session {:trigger keeps(ReconcileOne(run, i, session))} ::
      i < |run.steps| && keeps(run) && !run.error ==> keeps(ReconcileOne(run, i, session))
  }

  /** One step of a round. */
  lemma ReconciledOnce(keeps: Run -> bool, run: Run, world: World, i: nat, n: nat) returns (next: Run)
    requires i < n <= |run.steps| && KeptByReconciling(keeps) && keeps(run) && !run.error
    ensures keeps(next) && n <= |next.steps|
    ensures Reconciled(run, world, i, n) == if next.error then next else Reconciled(next, world, i + 1, n)
  {
    var session := world.session(run.steps[i].id);
    next := ReconcileOne(run, i, session);
    ReconcileGrows(run, i, session);
    assert keeps(next);
  }

  /** What every reconciled step keeps, a whole round keeps. */
  lemma {:induction false} ReconciledKeeps(keeps: Run -> bool, run: Run, world: World, i: nat, n: nat)
    requires i <= n <= |run.steps| && KeptByReconciling(keeps) && keeps(run) && !run.error
    ensures keeps(Reconciled(run, world, i, n))
    decreases n - i
  {
    if i < n {
      var next := ReconciledOnce(keeps, run, world, i, n);
      if !next.error {
        ReconciledKeeps(keeps, next, world, i + 1, n);
      }
    }
  }

  lemma ReconciledKeepsOk(run: Run, world: World)
    requires RunOk(run) && !run.error
    ensures RunOk(Reconciled(run, world, 0, |run.steps|))
  {
    var keeps := (r: Run) => RunOk(r);
    forall r: Run, i: nat, session: Session | i < |r.steps| && keeps(r) && !r.error
      ensures keeps(ReconcileOne(r, i, session))
    {
      ReconcileOneKeepsOk(r, i, session);
    }
    ReconciledKeeps(keeps, run, world, 0, |run.steps|);
  }

  /** Steps of which at most the state, the session and the finding differ, and none is completed anew or no longer. */
  ghost predicate SamePlan(a: seq<Step>, b: seq<Step>) {
    |a| == |b| && forall i :: 0 <= i < |a| ==>
      && SameNode(a[i], b[i]) && a[i].state.Completed? == b[i].state.Completed? && a[i].passed == b[i].passed
  }

  lemma SamePlanIsValid(a: seq<Step>, b: seq<Step>)
    requires SamePlan(a, b) && ValidPlan(a)
    ensures ValidPlan(b)
  {
    assert Nodes(a) == Nodes(b);
  }

  lemma SamePlanInOrder(a: seq<Step>, b: seq<Step>, error: bool)
    requires SamePlan(a, b) && AllInOrder(a, error)
    requires forall i :: 0 <= i < |b| && Begun(b[i]) ==> Begun(a[i])
    ensures AllInOrder(b, error)
  {
    forall s, t | s in b && t in b && t.id in s.dependsOn ensures InOrder(s, t, error) {
      var i :| 0 <= i < |b| && b[i] == s;
      var j :| 0 <= j < |b| && b[j] == t;
      assert a[i] in a && a[j] in a;
      assert InOrder(a[i], a[j], error);
    }
  }

  lemma SamePlanRepeatsOne(a: seq<Step>, b: seq<Step>, i: nat)
    requires SamePlan(a, b) && i < |a| && Repeated(a, a[i])
    ensures Repeated(b, b[i])
  {
    var f, r :| f in a && r in a && RepeatedBy(a[i], f, r);
    var j :| 0 <= j < |a| && a[j] == f;
    var k :| 0 <= k < |a| && a[k] == r;
    assert b[j] in b && b[k] in b && RepeatedBy(b[i], b[j], b[k]);
  }

  lemma SamePlanRepeats(a: seq<Step>, b: seq<Step>, error: bool)
    requires SamePlan(a, b) && FailuresRepeated(a, error)
    ensures FailuresRepeated(b, error)
  {
    forall c | !error && c in b && Unpassed(c) ensures Repeated(b, c) {
      var i :| 0 <= i < |b| && b[i] == c;
      assert a[i] in a && Unpassed(a[i]);
      SamePlanRepeatsOne(a, b, i);
    }
  }

  lemma UnblockedKeepsOk(run: Run)
    requires RunOk(run)
    ensures RunOk(run.(steps := Unblocked(run.steps)))
  {
    var steps := Unblocked(run.steps);
    SamePlanIsValid(run.steps, steps);
    SamePlanInOrder(run.steps, steps, run.error);
    SamePlanRepeats(run.steps, steps, run.error);
    assert forall i :: 0 <= i < |steps| ==> Builds(steps[i]) == Builds(run.steps[i]);
    forall s | s in steps ensures StepOk(s, run.maxFix) {
      var i :| 0 <= i < |steps| && steps[i] == s;
      assert run.steps[i] in run.steps;
    }
  }

  // ------------------------------------------------------------------ dispatch

  /** The steps of a round of dispatching: those from `i` on are as they were. */
  ghost predicate Dispatching(ready: seq<Step>, run: Run, i: nat, busy: bool) {
    && i <= |ready| && SamePlan(ready, run.steps) && !run.error && RunOk(run)
    && (forall j :: i <= j < |ready| ==> run.steps[j] == ready[j])
    && (busy <==> exists s :: s in run.steps && Builds(s))
  }

  lemma ReadyIsClear(ready: seq<Step>, run: Run, i: nat, busy: bool)
    requires Dispatching(ready, run, i, busy) && i < |ready| && Ready(ready, ready[i])
    ensures Clear(run.steps, run.steps[i])
  {
    ValidIffRankable(run.steps);
    var s := run.steps[i];
    assert s in run.steps;
    forall t | t in run.steps && t.id in s.dependsOn ensures t.state.Completed? && (Unpassed(t) ==> IsFix(s)) {
      assert IsCompleted(ready, t.id);
      var c :| c in ready && c.id == t.id && c.state.Completed?;
      var j :| 0 <= j < |ready| && ready[j] == c;
      assert run.steps[j] in run.steps;
      OneWithId(run.steps, run.steps[j], t);
      assert InOrder(s, t, false);
    }
  }

  lemma DispatchOne(ready: seq<Step>, run: Run, i: nat, busy: bool, start: Start)
    requires Dispatching(ready, run, i, busy) && i < |ready| && Ready(ready, ready[i])
    requires !(Writes(ready[i].kind) && busy)
    ensures var s := Started(run.steps[i], start); Dispatching(ready, Put(run, i, s), i + 1, busy || Builds(s))
  {
    var s := Started(run.steps[i], start);
    var next := run.steps[i := s];
    ReadyIsClear(ready, run, i, busy);
    PutKeepsValid(run.steps, i, s);
    PutKeepsOrder(run.steps, false, i, s);
    PutKeepsRepeated(run.steps, false, i, s);
    StartKeepsTurns(run.steps, i, s, busy);
    assert run.steps[i] in run.steps;
    forall x | x in next ensures StepOk(x, run.maxFix) {
      InPut(run.steps, i, s, x);
    }
  }

  lemma StartKeepsTurns(steps: seq<Step>, i: nat, s: Step, busy: bool)
    requires i < |steps| && OneBuilder(steps) && !Builds(steps[i]) && (Builds(s) ==> !busy)
    requires busy <==> exists x :: x in steps && Builds(x)
    ensures OneBuilder(steps[i := s])
    ensures (busy || Builds(s)) <==> exists x :: x in steps[i := s] && Builds(x)
  {
    var next := steps[i := s];
    assert next[i] == s;
    forall j, k | 0 <= j < k < |next| ensures !(Builds(next[j]) && Builds(next[k])) {
      assert steps[j] in steps && steps[k] in steps;
    }
    if busy {
      var x :| x in steps && Builds(x);
      InPut(steps, i, s, x);
      var j :| 0 <= j < |steps| && steps[j] == x;
    }
    if exists x :: x in next && Builds(x) {
      var x :| x in next && Builds(x);
      InPut(steps, i, s, x);
    }
  }

  lemma {:induction false} DispatchedKeepsOk(ready: seq<Step>, run: Run, world: World, i: nat, busy: bool)
    requires Dispatching(ready, run, i, busy)
    ensures RunOk(run.(steps := Dispatched(ready, run.steps, world, i, busy)))
    decreases |ready| - i
  {
    if i < |ready| {
      if !Ready(ready, ready[i]) || (Writes(ready[i].kind) && busy) {
        DispatchedKeepsOk(ready, run, world, i + 1, busy);
      } else {
        var s := Started(run.steps[i], world.start(run.steps[i].id));
        DispatchOne(ready, run, i, busy, world.start(run.steps[i].id));
        DispatchedKeepsOk(ready, Put(run, i, s), world, i + 1, busy || Builds(s));
      }
    }
  }
}
