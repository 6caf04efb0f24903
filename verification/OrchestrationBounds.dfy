/** How large a run can grow: fix attempts and planned steps are paid for in advance. */
module OrchestrationBounds {
  import opened Basics
  import opened Orchestration
  import opened OrchestrationGraph
  import opened OrchestrationPlanning
  import opened OrchestrationSteps
  import opened OrchestrationRuns

  predicate Open(s: Step) {
    s.state.Pending? || s.state.Running? || s.state.Blocked?
  }

  /** The steps that a step can still bring about: two for every attempt left to a check, fourteen such checks for a plan. */
  function Weight(s: Step, maxFix: nat): nat {
    if !Open(s) then 0
    else if s.kind.Planning? then 14 + 28 * maxFix
    else if IsCheck(s) && s.attempt <= maxFix then 2 * (maxFix + 1 - s.attempt)
    else 0
  }

  /** The steps there are and those that can still come. */
  function Cost(steps: seq<Step>, maxFix: nat): (n: nat)
    ensures n >= |steps|
  {
    if steps == [] then 0 else 1 + Weight(steps[0], maxFix) + Cost(steps[1..], maxFix)
  }

  lemma {:induction false} CostConcat(a: seq<Step>, b: seq<Step>, maxFix: nat)
    ensures Cost(a + b, maxFix) == Cost(a, maxFix) + Cost(b, maxFix)
  {
    if a == [] {
      assert a + b == b;
    } else {
      assert (a + b)[1..] == a[1..] + b;
      CostConcat(a[1..], b, maxFix);
    }
  }

  lemma {:induction false} CostPut(steps: seq<Step>, i: nat, s: Step, maxFix: nat)
    requires i < |steps|
    ensures Cost(steps[i := s], maxFix) + Weight(steps[i], maxFix) == Cost(steps, maxFix) + Weight(s, maxFix)
  {
    if i > 0 {
      assert steps[i := s][1..] == steps[1..][i - 1 := s];
      CostPut(steps[1..], i - 1, s, maxFix);
    }
  }

  lemma {:induction false} CostFalls(a: seq<Step>, b: seq<Step>, maxFix: nat)
    requires |a| == |b| && forall i :: 0 <= i < |a| ==> Weight(b[i], maxFix) <= Weight(a[i], maxFix)
    ensures Cost(b, maxFix) <= Cost(a, maxFix)
  {
    if a != [] {
      CostFalls(a[1..], b[1..], maxFix);
    }
  }

  lemma {:induction false} CostAtMost(steps: seq<Step>, maxFix: nat, each: nat)
    requires forall s :: s in steps ==> 1 + Weight(s, maxFix) <= each
    ensures Cost(steps, maxFix) <= |steps| * each
  {
    if steps != [] {
      var rest := steps[1..];
      assert steps[0] in steps && forall s :: s in rest ==> s in steps;
      CostAtMost(rest, maxFix, each);
      OneMoreTime(|rest|, each);
    }
  }

  lemma OneMoreTime(n: nat, each: nat)
    ensures (n + 1) * each == each + n * each
  {
  }

  // --------------------------------------------------- sent back, and planned

  lemma ExtendedCosts(steps: seq<Step>, check: Step, maxFix: nat)
    requires !Open(check) && check.attempt <= maxFix && IsCheck(check)
    ensures Cost(Extended(steps, check), maxFix) <= Cost(steps, maxFix) + 2 * (maxFix + 1 - check.attempt)
  {
    var fix, recheck := FixId(steps, check), RecheckId(steps, check);
    var rewired := RewireAll(steps, check.id, recheck);
    CostFalls(steps, rewired, maxFix);
    CostConcat(rewired, [FixStep(check, fix), RecheckStep(check, recheck, fix)], maxFix);
    TwoCost(FixStep(check, fix), RecheckStep(check, recheck, fix), maxFix);
  }

  /** The fix and the repeated check cost what the failed check had left. */
  lemma SendBackCosts(run: Run, i: nat, failed: Step)
    requires i < |run.steps| && Open(run.steps[i]) && IsCheck(run.steps[i])
    requires SameNode(run.steps[i], failed) && failed.state.Completed?
    ensures Cost(SendBack(Put(run, i, failed), i).steps, run.maxFix) <= Cost(run.steps, run.maxFix)
  {
    CostPut(run.steps, i, failed, run.maxFix);
    if failed.attempt <= run.maxFix {
      ExtendedCosts(run.steps[i := failed], failed, run.maxFix);
    }
  }

  lemma TwoCost(a: Step, b: Step, maxFix: nat)
    ensures Cost([a, b], maxFix) == 2 + Weight(a, maxFix) + Weight(b, maxFix)
  {
    assert [a, b] == [a] + [b];
    CostConcat([a], [b], maxFix);
    assert Cost([a], maxFix) == 1 + Weight(a, maxFix) && Cost([b], maxFix) == 1 + Weight(b, maxFix);
  }

  lemma NewStepIsLight(steps: seq<Step>, plannerId: string, planned: seq<Planned>, s: Step, maxFix: nat)
    requires Parsed(planned) && s in AddedSteps(steps, plannerId, planned)
    ensures Weight(s, maxFix) <= 2 * maxFix
  {
    var block := Block(steps, plannerId, planned);
    var more := AddedShape(steps, plannerId, planned);
    if s in block {
      var i :| 0 <= i < |block| && block[i] == s;
      assert planned[i] in planned;
    }
  }

  lemma LightCost(steps: seq<Step>, maxFix: nat)
    requires |steps| <= 14 && forall s :: s in steps ==> Weight(s, maxFix) <= 2 * maxFix
    ensures Cost(steps, maxFix) <= 14 + 28 * maxFix
  {
    CostAtMost(steps, maxFix, 1 + 2 * maxFix);
    FewTimes(|steps|, 1 + 2 * maxFix);
  }

  lemma FewTimes(n: nat, each: nat)
    requires n <= 14
    ensures n * each <= 14 * each
  {
  }

  lemma AddedCost(steps: seq<Step>, plannerId: string, planned: seq<Planned>, maxFix: nat)
    requires Parsed(planned)
    ensures Cost(steps + AddedSteps(steps, plannerId, planned), maxFix) <= Cost(steps, maxFix) + 14 + 28 * maxFix
  {
    var added := AddedSteps(steps, plannerId, planned);
    var more := AddedShape(steps, plannerId, planned);
    CostConcat(steps, added, maxFix);
    forall s | s in added ensures Weight(s, maxFix) <= 2 * maxFix {
      NewStepIsLight(steps, plannerId, planned, s, maxFix);
    }
    LightCost(added, maxFix);
  }

  /** A plan costs at most what the planning step had left. */
  lemma TakePlanCosts(run: Run, i: nat, plan: Option<Plan>)
    requires i < |run.steps| && Open(run.steps[i]) && run.steps[i].kind.Planning?
    ensures Cost(TakePlan(run, i, plan).steps, run.maxFix) <= Cost(run.steps, run.maxFix)
  {
    var step := run.steps[i];
    var done := Put(run, i, step.(state := Completed));
    CostPut(run.steps, i, step.(state := Completed), run.maxFix);
    CostPut(run.steps, i, step.(state := Failed), run.maxFix);
    if plan.Some? {
      AddedCost(done.steps, step.id, plan.value, run.maxFix);
    }
  }

  // ------------------------------------------------------------------ the moves

  /** A step that closes costs no more. */
  lemma ClosingCosts(run: Run, i: nat, s: Step)
    requires i < |run.steps| && !Open(s)
    ensures Cost(Put(run, i, s).steps, run.maxFix) <= Cost(run.steps, run.maxFix)
  {
    CostPut(run.steps, i, s, run.maxFix);
  }

  lemma JudgeCosts(run: Run, i: nat, finding: Option<bool>)
    requires i < |run.steps| && Open(run.steps[i]) && IsCheck(run.steps[i])
    ensures Cost(Judge(run, i, finding).steps, run.maxFix) <= Cost(run.steps, run.maxFix)
  {
    var step := run.steps[i];
    match finding
    case None => ClosingCosts(run, i, step.(state := Failed));
    case Some(true) => ClosingCosts(run, i, step.(state := Completed, passed := Some(true)));
    case Some(false) => SendBackCosts(run, i, step.(state := Completed, passed := Some(false)));
  }

  lemma FinishCosts(run: Run, i: nat, answer: Answer)
    requires i < |run.steps| && Open(run.steps[i])
    ensures Cost(Finish(run, i, answer).steps, run.maxFix) <= Cost(run.steps, run.maxFix)
  {
    match run.steps[i].kind
    case Planning => TakePlanCosts(run, i, answer.plan);
    case Testing => JudgeCosts(run, i, answer.testsPassed);
    case Review => JudgeCosts(run, i, answer.approved);
    case _ => ClosingCosts(run, i, run.steps[i].(state := Completed));
  }

  lemma ReconcileOneCosts(run: Run, i: nat, session: Session)
    requires i < |run.steps|
    ensures Cost(ReconcileOne(run, i, session).steps, run.maxFix) <= Cost(run.steps, run.maxFix)
  {
    var step := run.steps[i];
    if InProgress(step) && step.session {
      ClosingCosts(run, i, step.(state := Failed));
      CostPut(run.steps, i, step.(state := Running), run.maxFix);
      if session.Finished? {
        FinishCosts(Put(run, i, step.(state := Running)), i, session.answer);
      }
    }
  }

  lemma ReconcileKeepsMaxFix(run: Run, i: nat, session: Session)
    requires i < |run.steps|
    ensures ReconcileOne(run, i, session).maxFix == run.maxFix
  {
  }

  lemma ReconciledCosts(run: Run, world: World)
    requires !run.error
    ensures var r := Reconciled(run, world, 0, |run.steps|);
      Cost(r.steps, run.maxFix) <= Cost(run.steps, run.maxFix) && r.maxFix == run.maxFix
  {
    var keeps := (r: Run) => Cost(r.steps, run.maxFix) <= Cost(run.steps, run.maxFix) && r.maxFix == run.maxFix;
    forall r: Run, i: nat, session: Session | i < |r.steps| && keeps(r) && !r.error
      ensures keeps(ReconcileOne(r, i, session))
    {
      ReconcileOneCosts(r, i, session);
      ReconcileKeepsMaxFix(r, i, session);
    }
    ReconciledKeeps(keeps, run, world, 0, |run.steps|);
  }

  lemma {:induction false} DispatchCosts(ready: seq<Step>, steps: seq<Step>, world: World, i: nat, busy: bool, maxFix: nat)
    requires i <= |ready| == |steps| && forall k :: i <= k < |ready| ==> steps[k] == ready[k]
    ensures Cost(Dispatched(ready, steps, world, i, busy), maxFix) <= Cost(steps, maxFix)
    decreases |ready| - i
  {
    if i < |ready| {
      if !Ready(ready, ready[i]) || (Writes(ready[i].kind) && busy) {
        DispatchCosts(ready, steps, world, i + 1, busy, maxFix);
      } else {
        var s := Started(steps[i], world.start(steps[i].id));
        CostPut(steps, i, s, maxFix);
        DispatchCosts(ready, steps[i := s], world, i + 1, busy || Builds(s), maxFix);
      }
    }
  }

  lemma AdvanceCosts(run: Run, world: World)
    requires !Over(run.state) && !run.error
    ensures Cost(Advance(run, world).steps, run.maxFix) <= Cost(run.steps, run.maxFix)
  {
    var r := Reconciled(run, world, 0, |run.steps|);
    ReconciledCosts(run, world);
    var waiting := Unblocked(r.steps);
    CostFalls(r.steps, waiting, run.maxFix);
    DispatchCosts(waiting, waiting, world, 0, exists s :: s in waiting && Builds(s), run.maxFix);
  }

  lemma AdvanceKeepsMaxFix(run: Run, world: World)
    requires run.error ==> Over(run.state)
    ensures Advance(run, world).maxFix == run.maxFix
    ensures Advance(run, world).error ==> Over(Advance(run, world).state)
  {
    if !Over(run.state) {
      ReconciledCosts(run, world);
    }
  }

  lemma MoveCosts(run: Run, move: Move)
    requires run.error ==> Over(run.state)
    ensures Cost(Moved(run, move).steps, run.maxFix) <= Cost(run.steps, run.maxFix)
    ensures Moved(run, move).maxFix == run.maxFix && (Moved(run, move).error ==> Over(Moved(run, move).state))
  {
    if move.Advancing? {
      AdvanceKeepsMaxFix(run, move.world);
      if !Over(run.state) {
        AdvanceCosts(run, move.world);
      }
    } else {
      CostFalls(run.steps, CancelSteps(run.steps), run.maxFix);
    }
  }

  lemma {:induction false} MovesCost(run: Run, moves: seq<Move>)
    requires run.error ==> Over(run.state)
    ensures Cost(After(run, moves).steps, run.maxFix) <= Cost(run.steps, run.maxFix)
    decreases |moves|
  {
    if moves != [] {
      MoveCosts(run, moves[0]);
      MovesCost(Moved(run, moves[0]), moves[1..]);
    }
  }

  lemma GivenCosts(given: seq<Planned>, maxFix: nat)
    requires maxFix <= 5
    ensures Cost(GivenSteps(given), maxFix) <= |given| * (15 + 28 * maxFix)
  {
    var steps := GivenSteps(given);
    forall s | s in steps ensures 1 + Weight(s, maxFix) <= 15 + 28 * maxFix {
      var i :| 0 <= i < |steps| && steps[i] == s;
    }
    CostAtMost(steps, maxFix, 15 + 28 * maxFix);
  }

  /**
   However often work is sent back, a run has at most 15 steps and 28 for every
   fix attempt it is allowed, for each step it was given: 155 in a run that was
   planned from a goal with the most attempts.
   */
  lemma StepsAreBounded(given: seq<Planned>, maxFix: Option<real>, moves: seq<Move>)
    requires Create(given, maxFix).Some?
    ensures |After(Create(given, maxFix).value, moves).steps| <= |given| * (15 + 28 * Clamp(maxFix))
    ensures Clamp(maxFix) <= 5
  {
    var run := Create(given, maxFix).value;
    MovesCost(run, moves);
    GivenCosts(given, Clamp(maxFix));
  }
}
