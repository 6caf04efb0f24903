/** The orchestrator's methods on a run that is updated in place: each computes the function of the same name. */
module Orchestrator {
  import opened Basics
  import opened Orchestration
  import PlanGraph

  /** Counts up until the id is free. */
  method FreshId(taken: set<string>, wanted: string) returns (id: string, nowTaken: set<string>)
    ensures id == UniqueId(taken, wanted) && nowTaken == taken + {id}
  {
    id := wanted;
    var n := 2;
    ghost var tried := {};
    if id in taken {
      id := Suffix(wanted, n);
      while id in taken
        invariant n >= 2 && id == Suffix(wanted, n) && tried <= taken
        invariant forall t :: t in tried ==> exists m :: 2 <= m < n && t == Suffix(wanted, m)
        invariant Suffixed(taken - tried, wanted, n) == Suffixed(taken, wanted, 2)
        decreases |taken - tried|
      {
        NotTried(tried, wanted, n);
        assert (taken - tried) - {id} == taken - (tried + {id});
        assert |taken - (tried + {id})| < |taken - tried| by {
          assert taken - tried == (taken - (tried + {id})) + {id};
        }
        tried := tried + {id};
        n := n + 1;
        id := Suffix(wanted, n);
      }
    }
    nowTaken := taken + {id};
  }

  lemma NotTried(tried: set<string>, wanted: string, n: nat)
    requires forall t :: t in tried ==> exists m :: 2 <= m < n && t == Suffix(wanted, m)
    ensures Suffix(wanted, n) !in tried
  {
    if Suffix(wanted, n) in tried {
      var m :| 2 <= m < n && Suffix(wanted, n) == Suffix(wanted, m);
      SuffixesDiffer(wanted, n, m);
    }
  }

  class OrchestrationRun {
    var steps: seq<Step>
    const maxFixAttempts: nat
    var error: bool
    var state: RunState

    ghost function Now(): Run
      reads this
    {
      Run(steps, maxFixAttempts, error, state)
    }

    constructor (steps: seq<Step>, maxFixAttempts: nat)
      ensures Now() == Run(steps, maxFixAttempts, false, Created)
    {
      this.steps, this.maxFixAttempts := steps, maxFixAttempts;
      error, state := false, Created;
    }

    method SendBack(i: nat)
      requires i < |steps|
      modifies this`steps, this`error
      ensures Now() == Orchestration.SendBack(old(Now()), i)
    {
      var check := steps[i];
      if check.attempt > maxFixAttempts {
        error := true;
        return;
      }
      ghost var before := steps;
      var base := BaseId(check.id);
      var fixId, taken := FreshId(IdSet(steps), base + "-fix-" + Decimal(check.attempt));
      var recheckId, _ := FreshId(taken, base + Recheck + Decimal(check.attempt));
      for j := 0 to |steps|
        invariant |steps| == |before| && error == old(error)
        invariant forall k :: 0 <= k < j ==> steps[k] == Rewire(before[k], check.id, recheckId)
        invariant forall k :: j <= k < |steps| ==> steps[k] == before[k]
      {
        if check.id in steps[j].dependsOn {
          steps := steps[j := Rewire(steps[j], check.id, recheckId)];
        } else {
          NothingToRewire(steps[j], check.id, recheckId);
        }
      }
      assert steps == RewireAll(before, check.id, recheckId);
      steps := steps + [FixStep(check, fixId), RecheckStep(check, recheckId, fixId)];
    }

    /** False if the validation throws. */
    method ExpandPlan(i: nat, planned: Plan) returns (ok: bool)
      requires i < |steps|
      modifies this`steps
      ensures var all := Expand(old(steps), old(steps)[i].id, planned);
        ok == all.Some? && steps == if ok then all.value else old(steps)
    {
      var names := NameSteps(IdSet(steps), planned);
      var added := PlannedSteps(planned, names, steps[i].id);
      var builds := OfKind(added, Implementation);
      if builds != [] {
        var taken, id := IdSet(steps) + IdSet(added), "";
        if OfKind(added, Testing) == [] {
          id, taken := FreshId(taken, "test");
          GuaranteeKinds(added, NewStep(id, Testing, builds, Guarantee));
          added := added + [NewStep(id, Testing, builds, Guarantee)];
        }
        if OfKind(added, Review) == [] {
          assert taken == IdSet(steps) + IdSet(added);
          id, taken := FreshId(taken, "review");
          added := added + [NewStep(id, Review, builds + OfKind(added, Testing), Guarantee)];
        }
      }
      assert added == AddedSteps(steps, steps[i].id, planned);
      ok := PlanGraph.ValidateDag(Nodes(steps + added));
      if ok {
        steps := steps + added;
      }
    }

    /** The ids given to the planned steps, in order. */
    static method NameSteps(before: set<string>, planned: seq<Planned>) returns (names: seq<string>)
      ensures names == Names(before, planned)
    {
      names := [];
      var taken := before;
      for j := 0 to |planned|
        invariant |names| == j
        invariant names + Names(taken, planned[j..]) == Names(before, planned)
      {
        assert planned[j..][0] == planned[j] && planned[j..][1..] == planned[j + 1..];
        var id;
        ghost var before_ := taken;
        id, taken := FreshId(taken, planned[j].id);
        NamesOnce(names, before_, planned[j..]);
        names := names + [id];
      }
    }

    method Judge(i: nat, finding: Option<bool>)
      requires i < |steps|
      modifies this`steps, this`error
      ensures Now() == Orchestration.Judge(old(Now()), i, finding)
    {
      if finding.None? {
        steps := steps[i := steps[i].(state := Failed)];
      } else {
        steps := steps[i := steps[i].(state := Completed, passed := finding)];
        if !finding.value {
          SendBack(i);
        }
      }
    }

    method TakePlan(i: nat, plan: Option<Plan>)
      requires i < |steps|
      modifies this`steps
      ensures Now() == Orchestration.TakePlan(old(Now()), i, plan)
    {
      ghost var before := steps;
      steps := steps[i := steps[i].(state := Completed)];
      var ok := false;
      if plan.Some? {
        ok := ExpandPlan(i, plan.value);
      }
      if !ok {
        PutTwice(before, i, before[i].(state := Completed), before[i].(state := Failed));
        steps := steps[i := steps[i].(state := Failed)];
      }
    }

    method FinishStep(i: nat, answer: Answer)
      requires i < |steps|
      modifies this`steps, this`error
      ensures Now() == Finish(old(Now()), i, answer)
    {
      match steps[i].kind
      case Planning => TakePlan(i, answer.plan);
      case Testing => Judge(i, answer.testsPassed);
      case Review => Judge(i, answer.approved);
      case _ => steps := steps[i := steps[i].(state := Completed)];
    }

    method ReconcileStep(i: nat, session: Session)
      requires i < |steps|
      modifies this`steps, this`error
      ensures Now() == ReconcileOne(old(Now()), i, session)
    {
      var step := steps[i];
      if !step.session || (!step.state.Running? && !step.state.Blocked?) { return; }
      if session.Missing? || session.Waiting? { return; }
      steps := steps[i := step.(state := Running)];
      match session
      case Stopped => steps := steps[i := step.(state := Failed)];
      case Finished(answer) => FinishStep(i, answer);
      case _ =>
    }

    /** The steps there were when the round began; an error ends it. */
    method Reconcile(world: World)
      modifies this`steps, this`error
      ensures Now() == Reconciled(old(Now()), world, 0, |old(steps)|)
    {
      var n := |steps|;
      for i := 0 to n
        invariant n <= |steps|
        invariant Reconciled(Now(), world, i, n) == Reconciled(old(Now()), world, 0, n)
      {
        ReconcileGrows(Now(), i, world.session(steps[i].id));
        ReconcileStep(i, world.session(steps[i].id));
        if error { return; }
      }
    }

    method DispatchReady(world: World)
      modifies this`steps
      ensures steps == Orchestration.DispatchReady(old(steps), world)
    {
      var ready := steps;
      var busy := exists s :: s in steps && Builds(s);
      ghost var start := busy;
      for i := 0 to |ready|
        invariant |steps| == |ready|
        invariant Dispatched(ready, steps, world, i, busy) == Dispatched(ready, ready, world, 0, start)
      {
        if Ready(ready, ready[i]) && !(Writes(ready[i].kind) && busy) {
          var s := Started(steps[i], world.start(steps[i].id));
          steps := steps[i := s];
          busy := busy || Builds(s);
        }
      }
    }

    method AdvanceNow(world: World)
      modifies this
      ensures Now() == Advance(old(Now()), world)
    {
      if Over(state) { return; }
      Reconcile(world);
      if !error {
        RetryBlocked();
        DispatchReady(world);
      }
      state := StateOf(steps, error);
      error := error || state.Broken?;
    }

    method RetryBlocked()
      modifies this`steps
      ensures steps == Unblocked(old(steps))
    {
      for i := 0 to |steps|
        invariant |steps| == |old(steps)|
        invariant forall k :: 0 <= k < i ==> steps[k] == Unblock(old(steps)[k])
        invariant forall k :: i <= k < |steps| ==> steps[k] == old(steps)[k]
      {
        if steps[i].state.Blocked? && !steps[i].session {
          steps := steps[i := steps[i].(state := Pending)];
        }
      }
    }

    method CancelNow()
      modifies this
      ensures Now() == Cancel(old(Now()))
    {
      if Over(state) { return; }
      ghost var before := steps;
      for i := 0 to |steps|
        invariant Now() == old(Now()).(steps := steps) && |steps| == |before|
        invariant forall k :: 0 <= k < i ==> steps[k] == CancelStep(before[k])
        invariant forall k :: i <= k < |steps| ==> steps[k] == before[k]
      {
        steps := steps[i := CancelStep(steps[i])];
      }
      assert steps == CancelSteps(before);
      error, state := true, Cancelled;
    }
  }

  /** Null if the validation throws. */
  method CreateRun(given: seq<Planned>, maxFixAttempts: Option<real>) returns (run: OrchestrationRun?)
    ensures run == null <==> Create(given, maxFixAttempts).None?
    ensures run != null ==> fresh(run) && Create(given, maxFixAttempts) == Some(run.Now())
  {
    run := null;
    var ok := PlanGraph.ValidateDag(Nodes(GivenSteps(given)));
    if ok {
      run := new OrchestrationRun(GivenSteps(given), Clamp(maxFixAttempts));
    }
  }

  lemma NamesOnce(names: seq<string>, taken: set<string>, planned: seq<Planned>)
    requires planned != []
    ensures var id := UniqueId(taken, planned[0].id);
      names + Names(taken, planned) == (names + [id]) + Names(taken + {id}, planned[1..])
  {
  }

  lemma PutTwice(steps: seq<Step>, i: nat, a: Step, b: Step)
    requires i < |steps|
    ensures steps[i := a][i := b] == steps[i := b]
  {
  }

  lemma NothingToRewire(s: Step, old_: string, new_: string)
    requires old_ !in s.dependsOn
    ensures Rewire(s, old_, new_) == s
  {
    assert Rewire(s, old_, new_).dependsOn == s.dependsOn;
  }

  /** A test behind the builders is no further builder. */
  lemma {:induction false} GuaranteeKinds(added: seq<Step>, s: Step)
    requires s.kind == Testing
    ensures OfKind(added + [s], Implementation) == OfKind(added, Implementation)
    ensures IdSet(added + [s]) == IdSet(added) + {s.id}
  {
    if added == [] {
      assert added + [s] == [s];
    } else {
      assert (added + [s])[1..] == added[1..] + [s];
      GuaranteeKinds(added[1..], s);
    }
    forall id ensures id in IdSet(added + [s]) <==> id in IdSet(added) + {s.id} {
      assert s in added + [s];
      if id in IdSet(added) {
        var x :| x in added && x.id == id;
        assert x in added + [s];
      }
    }
  }
}
