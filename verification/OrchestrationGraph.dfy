/** A plan stays a valid graph, and keeps its order, however it extends itself. */
module OrchestrationGraph {
  import opened Basics
  import opened Orchestration
  import PlanGraph
  import StepOrder

  ghost predicate ValidPlan(steps: seq<Step>) {
    PlanGraph.Dag(Nodes(steps))
  }

  // ------------------------------------------------------- ids and rankings

  ghost predicate Unique(steps: seq<Step>) {
    forall i, j :: 0 <= i < j < |steps| ==> steps[i].id != steps[j].id
  }

  /** Ids are unique and not empty, and dependencies known and not the step itself. */
  ghost predicate Formed(steps: seq<Step>) {
    && Unique(steps)
    && forall s :: s in steps ==> s.id != "" && forall d :: d in s.dependsOn ==> d in IdSet(steps) && d != s.id
  }

  /** Each step has a rank above those of its dependencies. */
  ghost predicate Ranked(steps: seq<Step>, rank: map<string, int>, bound: int) {
    forall s :: s in steps ==>
      && s.id in rank && 0 <= rank[s.id] < bound
      && forall d :: d in s.dependsOn ==> d in rank && rank[d] < rank[s.id]
  }

  ghost predicate Rankable(steps: seq<Step>) {
    exists rank, bound :: Ranked(steps, rank, bound)
  }

  function Node(s: Step): StepOrder.Step {
    StepOrder.Step(s.id, "", s.dependsOn)
  }

  lemma NodesOf(steps: seq<Step>)
    ensures forall s :: s in steps ==> Node(s) in Nodes(steps)
    ensures forall n :: n in Nodes(steps) ==> exists s :: s in steps && n == Node(s)
    ensures forall id :: id in IdSet(steps) <==> StepOrder.Listed(Nodes(steps), id)
  {
    var nodes := Nodes(steps);
    forall s | s in steps ensures Node(s) in nodes {
      var i :| 0 <= i < |steps| && steps[i] == s;
      assert nodes[i] == Node(s);
    }
    forall n | n in nodes ensures exists s :: s in steps && n == Node(s) {
      var i :| 0 <= i < |nodes| && nodes[i] == n;
      assert steps[i] in steps;
    }
    forall id ensures id in IdSet(steps) <==> StepOrder.Listed(nodes, id) {
      if id in IdSet(steps) {
        var i :| 0 <= i < |steps| && steps[i].id == id;
        assert nodes[i].id == id;
      }
      if StepOrder.Listed(nodes, id) {
        var i :| 0 <= i < |nodes| && nodes[i].id == id;
        assert steps[i] in steps;
      }
    }
  }

  lemma UniqueNodes(steps: seq<Step>)
    ensures Unique(steps) <==> StepOrder.UniqueIds(Nodes(steps))
  {
    var nodes := Nodes(steps);
    if StepOrder.UniqueIds(nodes) {
      forall i, j | 0 <= i < j < |steps| ensures steps[i].id != steps[j].id {
        assert nodes[i].id != nodes[j].id;
      }
    }
  }

  lemma FormedNodes(steps: seq<Step>)
    ensures Formed(steps) <==> PlanGraph.WellFormed(Nodes(steps))
  {
    NodesOf(steps);
    var nodes := Nodes(steps);
    UniqueNodes(steps);
    if PlanGraph.WellFormed(nodes) {
      forall s | s in steps ensures s.id != "" && forall d :: d in s.dependsOn ==> d in IdSet(steps) && d != s.id {
        assert Node(s) in nodes;
      }
    }
  }

  lemma RankedNodes(steps: seq<Step>, rank: map<string, int>, bound: int)
    ensures Ranked(steps, rank, bound) <==> PlanGraph.Ranked(Nodes(steps), rank, bound)
  {
    NodesOf(steps);
    if PlanGraph.Ranked(Nodes(steps), rank, bound) {
      forall s | s in steps
        ensures s.id in rank && 0 <= rank[s.id] < bound && forall d :: d in s.dependsOn ==> d in rank && rank[d] < rank[s.id]
      {
        assert Node(s) in Nodes(steps);
      }
    }
  }

  lemma ValidIffRankable(steps: seq<Step>)
    ensures ValidPlan(steps) <==> Formed(steps) && Rankable(steps)
  {
    FormedNodes(steps);
    if ValidPlan(steps) {
      var rank, bound := PlanGraph.DagIsRanked(Nodes(steps));
      RankedNodes(steps, rank, bound);
    }
    if Formed(steps) && Rankable(steps) {
      var rank, bound :| Ranked(steps, rank, bound);
      RankedNodes(steps, rank, bound);
      PlanGraph.RankedIsAcyclic(Nodes(steps), rank, bound);
    }
  }

  lemma OneWithId(steps: seq<Step>, s: Step, t: Step)
    requires Unique(steps) && s in steps && t in steps && s.id == t.id
    ensures s == t
  {
    var i :| 0 <= i < |steps| && steps[i] == s;
    var j :| 0 <= j < |steps| && steps[j] == t;
  }

  // -------------------------------------------------------------- sent back

  lemma IdsOfExtended(steps: seq<Step>, check: Step)
    ensures var fix, recheck := FixId(steps, check), RecheckId(steps, check);
      && fix !in IdSet(steps) && recheck !in IdSet(steps) && fix != recheck && fix != "" && recheck != ""
      && IdSet(Extended(steps, check)) == IdSet(steps) + {fix, recheck}
  {
    var all := Extended(steps, check);
    var n := |steps|;
    assert all[n].id == FixId(steps, check) && all[n + 1].id == RecheckId(steps, check);
    forall id ensures id in IdSet(all) <==> id in IdSet(steps) + {FixId(steps, check), RecheckId(steps, check)} {
      if id in IdSet(steps) {
        var i :| 0 <= i < n && steps[i].id == id;
        assert all[i].id == id && all[i] in all;
      }
      if id in IdSet(all) {
        var i :| 0 <= i < |all| && all[i].id == id;
        assert i < n ==> steps[i].id == id && steps[i] in steps;
      }
    }
  }

  /** Where a step of the extended plan comes from. */
  lemma InExtended(steps: seq<Step>, check: Step, s: Step)
    requires s in Extended(steps, check)
    ensures var fix, recheck := FixId(steps, check), RecheckId(steps, check);
      || s == FixStep(check, fix) || s == RecheckStep(check, recheck, fix)
      || exists old_ :: old_ in steps && s == Rewire(old_, check.id, recheck)
  {
    var all := Extended(steps, check);
    var i :| 0 <= i < |all| && all[i] == s;
    if i < |steps| {
      assert steps[i] in steps && all[i] == Rewire(steps[i], check.id, RecheckId(steps, check));
    }
  }

  lemma RewiredDependencies(s: Step, old_: string, new_: string, d: string)
    ensures d in Rewire(s, old_, new_).dependsOn <==> (d in s.dependsOn && d != old_) || (d == new_ && old_ in s.dependsOn)
  {
    var r := Rewire(s, old_, new_);
    forall i | 0 <= i < |s.dependsOn| ensures r.dependsOn[i] == if s.dependsOn[i] == old_ then new_ else s.dependsOn[i] {
    }
    if d in s.dependsOn && d != old_ {
      var i :| 0 <= i < |s.dependsOn| && s.dependsOn[i] == d;
      assert r.dependsOn[i] == d;
    }
    if d == new_ && old_ in s.dependsOn {
      var i :| 0 <= i < |s.dependsOn| && s.dependsOn[i] == old_;
      assert r.dependsOn[i] == d;
    }
  }

  lemma ExtendedIsUnique(steps: seq<Step>, check: Step)
    requires Unique(steps)
    ensures Unique(Extended(steps, check))
  {
    IdsOfExtended(steps, check);
    var all, n := Extended(steps, check), |steps|;
    forall i, j | 0 <= i < j < |all| ensures all[i].id != all[j].id {
      assert i < n ==> all[i].id == steps[i].id && steps[i] in steps;
      assert j < n ==> all[j].id == steps[j].id;
    }
  }

  lemma ExtendedIsFormed(steps: seq<Step>, check: Step)
    requires Formed(steps) && check in steps
    ensures Formed(Extended(steps, check))
  {
    var all, fix, recheck := Extended(steps, check), FixId(steps, check), RecheckId(steps, check);
    IdsOfExtended(steps, check);
    ExtendedIsUnique(steps, check);
    forall s | s in all ensures s.id != "" && forall d :: d in s.dependsOn ==> d in IdSet(all) && d != s.id {
      InExtended(steps, check, s);
      if s != FixStep(check, fix) && s != RecheckStep(check, recheck, fix) {
        var o :| o in steps && s == Rewire(o, check.id, recheck);
        forall d | d in s.dependsOn ensures d in IdSet(all) && d != s.id {
          RewiredDependencies(o, check.id, recheck, d);
        }
      }
    }
  }

  ghost function ExtendedRank(steps: seq<Step>, check: Step, rank: map<string, int>): map<string, int>
    requires check.id in rank
  {
    (map id | id in rank :: 3 * rank[id])[FixId(steps, check) := 3 * rank[check.id] + 1]
                                         [RecheckId(steps, check) := 3 * rank[check.id] + 2]
  }

  lemma RewiredRank(steps: seq<Step>, check: Step, o: Step, rank: map<string, int>, bound: int, d: string)
    requires Formed(steps) && check in steps && o in steps && Ranked(steps, rank, bound)
    requires d in Rewire(o, check.id, RecheckId(steps, check)).dependsOn
    ensures var new_ := ExtendedRank(steps, check, rank); d in new_ && o.id in new_ && new_[d] < new_[o.id]
  {
    IdsOfExtended(steps, check);
    RewiredDependencies(o, check.id, RecheckId(steps, check), d);
  }

  /** The fix and the repeated check find their place right behind the check. */
  lemma ExtendedIsRankable(steps: seq<Step>, check: Step)
    requires Formed(steps) && Rankable(steps) && check in steps
    ensures Rankable(Extended(steps, check))
  {
    var all, fix, recheck := Extended(steps, check), FixId(steps, check), RecheckId(steps, check);
    IdsOfExtended(steps, check);
    var rank, bound :| Ranked(steps, rank, bound);
    var new_ := ExtendedRank(steps, check, rank);
    forall s | s in all
      ensures s.id in new_ && 0 <= new_[s.id] < 3 * bound && forall d :: d in s.dependsOn ==> d in new_ && new_[d] < new_[s.id]
    {
      InExtended(steps, check, s);
      if s != FixStep(check, fix) && s != RecheckStep(check, recheck, fix) {
        var o :| o in steps && s == Rewire(o, check.id, recheck);
        forall d | d in s.dependsOn ensures d in new_ && new_[d] < new_[s.id] {
          RewiredRank(steps, check, o, rank, bound, d);
        }
      }
    }
    assert Ranked(all, new_, 3 * bound);
  }

  /** Sending work back keeps a valid plan valid, though it is not validated again. */
  lemma SendBackKeepsValid(run: Run, i: nat)
    requires i < |run.steps| && ValidPlan(run.steps)
    ensures ValidPlan(SendBack(run, i).steps)
  {
    var check := run.steps[i];
    ValidIffRankable(run.steps);
    if check.attempt <= run.maxFix {
      ExtendedIsFormed(run.steps, check);
      ExtendedIsRankable(run.steps, check);
      ValidIffRankable(Extended(run.steps, check));
    }
  }

  // --------------------------------------------------- what waits, keeps waiting

  /** `a` waits for `b`, directly or through others. */
  ghost predicate WaitsFor(steps: seq<Step>, a: string, b: string) {
    StepOrder.Reaches(Nodes(steps), a, b)
  }

  lemma DirectWait(steps: seq<Step>, s: Step, d: string)
    requires s in steps && d in s.dependsOn && d in IdSet(steps)
    ensures StepOrder.DependsOn(Nodes(steps), s.id, d) && WaitsFor(steps, s.id, d)
  {
    NodesOf(steps);
    assert Node(s) in Nodes(steps);
    StepOrder.ReachesOne(Nodes(steps), s.id, d);
  }

  lemma {:induction false} WaitFurther(nodes: seq<StepOrder.Step>, a: string, p: seq<string>)
    requires StepOrder.Chain(nodes, p) && StepOrder.Reaches(nodes, a, p[0])
    ensures StepOrder.Reaches(nodes, a, p[|p| - 1])
    decreases |p|
  {
    StepOrder.ReachesFurther(nodes, a, p[0], p[1]);
    if |p| > 2 {
      var q := p[1..];
      TailIsChain(nodes, p);
      WaitFurther(nodes, a, q);
    }
  }

  lemma TailIsChain(nodes: seq<StepOrder.Step>, p: seq<string>)
    requires StepOrder.Chain(nodes, p) && |p| > 2
    ensures StepOrder.Chain(nodes, p[1..])
  {
    forall k | 0 <= k < |p[1..]| - 1 ensures StepOrder.DependsOn(nodes, p[1..][k], p[1..][k + 1]) {
      assert p[1..][k] == p[k + 1] && p[1..][k + 1] == p[k + 2];
    }
  }

  lemma WaitsTransitively(steps: seq<Step>, a: string, b: string, c: string)
    requires WaitsFor(steps, a, b) && WaitsFor(steps, b, c)
    ensures WaitsFor(steps, a, c)
  {
    var p :| StepOrder.Chain(Nodes(steps), p) && p[0] == b && p[|p| - 1] == c;
    WaitFurther(Nodes(steps), a, p);
  }

  /** The repeated check waits for the fix, and the fix for the check. */
  lemma RecheckWaits(steps: seq<Step>, check: Step)
    requires check in steps
    ensures var all := Extended(steps, check);
      WaitsFor(all, RecheckId(steps, check), FixId(steps, check)) && WaitsFor(all, FixId(steps, check), check.id)
      && WaitsFor(all, RecheckId(steps, check), check.id)
  {
    var all, fix, recheck := Extended(steps, check), FixId(steps, check), RecheckId(steps, check);
    IdsOfExtended(steps, check);
    assert all[|steps|] == FixStep(check, fix) && all[|steps| + 1] == RecheckStep(check, recheck, fix);
    DirectWait(all, all[|steps|], check.id);
    DirectWait(all, all[|steps| + 1], fix);
    WaitsTransitively(all, recheck, fix, check.id);
  }

  lemma DirectWaitKept(steps: seq<Step>, check: Step, s: Step, d: string)
    requires check in steps && s in steps && d in s.dependsOn && d in IdSet(steps)
    ensures WaitsFor(Extended(steps, check), s.id, d)
    ensures d == check.id ==> WaitsFor(Extended(steps, check), s.id, RecheckId(steps, check))
  {
    var all, recheck := Extended(steps, check), RecheckId(steps, check);
    IdsOfExtended(steps, check);
    var i :| 0 <= i < |steps| && steps[i] == s;
    assert all[i] == Rewire(s, check.id, recheck) && all[i] in all;
    RewiredDependencies(s, check.id, recheck, if d == check.id then recheck else d);
    DirectWait(all, all[i], if d == check.id then recheck else d);
    if d == check.id {
      RecheckWaits(steps, check);
      WaitsTransitively(all, s.id, recheck, check.id);
    }
  }

  lemma {:induction false} ChainKept(steps: seq<Step>, check: Step, p: seq<string>)
    requires check in steps && StepOrder.Chain(Nodes(steps), p)
    ensures WaitsFor(Extended(steps, check), p[0], p[|p| - 1])
    ensures p[|p| - 1] == check.id ==> WaitsFor(Extended(steps, check), p[0], RecheckId(steps, check))
    decreases |p|
  {
    NodesOf(steps);
    assert StepOrder.DependsOn(Nodes(steps), p[0], p[1]);
    var i :| 0 <= i < |steps| && Nodes(steps)[i].id == p[0] && p[1] in Nodes(steps)[i].dependsOn;
    DirectWaitKept(steps, check, steps[i], p[1]);
    if |p| > 2 {
      TailIsChain(Nodes(steps), p);
      ChainKept(steps, check, p[1..]);
      WaitsTransitively(Extended(steps, check), p[0], p[1], p[|p| - 1]);
      if p[|p| - 1] == check.id {
        WaitsTransitively(Extended(steps, check), p[0], p[1], RecheckId(steps, check));
      }
    }
  }

  /** When work is sent back, whatever waited for a step goes on waiting for it, and what waited for the check waits for the repeated one. */
  lemma SendBackKeepsWaiting(steps: seq<Step>, check: Step, a: string, b: string)
    requires check in steps && WaitsFor(steps, a, b)
    ensures WaitsFor(Extended(steps, check), a, b)
    ensures b == check.id ==> WaitsFor(Extended(steps, check), a, RecheckId(steps, check))
  {
    var p :| StepOrder.Chain(Nodes(steps), p) && p[0] == a && p[|p| - 1] == b;
    ChainKept(steps, check, p);
  }
}
