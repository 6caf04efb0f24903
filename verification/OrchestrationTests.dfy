/** When the builders of a plan are followed by a test. */
module OrchestrationTests {
  import opened Basics
  import opened Orchestration
  import opened OrchestrationGraph
  import opened OrchestrationPlanning
  import StepOrder

  /** Every builder among the new steps has a new test that waits for it. */
  ghost predicate BuildersTested(all: seq<Step>, added: seq<Step>) {
    forall b :: b in added && b.kind == Implementation ==> exists t :: t in added && t.kind == Testing && WaitsFor(all, t.id, b.id)
  }

  /** Every builder of the planner has a test of the planner that depends on it, directly or through others. */
  ghost predicate PlannerTests(planned: seq<Planned>) {
    forall b :: b in planned && b.kind == Implementation ==>
      exists t :: t in planned && t.kind == Testing && StepOrder.Reaches(PlannedNodes(planned), t.id, b.id)
  }

  predicate GivesTest(planned: seq<Planned>) {
    exists p :: p in planned && p.kind == Testing
  }

  // ------------------------------------------------ from the planner's graph on

  lemma EdgeIsKept(steps: seq<Step>, plannerId: string, planned: seq<Planned>, i: nat, d: string)
    requires Parsed(planned) && plannerId in IdSet(steps) && i < |planned| && d in planned[i].dependsOn
    requires ValidPlan(steps + AddedSteps(steps, plannerId, planned))
    ensures var names := NewNames(steps, planned);
      WaitsFor(steps + AddedSteps(steps, plannerId, planned), names[i], NameOf(planned, names, d))
  {
    var names, block := NewNames(steps, planned), Block(steps, plannerId, planned);
    var all := steps + AddedSteps(steps, plannerId, planned);
    var more := AddedShape(steps, plannerId, planned);
    assert all[|steps| + i] == block[i] && all[|steps| + i] in all;
    var k :| 0 <= k < |planned[i].dependsOn| && planned[i].dependsOn[k] == d;
    assert block[i].dependsOn[k] == NameOf(planned, names, d);
    ValidIffRankable(all);
    DirectWait(all, block[i], NameOf(planned, names, d));
  }

  /** `all` waits along the edges of the planner's graph, under the new names. */
  ghost predicate EdgesKept(all: seq<Step>, planned: seq<Planned>, names: seq<string>)
    requires |names| == |planned|
  {
    forall i, d :: 0 <= i < |planned| && d in planned[i].dependsOn ==> WaitsFor(all, names[i], NameOf(planned, names, d))
  }

  lemma FirstEdge(planned: seq<Planned>, names: seq<string>, all: seq<Step>, p: seq<string>)
    requires Parsed(planned) && |names| == |planned| && EdgesKept(all, planned, names)
    requires StepOrder.Chain(PlannedNodes(planned), p)
    ensures WaitsFor(all, NameOf(planned, names, p[0]), NameOf(planned, names, p[1]))
  {
    var nodes := PlannedNodes(planned);
    assert StepOrder.DependsOn(nodes, p[0], p[1]);
    var i :| 0 <= i < |nodes| && nodes[i].id == p[0] && p[1] in nodes[i].dependsOn;
    NameOfIs(planned, names, i);
  }

  lemma {:induction false} ChainIsKept(planned: seq<Planned>, names: seq<string>, all: seq<Step>, p: seq<string>)
    requires Parsed(planned) && |names| == |planned| && EdgesKept(all, planned, names)
    requires StepOrder.Chain(PlannedNodes(planned), p)
    ensures WaitsFor(all, NameOf(planned, names, p[0]), NameOf(planned, names, p[|p| - 1]))
    decreases |p|
  {
    FirstEdge(planned, names, all, p);
    if |p| > 2 {
      TailIsChain(PlannedNodes(planned), p);
      var q := p[1..];
      ChainIsKept(planned, names, all, q);
      assert q[0] == p[1] && q[|q| - 1] == p[|p| - 1];
      WaitsTransitively(all, NameOf(planned, names, p[0]), NameOf(planned, names, p[1]), NameOf(planned, names, p[|p| - 1]));
    }
  }

  // --------------------------------------------------- back to the planner's graph

  lemma {:induction false} OldWaitsForOld(steps: seq<Step>, added: seq<Step>, p: seq<string>)
    requires Formed(steps) && Unique(steps + added) && StepOrder.Chain(Nodes(steps + added), p) && p[0] in IdSet(steps)
    ensures p[|p| - 1] in IdSet(steps)
    decreases |p|
  {
    var all := steps + added;
    assert StepOrder.DependsOn(Nodes(all), p[0], p[1]);
    var i :| 0 <= i < |all| && Nodes(all)[i].id == p[0] && p[1] in Nodes(all)[i].dependsOn;
    var s :| s in steps && s.id == p[0];
    OneWithId(all, all[i], s);
    if |p| > 2 {
      TailIsChain(Nodes(all), p);
      OldWaitsForOld(steps, added, p[1..]);
    }
  }

  /** The first edge of a chain among the new steps leads to another planned step. */
  lemma EdgeOfPlanner(steps: seq<Step>, plannerId: string, planned: seq<Planned>, p: seq<string>, i: nat, j: nat)
    returns (k: nat)
    requires Parsed(planned) && Formed(steps) && plannerId in IdSet(steps) && i < |planned| && j < |planned|
    requires Unique(steps + AddedSteps(steps, plannerId, planned))
    requires StepOrder.Chain(Nodes(steps + AddedSteps(steps, plannerId, planned)), p)
    requires p[0] == NewNames(steps, planned)[i] && p[|p| - 1] == NewNames(steps, planned)[j]
    ensures k < |planned| && p[1] == NewNames(steps, planned)[k] && planned[k].id in planned[i].dependsOn
  {
    var names, block, added := NewNames(steps, planned), Block(steps, plannerId, planned), AddedSteps(steps, plannerId, planned);
    var all := steps + added;
    var more := AddedShape(steps, plannerId, planned);
    NewNamesAreFresh(steps, planned);
    assert all[|steps| + i] == block[i] && all[|steps| + i] in all;
    assert StepOrder.DependsOn(Nodes(all), p[0], p[1]);
    var m :| 0 <= m < |all| && Nodes(all)[m].id == p[0] && p[1] in Nodes(all)[m].dependsOn;
    OneWithId(all, all[m], block[i]);
    k := BlockDependency(steps, plannerId, planned, i, p[1]);
    assert names[j] in names;
    if p[1] == plannerId {
      if |p| > 2 {
        TailIsChain(Nodes(all), p);
        OldWaitsForOld(steps, added, p[1..]);
      }
    }
  }

  lemma {:induction false} ChainOfPlanner(steps: seq<Step>, plannerId: string, planned: seq<Planned>, all: seq<Step>,
                                          p: seq<string>, i: nat, j: nat)
    requires Parsed(planned) && Formed(steps) && plannerId in IdSet(steps) && i < |planned| && j < |planned|
    requires all == steps + AddedSteps(steps, plannerId, planned) && Unique(all) && StepOrder.Chain(Nodes(all), p)
    requires p[0] == NewNames(steps, planned)[i] && p[|p| - 1] == NewNames(steps, planned)[j]
    ensures StepOrder.Reaches(PlannedNodes(planned), planned[i].id, planned[j].id)
    decreases |p|
  {
    var k := EdgeOfPlanner(steps, plannerId, planned, p, i, j);
    PlannedEdge(planned, i, k);
    if |p| > 2 {
      TailIsChain(Nodes(all), p);
      ChainOfPlanner(steps, plannerId, planned, all, p[1..], k, j);
      ReachesThrough(PlannedNodes(planned), planned[i].id, planned[k].id, planned[j].id);
    } else {
      NewNamesAreFresh(steps, planned);
      SameName(NewNames(steps, planned), k, j);
    }
  }

  lemma PlannedEdge(planned: seq<Planned>, i: nat, k: nat)
    requires i < |planned| && k < |planned| && planned[k].id in planned[i].dependsOn
    ensures StepOrder.Reaches(PlannedNodes(planned), planned[i].id, planned[k].id)
  {
    var nodes := PlannedNodes(planned);
    assert nodes[i].id == planned[i].id && nodes[k].id == planned[k].id;
    assert StepOrder.DependsOn(nodes, planned[i].id, planned[k].id);
    StepOrder.ReachesOne(nodes, planned[i].id, planned[k].id);
  }

  lemma ReachesThrough(nodes: seq<StepOrder.Step>, a: string, b: string, c: string)
    requires StepOrder.Reaches(nodes, a, b) && StepOrder.Reaches(nodes, b, c)
    ensures StepOrder.Reaches(nodes, a, c)
  {
    var q :| StepOrder.Chain(nodes, q) && q[0] == b && q[|q| - 1] == c;
    WaitFurther(nodes, a, q);
  }

  lemma SameName(names: seq<string>, k: nat, j: nat)
    requires Distinct(names) && k < |names| && j < |names| && names[k] == names[j]
    ensures k == j
  {
  }

  // -------------------------------------------------------------- the condition

  /** The new steps of a kind that the orchestrator adds none of are the planner's. */
  lemma NewBuilderIsPlanned(steps: seq<Step>, plannerId: string, planned: seq<Planned>, s: Step) returns (i: nat)
    requires s in AddedSteps(steps, plannerId, planned)
    requires s.kind == Implementation || (s.kind == Testing && GivesTest(planned))
    ensures i < |planned| && s == Block(steps, plannerId, planned)[i] && planned[i].kind == s.kind
  {
    var block := Block(steps, plannerId, planned);
    var more := AddedShape(steps, plannerId, planned);
    if s.kind == Testing {
      var p :| p in planned && p.kind == Testing;
      var j :| 0 <= j < |planned| && planned[j] == p;
      assert block[j] in block && block[j].kind == Testing;
      OfKindIs(block, Testing);
      assert block[j].id in OfKind(block, Testing);
    }
    i :| 0 <= i < |block| && block[i] == s;
  }

  lemma PlannedIsNew(steps: seq<Step>, plannerId: string, planned: seq<Planned>, i: nat)
    requires i < |planned|
    ensures var s := Block(steps, plannerId, planned)[i];
      s in AddedSteps(steps, plannerId, planned) && s.id == NewNames(steps, planned)[i] && s.kind == planned[i].kind
  {
    var more := AddedShape(steps, plannerId, planned);
    assert AddedSteps(steps, plannerId, planned)[i] == Block(steps, plannerId, planned)[i];
  }

  lemma AddedTestWaits(steps: seq<Step>, plannerId: string, planned: seq<Planned>, b: Step)
    requires Parsed(planned) && plannerId in IdSet(steps) && ValidPlan(steps + AddedSteps(steps, plannerId, planned))
    requires !GivesTest(planned) && b in AddedSteps(steps, plannerId, planned) && b.kind == Implementation
    ensures exists t :: t in AddedSteps(steps, plannerId, planned) && t.kind == Testing
              && WaitsFor(steps + AddedSteps(steps, plannerId, planned), t.id, b.id)
  {
    var added := AddedSteps(steps, plannerId, planned);
    var i := NewBuilderIsPlanned(steps, plannerId, planned, b);
    BuildsAreChecked(steps, plannerId, planned, planned[i]);
    var t :| t in added && t.kind == Testing && t.dependsOn == OfKind(added, Implementation);
    OfKindIs(added, Implementation);
    assert b.id in t.dependsOn;
    var all := steps + added;
    assert t in all && b in all;
    DirectWait(all, t, b.id);
  }

  /**
   Every builder of an accepted plan is followed by a test exactly if the planner
   gave no test, or gave each of its builders one that depends on it.
   */
  lemma BuildersTestedIff(steps: seq<Step>, plannerId: string, planned: seq<Planned>)
    requires ValidPlan(steps) && plannerId in IdSet(steps) && Parsed(planned) && Expand(steps, plannerId, planned).Some?
    ensures BuildersTested(Expand(steps, plannerId, planned).value, AddedSteps(steps, plannerId, planned))
       <==> !GivesTest(planned) || PlannerTests(planned)
  {
    var added := AddedSteps(steps, plannerId, planned);
    var all := steps + added;
    ValidIffRankable(steps);
    ValidIffRankable(all);
    if !GivesTest(planned) {
      forall b | b in added && b.kind == Implementation
        ensures exists t :: t in added && t.kind == Testing && WaitsFor(all, t.id, b.id)
      {
        AddedTestWaits(steps, plannerId, planned, b);
      }
    } else if PlannerTests(planned) {
      forall b | b in added && b.kind == Implementation
        ensures exists t :: t in added && t.kind == Testing && WaitsFor(all, t.id, b.id)
      {
        TestedInPlan(steps, plannerId, planned, b);
      }
    } else if BuildersTested(all, added) {
      forall b | b in planned && b.kind == Implementation
        ensures exists t :: t in planned && t.kind == Testing && StepOrder.Reaches(PlannedNodes(planned), t.id, b.id)
      {
        TestedByPlanner(steps, plannerId, planned, b);
      }
      assert false;
    }
  }

  lemma TestedInPlan(steps: seq<Step>, plannerId: string, planned: seq<Planned>, b: Step)
    requires Parsed(planned) && plannerId in IdSet(steps) && ValidPlan(steps + AddedSteps(steps, plannerId, planned))
    requires PlannerTests(planned) && b in AddedSteps(steps, plannerId, planned) && b.kind == Implementation
    ensures exists t :: t in AddedSteps(steps, plannerId, planned) && t.kind == Testing
              && WaitsFor(steps + AddedSteps(steps, plannerId, planned), t.id, b.id)
  {
    var names := NewNames(steps, planned);
    var i := NewBuilderIsPlanned(steps, plannerId, planned, b);
    assert planned[i] in planned;
    var t :| t in planned && t.kind == Testing && StepOrder.Reaches(PlannedNodes(planned), t.id, planned[i].id);
    var j :| 0 <= j < |planned| && planned[j] == t;
    var p :| StepOrder.Chain(PlannedNodes(planned), p) && p[0] == t.id && p[|p| - 1] == planned[i].id;
    forall i, d | 0 <= i < |planned| && d in planned[i].dependsOn
      ensures WaitsFor(steps + AddedSteps(steps, plannerId, planned), names[i], NameOf(planned, names, d))
    {
      EdgeIsKept(steps, plannerId, planned, i, d);
    }
    ChainIsKept(planned, names, steps + AddedSteps(steps, plannerId, planned), p);
    NameOfIs(planned, names, i);
    NameOfIs(planned, names, j);
    PlannedIsNew(steps, plannerId, planned, j);
  }

  lemma TestedByPlanner(steps: seq<Step>, plannerId: string, planned: seq<Planned>, b: Planned)
    requires Parsed(planned) && Formed(steps) && plannerId in IdSet(steps)
    requires Unique(steps + AddedSteps(steps, plannerId, planned)) && GivesTest(planned)
    requires BuildersTested(steps + AddedSteps(steps, plannerId, planned), AddedSteps(steps, plannerId, planned))
    requires b in planned && b.kind == Implementation
    ensures exists t :: t in planned && t.kind == Testing && StepOrder.Reaches(PlannedNodes(planned), t.id, b.id)
  {
    var added := AddedSteps(steps, plannerId, planned);
    var i :| 0 <= i < |planned| && planned[i] == b;
    PlannedIsNew(steps, plannerId, planned, i);
    var s := Block(steps, plannerId, planned)[i];
    assert s in added && s.kind == Implementation;
    var t :| t in added && t.kind == Testing && WaitsFor(steps + added, t.id, s.id);
    var j := NewBuilderIsPlanned(steps, plannerId, planned, t);
    var p :| StepOrder.Chain(Nodes(steps + added), p) && p[0] == t.id && p[|p| - 1] == s.id;
    ChainOfPlanner(steps, plannerId, planned, steps + added, p, j, i);
    assert planned[j] in planned;
  }
}
