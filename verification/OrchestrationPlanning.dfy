/** What becomes of a planner's plan: when it is accepted, and where its steps stand. */
module OrchestrationPlanning {
  import opened Basics
  import opened Orchestration
  import opened OrchestrationGraph
  import PlanGraph
  import StepOrder

  // ------------------------------------------------------------------- names

  ghost predicate Distinct(names: seq<string>) {
    forall i, j :: 0 <= i < j < |names| ==> names[i] != names[j]
  }

  lemma DistinctCons(name: string, rest: seq<string>)
    requires Distinct(rest) && name !in rest
    ensures Distinct([name] + rest)
  {
    var all := [name] + rest;
    forall i, j | 0 <= i < j < |all| ensures all[i] != all[j] {
      assert all[j] == rest[j - 1] && rest[j - 1] in rest;
      assert i > 0 ==> all[i] == rest[i - 1];
    }
  }

  lemma {:induction false} NamesAreFresh(taken: set<string>, planned: seq<Planned>)
    requires forall p :: p in planned ==> p.id != ""
    ensures forall name :: name in Names(taken, planned) ==> name !in taken && name != ""
    ensures Distinct(Names(taken, planned))
    decreases |planned|
  {
    if planned != [] {
      var id := UniqueId(taken, planned[0].id);
      NamesAreFresh(taken + {id}, planned[1..]);
      DistinctCons(id, Names(taken + {id}, planned[1..]));
    }
  }

  lemma NewNamesAreFresh(steps: seq<Step>, planned: seq<Planned>)
    requires Parsed(planned)
    ensures forall name :: name in NewNames(steps, planned) ==> name !in IdSet(steps) && name != ""
    ensures Distinct(NewNames(steps, planned))
  {
    NamesAreFresh(IdSet(steps), planned);
  }

  lemma {:induction false} NameOfIs(planned: seq<Planned>, names: seq<string>, j: nat)
    requires |names| == |planned| && j < |planned|
    requires forall i, k :: 0 <= i < k < |planned| ==> planned[i].id != planned[k].id
    ensures NameOf(planned, names, planned[j].id) == names[j]
    decreases |planned|
  {
    if j > 0 {
      NameOfIs(planned[1..], names[1..], j - 1);
    }
  }

  lemma DependencyIsNamed(planned: seq<Planned>, names: seq<string>, p: Planned, d: string) returns (j: nat)
    requires Parsed(planned) && |names| == |planned| && p in planned && d in p.dependsOn
    ensures j < |planned| && planned[j].id == d && NameOf(planned, names, d) == names[j]
  {
    var q :| q in planned && q.id == d;
    j :| 0 <= j < |planned| && planned[j] == q;
    NameOfIs(planned, names, j);
  }

  // -------------------------------------------------------------- one more step

  lemma IdSetSnoc(steps: seq<Step>, s: Step)
    ensures IdSet(steps + [s]) == IdSet(steps) + {s.id}
  {
    assert (steps + [s])[|steps|] == s;
    forall id | id in IdSet(steps) + {s.id} ensures id in IdSet(steps + [s]) {
      if id in IdSet(steps) {
        var t :| t in steps && t.id == id;
        assert t in steps + [s];
      } else {
        assert s in steps + [s];
      }
    }
  }

  lemma IdSetConcat(a: seq<Step>, b: seq<Step>)
    ensures IdSet(a + b) == IdSet(a) + IdSet(b)
  {
    forall id | id in IdSet(a) + IdSet(b) ensures id in IdSet(a + b) {
      var t :| (t in a || t in b) && t.id == id;
      assert t in a + b;
    }
  }

  /** A step behind steps that are already there. */
  lemma AppendKeepsFormed(steps: seq<Step>, s: Step)
    requires Formed(steps) && s.id != "" && s.id !in IdSet(steps) && forall d :: d in s.dependsOn ==> d in IdSet(steps)
    ensures Formed(steps + [s])
  {
    var all := steps + [s];
    IdSetSnoc(steps, s);
    forall i, j | 0 <= i < j < |all| ensures all[i].id != all[j].id {
      assert all[i] == steps[i] && steps[i] in steps;
      assert j < |steps| ==> all[j] == steps[j];
    }
    forall t | t in all ensures t.id != "" && forall d :: d in t.dependsOn ==> d in IdSet(all) && d != t.id {
      assert t in steps || t == s;
    }
  }

  lemma AppendKeepsRankable(steps: seq<Step>, s: Step)
    requires Formed(steps) && Rankable(steps)
    requires s.id !in IdSet(steps) && forall d :: d in s.dependsOn ==> d in IdSet(steps)
    ensures Rankable(steps + [s])
  {
    var all := steps + [s];
    var rank, bound :| Ranked(steps, rank, bound);
    var top := Max(bound, 0);
    var new_ := rank[s.id := top];
    forall t | t in all
      ensures t.id in new_ && 0 <= new_[t.id] < top + 1 && forall d :: d in t.dependsOn ==> d in new_ && new_[d] < new_[t.id]
    {
      assert t in steps || t == s;
      if t in steps {
        assert t.id in IdSet(steps) && t.id != s.id;
      } else {
        forall d | d in t.dependsOn ensures d in new_ && new_[d] < top {
          var o :| o in steps && o.id == d;
        }
      }
    }
    assert Ranked(all, new_, top + 1);
  }

  lemma AppendKeepsValid(steps: seq<Step>, s: Step)
    requires ValidPlan(steps)
    requires s.id != "" && s.id !in IdSet(steps) && forall d :: d in s.dependsOn ==> d in IdSet(steps)
    ensures ValidPlan(steps + [s])
  {
    ValidIffRankable(steps);
    AppendKeepsFormed(steps, s);
    AppendKeepsRankable(steps, s);
    ValidIffRankable(steps + [s]);
  }

  // ------------------------------------------------------------ the planned steps

  function NewNames(steps: seq<Step>, planned: seq<Planned>): (names: seq<string>)
    ensures |names| == |planned|
  {
    Names(IdSet(steps), planned)
  }

  function Block(steps: seq<Step>, plannerId: string, planned: seq<Planned>): seq<Step> {
    PlannedSteps(planned, NewNames(steps, planned), plannerId)
  }

  /** A dependency of the `i`-th planned step is the planning step or another planned one. */
  lemma BlockDependency(steps: seq<Step>, plannerId: string, planned: seq<Planned>, i: nat, d: string) returns (j: nat)
    requires Parsed(planned) && i < |planned| && d in Block(steps, plannerId, planned)[i].dependsOn
    ensures || (d == plannerId && planned[i].dependsOn == [])
            || (j < |planned| && d == NewNames(steps, planned)[j] && planned[j].id in planned[i].dependsOn)
  {
    j := 0;
    var p, names := planned[i], NewNames(steps, planned);
    if p.dependsOn != [] {
      var deps := Block(steps, plannerId, planned)[i].dependsOn;
      var k :| 0 <= k < |deps| && deps[k] == d;
      assert p in planned && p.dependsOn[k] in p.dependsOn;
      j := DependencyIsNamed(planned, names, p, p.dependsOn[k]);
    }
  }

  lemma BlockIds(steps: seq<Step>, plannerId: string, planned: seq<Planned>)
    ensures forall id :: id in IdSet(Block(steps, plannerId, planned)) <==> id in NewNames(steps, planned)
  {
    var block, names := Block(steps, plannerId, planned), NewNames(steps, planned);
    forall id ensures id in IdSet(block) <==> id in names {
      if id in names {
        var j :| 0 <= j < |names| && names[j] == id;
        assert block[j] in block && block[j].id == id;
      }
      if id in IdSet(block) {
        var j :| 0 <= j < |block| && block[j].id == id;
        assert names[j] == id;
      }
    }
  }

  lemma UniqueConcat(a: seq<Step>, b: seq<Step>)
    requires Unique(a) && Unique(b) && IdSet(a) !! IdSet(b)
    ensures Unique(a + b)
  {
    var all := a + b;
    forall i, j | 0 <= i < j < |all| ensures all[i].id != all[j].id {
      if i < |a| <= j {
        assert a[i] in a && b[j - |a|] in b;
        assert a[i].id in IdSet(a) && b[j - |a|].id in IdSet(b);
      }
    }
  }

  lemma BlockIsUnique(steps: seq<Step>, plannerId: string, planned: seq<Planned>)
    requires Unique(steps) && Parsed(planned)
    ensures Unique(steps + Block(steps, plannerId, planned))
  {
    var names, block := NewNames(steps, planned), Block(steps, plannerId, planned);
    NewNamesAreFresh(steps, planned);
    BlockIds(steps, plannerId, planned);
    assert forall i :: 0 <= i < |block| ==> block[i].id == names[i];
    UniqueConcat(steps, block);
  }

  lemma BlockStepIsFormed(steps: seq<Step>, plannerId: string, planned: seq<Planned>, i: nat)
    requires plannerId in IdSet(steps) && Parsed(planned) && i < |planned|
    ensures var s := Block(steps, plannerId, planned)[i];
      s.id != "" && forall d :: d in s.dependsOn ==> (d in IdSet(steps) || d in NewNames(steps, planned)) && d != s.id
  {
    var names, s := NewNames(steps, planned), Block(steps, plannerId, planned)[i];
    NewNamesAreFresh(steps, planned);
    assert s.id == names[i] && names[i] in names;
    forall d | d in s.dependsOn ensures (d in IdSet(steps) || d in names) && d != s.id {
      var j := BlockDependency(steps, plannerId, planned, i, d);
      if d != plannerId {
        assert planned[i] in planned;
        assert planned[j].id != planned[i].id;
      }
    }
  }

  lemma BlockIsFormed(steps: seq<Step>, plannerId: string, planned: seq<Planned>)
    requires Formed(steps) && plannerId in IdSet(steps) && Parsed(planned)
    ensures Formed(steps + Block(steps, plannerId, planned))
  {
    var block := Block(steps, plannerId, planned);
    var all := steps + block;
    BlockIsUnique(steps, plannerId, planned);
    IdSetConcat(steps, block);
    BlockIds(steps, plannerId, planned);
    forall s | s in all ensures s.id != "" && forall d :: d in s.dependsOn ==> d in IdSet(all) && d != s.id {
      if s !in steps {
        var i :| 0 <= i < |block| && block[i] == s;
        BlockStepIsFormed(steps, plannerId, planned, i);
      }
    }
  }

  // ---------------------------------------------------- accepted: the plan is acyclic

  /** The planner's own graph. */
  function PlannedNodes(planned: seq<Planned>): seq<StepOrder.Step> {
    seq(|planned|, i requires 0 <= i < |planned| => StepOrder.Step(planned[i].id, "", planned[i].dependsOn))
  }

  lemma PlannedIsFormed(planned: seq<Planned>)
    requires Parsed(planned)
    ensures PlanGraph.WellFormed(PlannedNodes(planned))
  {
    var nodes := PlannedNodes(planned);
    forall n | n in nodes ensures n.id != "" && forall d :: d in n.dependsOn ==> StepOrder.Listed(nodes, d) && d != n.id {
      var i :| 0 <= i < |nodes| && nodes[i] == n;
      assert planned[i] in planned;
      forall d | d in n.dependsOn ensures StepOrder.Listed(nodes, d) && d != n.id {
        var q :| q in planned && q.id == d;
        var j :| 0 <= j < |planned| && planned[j] == q;
        assert nodes[j].id == d;
      }
    }
  }

  ghost function BlockRank(names: seq<string>, planned: seq<Planned>, rank: map<string, int>, bound: int, own: map<string, int>):
    map<string, int>
    requires |names| == |planned| && forall i :: 0 <= i < |planned| ==> planned[i].id in own
  {
    rank + map id | id in names :: bound + own[planned[PlanGraph.Position(names, id)].id]
  }

  lemma BlockRankAt(names: seq<string>, planned: seq<Planned>, rank: map<string, int>, bound: int, own: map<string, int>, i: nat)
    requires |names| == |planned| && forall i :: 0 <= i < |planned| ==> planned[i].id in own
    requires i < |names| && Distinct(names)
    ensures names[i] in BlockRank(names, planned, rank, bound, own)
    ensures BlockRank(names, planned, rank, bound, own)[names[i]] == bound + own[planned[i].id]
  {
    assert names[i] in names;
    assert PlanGraph.Position(names, names[i]) == i;
  }

  lemma OwnRank(planned: seq<Planned>, own: map<string, int>, top: int, i: nat)
    requires PlanGraph.Ranked(PlannedNodes(planned), own, top) && i < |planned|
    ensures planned[i].id in own && 0 <= own[planned[i].id] < top
    ensures forall d :: d in planned[i].dependsOn ==> d in own && own[d] < own[planned[i].id]
  {
    assert PlannedNodes(planned)[i] in PlannedNodes(planned);
  }

  lemma BlockIsRanked(steps: seq<Step>, plannerId: string, planned: seq<Planned>,
                      rank: map<string, int>, bound: int, own: map<string, int>, top: int, i: nat)
    requires Formed(steps) && plannerId in IdSet(steps) && Parsed(planned) && i < |planned|
    requires Ranked(steps, rank, bound) && PlanGraph.Ranked(PlannedNodes(planned), own, top)
    requires forall i :: 0 <= i < |planned| ==> planned[i].id in own
    ensures var new_ := BlockRank(NewNames(steps, planned), planned, rank, bound, own);
      var s := Block(steps, plannerId, planned)[i];
      && s.id in new_ && 0 <= new_[s.id] < bound + top
      && forall d :: d in s.dependsOn ==> d in new_ && new_[d] < new_[s.id]
  {
    var names := NewNames(steps, planned);
    NewNamesAreFresh(steps, planned);
    OwnRank(planned, own, top, i);
    BlockRankAt(names, planned, rank, bound, own, i);
    var o :| o in steps && o.id == plannerId;
    var new_ := BlockRank(names, planned, rank, bound, own);
    var s := Block(steps, plannerId, planned)[i];
    forall d | d in s.dependsOn ensures d in new_ && new_[d] < new_[s.id] {
      var j := BlockDependency(steps, plannerId, planned, i, d);
      if d != plannerId {
        BlockRankAt(names, planned, rank, bound, own, j);
      } else {
        assert plannerId !in names;
      }
    }
  }

  lemma OldIsRanked(steps: seq<Step>, planned: seq<Planned>, rank: map<string, int>, bound: int, own: map<string, int>, s: Step)
    requires Formed(steps) && Parsed(planned) && Ranked(steps, rank, bound) && s in steps
    requires forall i :: 0 <= i < |planned| ==> planned[i].id in own
    ensures var new_ := BlockRank(NewNames(steps, planned), planned, rank, bound, own);
      && s.id in new_ && 0 <= new_[s.id] < bound
      && forall d :: d in s.dependsOn ==> d in new_ && new_[d] < new_[s.id]
  {
    NewNamesAreFresh(steps, planned);
    assert s.id in IdSet(steps);
    assert forall d :: d in s.dependsOn ==> d in IdSet(steps);
  }

  lemma BlockIsRankable(steps: seq<Step>, plannerId: string, planned: seq<Planned>)
    requires Formed(steps) && Rankable(steps) && plannerId in IdSet(steps) && Parsed(planned)
    requires StepOrder.Acyclic(PlannedNodes(planned))
    ensures Rankable(steps + Block(steps, plannerId, planned))
  {
    PlannedIsFormed(planned);
    var own, top := PlanGraph.DagIsRanked(PlannedNodes(planned));
    forall i | 0 <= i < |planned| ensures planned[i].id in own {
      OwnRank(planned, own, top, i);
    }
    OwnRank(planned, own, top, 0);
    var rank, bound :| Ranked(steps, rank, bound);
    var block := Block(steps, plannerId, planned);
    var all, new_ := steps + block, BlockRank(NewNames(steps, planned), planned, rank, bound, own);
    forall s | s in all
      ensures s.id in new_ && 0 <= new_[s.id] < bound + top && forall d :: d in s.dependsOn ==> d in new_ && new_[d] < new_[s.id]
    {
      if s in steps {
        OldIsRanked(steps, planned, rank, bound, own, s);
      } else {
        var i :| 0 <= i < |block| && block[i] == s;
        BlockIsRanked(steps, plannerId, planned, rank, bound, own, top, i);
      }
    }
    assert Ranked(all, new_, bound + top);
  }

  /** A ranking of the whole plan, read back on the planner's own ids. */
  ghost function ReadBack(planned: seq<Planned>, names: seq<string>, rank: map<string, int>): map<string, int>
    requires |names| == |planned|
  {
    map p | p in planned && NameOf(planned, names, p.id) in rank :: p.id := rank[NameOf(planned, names, p.id)]
  }

  lemma ReadBackAt(planned: seq<Planned>, names: seq<string>, rank: map<string, int>, j: nat)
    requires Parsed(planned) && |names| == |planned| && j < |planned| && names[j] in rank
    ensures planned[j].id in ReadBack(planned, names, rank)
    ensures ReadBack(planned, names, rank)[planned[j].id] == rank[names[j]]
  {
    NameOfIs(planned, names, j);
    assert planned[j] in planned;
  }

  lemma NodeIsRanked(steps: seq<Step>, plannerId: string, planned: seq<Planned>, more: seq<Step>,
                     rank: map<string, int>, bound: int, i: nat)
    requires Parsed(planned) && Ranked(steps + (Block(steps, plannerId, planned) + more), rank, bound) && i < |planned|
    ensures var names := NewNames(steps, planned);
      && names[i] in rank && 0 <= rank[names[i]] < bound
      && forall d :: d in planned[i].dependsOn ==>
           NameOf(planned, names, d) in rank && rank[NameOf(planned, names, d)] < rank[names[i]]
  {
    var block := Block(steps, plannerId, planned);
    var all := steps + (block + more);
    assert all[|steps| + i] == block[i] && all[|steps| + i] in all;
    forall d | d in planned[i].dependsOn ensures NameOf(planned, NewNames(steps, planned), d) in block[i].dependsOn {
      var k :| 0 <= k < |planned[i].dependsOn| && planned[i].dependsOn[k] == d;
      assert block[i].dependsOn[k] == NameOf(planned, NewNames(steps, planned), d);
    }
  }

  lemma PlannedIsAcyclic(steps: seq<Step>, plannerId: string, planned: seq<Planned>, more: seq<Step>)
    requires Parsed(planned) && Rankable(steps + (Block(steps, plannerId, planned) + more))
    ensures StepOrder.Acyclic(PlannedNodes(planned))
  {
    var names, nodes := NewNames(steps, planned), PlannedNodes(planned);
    var rank, bound :| Ranked(steps + (Block(steps, plannerId, planned) + more), rank, bound);
    var own := ReadBack(planned, names, rank);
    forall n | n in nodes
      ensures n.id in own && 0 <= own[n.id] < bound && forall d :: d in n.dependsOn ==> d in own && own[d] < own[n.id]
    {
      var i :| 0 <= i < |nodes| && nodes[i] == n;
      NodeIsRanked(steps, plannerId, planned, more, rank, bound, i);
      ReadBackAt(planned, names, rank, i);
      assert planned[i] in planned;
      forall d | d in n.dependsOn ensures d in own && own[d] < own[n.id] {
        var j := DependencyIsNamed(planned, names, planned[i], d);
        ReadBackAt(planned, names, rank, j);
      }
    }
    PlannedIsFormed(planned);
    assert PlanGraph.Ranked(nodes, own, bound);
    PlanGraph.RankedIsAcyclic(nodes, own, bound);
  }

  // ------------------------------------------------------------- the guarantees

  lemma {:induction false} OfKindIs(steps: seq<Step>, kind: Kind)
    ensures forall id :: id in OfKind(steps, kind) <==> exists s :: s in steps && s.kind == kind && s.id == id
  {
    if steps != [] {
      OfKindIs(steps[1..], kind);
      forall id ensures id in OfKind(steps, kind) <==> exists s :: s in steps && s.kind == kind && s.id == id {
        if exists s :: s in steps && s.kind == kind && s.id == id {
          var s :| s in steps && s.kind == kind && s.id == id;
          assert s == steps[0] || s in steps[1..];
        }
      }
    }
  }

  lemma KindsAreIds(steps: seq<Step>, added: seq<Step>, kind: Kind)
    ensures forall id :: id in OfKind(added, kind) ==> id in IdSet(steps + added)
  {
    OfKindIs(added, kind);
    IdSetConcat(steps, added);
  }

  lemma WithTestIsValid(steps: seq<Step>, added: seq<Step>)
    requires ValidPlan(steps + added)
    ensures ValidPlan(steps + WithTest(IdSet(steps) + IdSet(added), added))
  {
    var r := WithTest(IdSet(steps) + IdSet(added), added);
    if r != added {
      IdSetConcat(steps, added);
      KindsAreIds(steps, added, Implementation);
      AppendKeepsValid(steps + added, r[|added|]);
      assert steps + r == (steps + added) + [r[|added|]];
    }
  }

  lemma WithReviewIsValid(steps: seq<Step>, added: seq<Step>)
    requires ValidPlan(steps + added)
    ensures ValidPlan(steps + WithReview(IdSet(steps) + IdSet(added), added))
  {
    var r := WithReview(IdSet(steps) + IdSet(added), added);
    if r != added {
      IdSetConcat(steps, added);
      KindsAreIds(steps, added, Implementation);
      KindsAreIds(steps, added, Testing);
      AppendKeepsValid(steps + added, r[|added|]);
      assert steps + r == (steps + added) + [r[|added|]];
    }
  }

  lemma TestShape(taken: set<string>, added: seq<Step>) returns (tail: seq<Step>)
    ensures WithTest(taken, added) == added + tail && |tail| <= 1
    ensures forall s :: s in tail ==>
      s == NewStep(UniqueId(taken, "test"), Testing, OfKind(added, Implementation), Guarantee) && s.dependsOn != []
    ensures OfKind(added, Testing) != [] ==> tail == []
  {
    var r := WithTest(taken, added);
    tail := if OfKind(added, Implementation) == [] || OfKind(added, Testing) != [] then [] else [r[|added|]];
  }

  lemma ReviewShape(taken: set<string>, added: seq<Step>) returns (tail: seq<Step>)
    ensures WithReview(taken, added) == added + tail && |tail| <= 1
    ensures forall s :: s in tail ==>
      && s == NewStep(UniqueId(taken, "review"), Review, OfKind(added, Implementation) + OfKind(added, Testing), Guarantee)
      && s.dependsOn != []
  {
    var r := WithReview(taken, added);
    tail := if OfKind(added, Implementation) == [] || OfKind(added, Review) != [] then [] else [r[|added|]];
  }

  lemma Reassociate(a: seq<Step>, b: seq<Step>, c: seq<Step>)
    ensures (a + b) + c == a + (b + c)
  {
  }

  /** A step that the orchestrator adds of its own accord. */
  predicate IsGuarantee(s: Step) {
    s.origin.Guarantee? && (s.kind.Testing? || s.kind.Review?) && s.state.Pending? && s.attempt == 1
    && s.dependsOn != []
  }

  /** The steps added are the planned ones and at most two behind them. */
  lemma AddedShape(steps: seq<Step>, plannerId: string, planned: seq<Planned>) returns (more: seq<Step>)
    ensures AddedSteps(steps, plannerId, planned) == Block(steps, plannerId, planned) + more && |more| <= 2
    ensures forall s :: s in more ==> IsGuarantee(s)
    ensures OfKind(Block(steps, plannerId, planned), Testing) != [] ==> forall s :: s in more ==> s.kind == Review
    ensures forall s, d :: s in more && d in s.dependsOn ==> d in IdSet(AddedSteps(steps, plannerId, planned))
  {
    var block := Block(steps, plannerId, planned);
    var test := TestShape(IdSet(steps) + IdSet(block), block);
    var tested := block + test;
    var review := ReviewShape(IdSet(steps) + IdSet(tested), tested);
    Reassociate(block, test, review);
    more := test + review;
    GuaranteeDependencies(block, test, review);
  }

  lemma GuaranteeDependencies(block: seq<Step>, test: seq<Step>, review: seq<Step>)
    requires forall s :: s in test ==> s.dependsOn == OfKind(block, Implementation)
    requires forall s :: s in review ==> s.dependsOn == OfKind(block + test, Implementation) + OfKind(block + test, Testing)
    ensures forall s, d :: s in test + review && d in s.dependsOn ==> d in IdSet(block + (test + review))
  {
    IdSetConcat(block, test + review);
    IdSetConcat(test, review);
    IdSetConcat(block, test);
    OfKindIs(block, Implementation);
    OfKindIs(block + test, Implementation);
    OfKindIs(block + test, Testing);
  }

  /**
   A plan that the parser lets through is accepted exactly if its own
   dependencies have no cycle; then the whole plan is valid.
   */
  lemma ExpandsIffAcyclic(steps: seq<Step>, plannerId: string, planned: seq<Planned>)
    requires ValidPlan(steps) && plannerId in IdSet(steps) && Parsed(planned)
    ensures Expand(steps, plannerId, planned).Some? <==> StepOrder.Acyclic(PlannedNodes(planned))
    ensures Expand(steps, plannerId, planned).Some? ==> ValidPlan(Expand(steps, plannerId, planned).value)
  {
    var block, added := Block(steps, plannerId, planned), AddedSteps(steps, plannerId, planned);
    ValidIffRankable(steps);
    if StepOrder.Acyclic(PlannedNodes(planned)) {
      BlockIsFormed(steps, plannerId, planned);
      BlockIsRankable(steps, plannerId, planned);
      ValidIffRankable(steps + block);
      WithTestIsValid(steps, block);
      WithReviewIsValid(steps, WithTest(IdSet(steps) + IdSet(block), block));
    }
    if ValidPlan(steps + added) {
      var more := AddedShape(steps, plannerId, planned);
      ValidIffRankable(steps + added);
      PlannedIsAcyclic(steps, plannerId, planned, more);
    }
  }

  // ------------------------------------------------- where the new steps stand

  /** Each new step waits for the planning step, or only for other new steps. */
  lemma NewStepWaits(steps: seq<Step>, plannerId: string, planned: seq<Planned>, s: Step)
    requires Parsed(planned) && s in AddedSteps(steps, plannerId, planned)
    ensures s.dependsOn != []
    ensures forall d :: d in s.dependsOn ==> d == plannerId || d in IdSet(AddedSteps(steps, plannerId, planned))
  {
    var block, added := Block(steps, plannerId, planned), AddedSteps(steps, plannerId, planned);
    var more := AddedShape(steps, plannerId, planned);
    IdSetConcat(block, more);
    if s in block {
      var i :| 0 <= i < |block| && block[i] == s;
      BlockIds(steps, plannerId, planned);
      forall d | d in s.dependsOn ensures d == plannerId || d in IdSet(added) {
        var j := BlockDependency(steps, plannerId, planned, i, d);
      }
    }
  }

  lemma {:induction false} NewStepWaitsForPlanner(steps: seq<Step>, plannerId: string, planned: seq<Planned>, s: Step,
                                                 rank: map<string, int>, bound: int)
    requires Parsed(planned) && s in AddedSteps(steps, plannerId, planned)
    requires var all := steps + AddedSteps(steps, plannerId, planned);
      Formed(all) && Ranked(all, rank, bound) && plannerId in IdSet(steps)
    ensures WaitsFor(steps + AddedSteps(steps, plannerId, planned), s.id, plannerId)
    decreases if s.id in rank then rank[s.id] else 0
  {
    var added := AddedSteps(steps, plannerId, planned);
    var all := steps + added;
    assert s in all;
    IdSetConcat(steps, added);
    NewStepWaits(steps, plannerId, planned, s);
    var d := s.dependsOn[0];
    assert d in s.dependsOn;
    DirectWait(all, s, d);
    if d != plannerId {
      var t :| t in added && t.id == d;
      assert t in all;
      NewStepWaitsForPlanner(steps, plannerId, planned, t, rank, bound);
      WaitsTransitively(all, s.id, d, plannerId);
    }
  }

  /** Every step that a plan adds waits for the planning step, directly or through others. */
  lemma PlannedWaitForPlanner(steps: seq<Step>, plannerId: string, planned: seq<Planned>, s: Step)
    requires plannerId in IdSet(steps) && Parsed(planned) && Expand(steps, plannerId, planned).Some?
    requires s in AddedSteps(steps, plannerId, planned)
    ensures WaitsFor(Expand(steps, plannerId, planned).value, s.id, plannerId)
  {
    var all := steps + AddedSteps(steps, plannerId, planned);
    ValidIffRankable(all);
    var rank, bound :| Ranked(all, rank, bound);
    NewStepWaitsForPlanner(steps, plannerId, planned, s, rank, bound);
  }

  /**
   A plan that builds has a test and a review among its steps. A test that the
   planner left out waits for every builder, and such a review for every builder
   and every test.
   */
  lemma BuildsAreChecked(steps: seq<Step>, plannerId: string, planned: seq<Planned>, b: Planned)
    requires b in planned && b.kind == Implementation
    ensures var added := AddedSteps(steps, plannerId, planned);
      && (exists t :: t in added && t.kind == Testing)
      && (exists v :: v in added && v.kind == Review)
      && ((forall p :: p in planned ==> p.kind != Testing) ==>
            exists t :: t in added && t.kind == Testing && t.dependsOn == OfKind(added, Implementation))
      && ((forall p :: p in planned ==> p.kind != Review) ==>
            exists v :: v in added && v.kind == Review
                     && v.dependsOn == OfKind(added, Implementation) + OfKind(added, Testing))
  {
    var block := Block(steps, plannerId, planned);
    var i :| 0 <= i < |planned| && planned[i] == b;
    assert block[i] in block && block[i].kind == Implementation;
    KindsOfBlock(steps, plannerId, planned);
    var test := TestShape(IdSet(steps) + IdSet(block), block);
    var tested := block + test;
    TestIsThere(IdSet(steps) + IdSet(block), block, block[i]);
    var review := ReviewShape(IdSet(steps) + IdSet(tested), tested);
    ReviewIsThere(IdSet(steps) + IdSet(tested), tested, block[i]);
    assert forall t :: t in tested ==> t in tested + review;
  }

  lemma KindsOfBlock(steps: seq<Step>, plannerId: string, planned: seq<Planned>)
    ensures forall s :: s in Block(steps, plannerId, planned) ==> exists p :: p in planned && p.kind == s.kind
  {
    var block := Block(steps, plannerId, planned);
    forall s | s in block ensures exists p :: p in planned && p.kind == s.kind {
      var i :| 0 <= i < |block| && block[i] == s;
      assert planned[i] in planned;
    }
  }

  lemma {:induction false} OfKindSnoc(steps: seq<Step>, s: Step, kind: Kind)
    ensures OfKind(steps + [s], kind) == OfKind(steps, kind) + if s.kind == kind then [s.id] else []
  {
    if steps == [] {
      assert steps + [s] == [s];
    } else {
      assert (steps + [s])[1..] == steps[1..] + [s];
      OfKindSnoc(steps[1..], s, kind);
    }
  }

  lemma TestIsThere(taken: set<string>, added: seq<Step>, b: Step)
    requires b in added && b.kind == Implementation
    ensures var r := WithTest(taken, added);
      && OfKind(r, Implementation) == OfKind(added, Implementation)
      && (forall s :: s in r && s.kind == Review ==> s in added)
      && (exists t :: t in r && t.kind == Testing)
      && ((forall s :: s in added ==> s.kind != Testing) ==>
            exists t :: t in r && t.kind == Testing && t.dependsOn == OfKind(added, Implementation))
  {
    OfKindIs(added, Implementation);
    OfKindIs(added, Testing);
    var r := WithTest(taken, added);
    assert b.id in OfKind(added, Implementation);
    if r != added {
      OfKindSnoc(added, r[|added|], Implementation);
      assert r[|added|] in r;
    } else {
      assert OfKind(added, Testing)[0] in OfKind(added, Testing);
    }
  }

  lemma ReviewIsThere(taken: set<string>, added: seq<Step>, b: Step)
    requires b in added && b.kind == Implementation
    ensures var r := WithReview(taken, added);
      && OfKind(r, Implementation) == OfKind(added, Implementation) && OfKind(r, Testing) == OfKind(added, Testing)
      && (exists v :: v in r && v.kind == Review)
      && ((forall s :: s in added ==> s.kind != Review) ==>
            exists v :: v in r && v.kind == Review
                     && v.dependsOn == OfKind(r, Implementation) + OfKind(r, Testing))
  {
    OfKindIs(added, Implementation);
    OfKindIs(added, Review);
    var r := WithReview(taken, added);
    assert b.id in OfKind(added, Implementation);
    if r != added {
      OfKindSnoc(added, r[|added|], Implementation);
      OfKindSnoc(added, r[|added|], Testing);
      assert r[|added|] in r;
    } else {
      assert OfKind(added, Review)[0] in OfKind(added, Review);
    }
  }

  /** A test that the planner gives need not wait for any builder: then it can run first. */
  lemma PlannersTestMayComeFirst(steps: seq<Step>, plannerId: string, build: string, test: string)
    requires ValidPlan(steps) && plannerId in IdSet(steps) && build != "" && test != "" && build != test
    requires build !in IdSet(steps) && test !in IdSet(steps)
    ensures var planned := [Planned(build, Implementation, []), Planned(test, Testing, [])];
      && Parsed(planned) && Expand(steps, plannerId, planned).Some?
      && forall s :: s in AddedSteps(steps, plannerId, planned) && s.kind == Testing ==> s.dependsOn == [plannerId]
  {
    var planned := [Planned(build, Implementation, []), Planned(test, Testing, [])];
    var nodes := PlannedNodes(planned);
    var own := map[build := 0, test := 0];
    assert PlanGraph.Ranked(nodes, own, 1);
    PlannedIsFormed(planned);
    PlanGraph.RankedIsAcyclic(nodes, own, 1);
    ExpandsIffAcyclic(steps, plannerId, planned);
    var block := Block(steps, plannerId, planned);
    assert block[1].kind == Testing && block[1] in block;
    OfKindIs(block, Testing);
    assert block[1].id in OfKind(block, Testing);
  }
}
