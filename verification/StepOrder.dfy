/**
 The dependency ordering of orchestration steps.

 `orderSteps` is a depth-first walk that must cope with cycles, unknown
 dependencies and repeated ids.  The closure's mutable variables are the fields
 of `StepWalk`; `Ordered` is the function it computes, and the lemmas are about
 that function and the dependency graph of the input list.
 */
module StepOrder {

  datatype Step = Step(id: string, title: string, dependsOn: seq<string>)

  // ------------------------------------------------------------ the walk

  /** What the closure mutates. `seen` belongs to the current top-level visit. */
  datatype Walk = Walk(placed: set<string>, seen: set<string>, ordered: seq<Step>)

  /** The lookup table: a later step with the same id replaces an earlier one. */
  function ById(steps: seq<Step>): (m: map<string, Step>)
    ensures forall id :: id in m ==> m[id].id == id && m[id] in steps
    ensures forall s :: s in steps ==> s.id in m
  {
    if steps == [] then map[]
    else
      var last := steps[|steps| - 1];
      ById(steps[..|steps| - 1])[last.id := last]
  }

  ghost predicate Keyed(byId: map<string, Step>) {
    forall id :: id in byId ==> byId[id].id == id
  }

  function Visited(byId: map<string, Step>, step: Step, w: Walk): (r: Walk)
    requires Keyed(byId) && step.id in byId
    ensures w.seen <= r.seen
    decreases byId.Keys - w.seen, 0
  {
    if step.id in w.placed || step.id in w.seen then w
    else
      var entered := w.(seen := w.seen + {step.id});
      assert step.id in byId.Keys - w.seen && step.id !in byId.Keys - entered.seen;
      var below := VisitedAll(byId, step.dependsOn, entered);
      below.(placed := below.placed + {step.id}, ordered := below.ordered + [step])
  }

  function VisitedAll(byId: map<string, Step>, deps: seq<string>, w: Walk): (r: Walk)
    requires Keyed(byId)
    ensures w.seen <= r.seen
    decreases byId.Keys - w.seen, |deps| + 1
  {
    if deps == [] then w
    else
      var next := if deps[0] in byId then Visited(byId, byId[deps[0]], w) else w;
      VisitedAll(byId, deps[1..], next)
  }

  /** The outer loop: every top-level visit starts with an empty `seen`. */
  function Swept(byId: map<string, Step>, steps: seq<Step>, w: Walk): Walk
    requires Keyed(byId) && forall s :: s in steps ==> s.id in byId
  {
    if steps == [] then w
    else Swept(byId, steps[1..], Visited(byId, steps[0], w.(seen := {})))
  }

  function Ordered(steps: seq<Step>): seq<Step> {
    Swept(ById(steps), steps, Walk({}, {}, [])).ordered
  }

  // ------------------------------------------------------ the imperative form

  class StepWalk {
    const byId: map<string, Step>
    var placed: set<string>
    var seen: set<string>
    var ordered: seq<Step>

    ghost function Now(): Walk
      reads this
    {
      Walk(placed, seen, ordered)
    }

    constructor (byId: map<string, Step>)
      ensures this.byId == byId && Now() == Walk({}, {}, [])
    {
      this.byId := byId;
      placed, seen, ordered := {}, {}, [];
    }

    method Visit(step: Step)
      requires Keyed(byId) && step.id in byId
      modifies this
      ensures Now() == Visited(byId, step, old(Now()))
      decreases byId.Keys - seen
    {
      if step.id in placed || step.id in seen { return; }
      seen := seen + {step.id};
      ghost var entered := Now();
      assert step.id in byId.Keys - old(seen) && step.id !in byId.Keys - seen;
      for i := 0 to |step.dependsOn|
        invariant entered.seen <= seen
        invariant VisitedAll(byId, step.dependsOn[i..], Now()) == VisitedAll(byId, step.dependsOn, entered)
      {
        var dep := step.dependsOn[i];
        assert step.dependsOn[i..][0] == dep && step.dependsOn[i..][1..] == step.dependsOn[i + 1..];
        assert byId.Keys - seen <= byId.Keys - entered.seen < byId.Keys - old(seen);
        if dep in byId {
          Visit(byId[dep]);
        }
      }
      placed := placed + {step.id};
      ordered := ordered + [step];
    }
  }

  method OrderSteps(steps: seq<Step>) returns (ordered: seq<Step>)
    ensures ordered == Ordered(steps)
  {
    var walk := new StepWalk(ById(steps));
    for i := 0 to |steps|
      invariant walk.byId == ById(steps)
      invariant Swept(walk.byId, steps[i..], walk.Now()) == Swept(ById(steps), steps, Walk({}, {}, []))
    {
      assert steps[i..][0] == steps[i] && steps[i..][1..] == steps[i + 1..];
      walk.seen := {};
      walk.Visit(steps[i]);
    }
    ordered := walk.ordered;
  }

  // --------------------------------------------------- the dependency graph

  predicate Listed(steps: seq<Step>, id: string) {
    exists i :: 0 <= i < |steps| && steps[i].id == id
  }

  /** Some step with id `a` names the listed id `b` as a dependency. */
  predicate DependsOn(steps: seq<Step>, a: string, b: string) {
    Listed(steps, b) && exists i :: 0 <= i < |steps| && steps[i].id == a && b in steps[i].dependsOn
  }

  ghost predicate Chain(steps: seq<Step>, p: seq<string>) {
    |p| >= 2 && forall i :: 0 <= i < |p| - 1 ==> DependsOn(steps, p[i], p[i + 1])
  }

  /** `a` depends on `b`, directly or through other steps. */
  ghost predicate Reaches(steps: seq<Step>, a: string, b: string) {
    exists p :: Chain(steps, p) && p[0] == a && p[|p| - 1] == b
  }

  ghost predicate UniqueIds(steps: seq<Step>) {
    forall i, j :: 0 <= i < j < |steps| ==> steps[i].id != steps[j].id
  }

  /** Among the first `i` steps of `s`, one has id `d`. */
  predicate Before(s: seq<Step>, i: nat, d: string) {
    exists j :: 0 <= j < i && j < |s| && s[j].id == d
  }

  /** Each step comes after every listed step it depends on. */
  ghost predicate DependencyOrdered(s: seq<Step>) {
    forall i, d :: 0 <= i < |s| && d in s[i].dependsOn && Listed(s, d) ==> Before(s, i, d)
  }

  /** The same, except that a step may also name itself. */
  ghost predicate WeaklyOrdered(s: seq<Step>) {
    forall i, d :: 0 <= i < |s| && d in s[i].dependsOn && Listed(s, d) ==> d == s[i].id || Before(s, i, d)
  }

  ghost predicate Acyclic(steps: seq<Step>) {
    forall a :: !Reaches(steps, a, a)
  }

  /** No two different steps depend on each other (a step may name itself). */
  ghost predicate NoMutualDependency(steps: seq<Step>) {
    forall a, b :: Reaches(steps, a, b) && Reaches(steps, b, a) ==> a == b
  }

  lemma ReachesOne(steps: seq<Step>, a: string, b: string)
    requires DependsOn(steps, a, b)
    ensures Reaches(steps, a, b)
  {
    assert Chain(steps, [a, b]);
  }

  lemma ReachesFurther(steps: seq<Step>, a: string, b: string, c: string)
    requires Reaches(steps, a, b) && DependsOn(steps, b, c)
    ensures Reaches(steps, a, c)
  {
    var p :| Chain(steps, p) && p[0] == a && p[|p| - 1] == b;
    var q := p + [c];
    assert Chain(steps, q) by {
      forall i | 0 <= i < |q| - 1 ensures DependsOn(steps, q[i], q[i + 1]) {
        if i < |p| - 1 {
          assert q[i] == p[i] && q[i + 1] == p[i + 1];
        }
      }
    }
    assert q[0] == a && q[|q| - 1] == c;
  }

  // -------------------------------------------------- invariant of the walk

  /** Every placed step stands behind its dependencies, except those that lead back to it. */
  ghost predicate Respects(steps: seq<Step>, o: seq<Step>) {
    forall i, d :: 0 <= i < |o| && d in o[i].dependsOn && Listed(steps, d)
      ==> Before(o, i, d) || Reaches(steps, d, o[i].id)
  }

  ghost predicate WalkInvariant(steps: seq<Step>, w: Walk) {
    && UniqueIds(w.ordered)
    && (forall id :: id in w.placed <==> Listed(w.ordered, id))
    && (forall s :: s in w.ordered ==> s in steps)
    && Respects(steps, w.ordered)
  }

  /** The ids on the current recursion stack. */
  ghost function Stack(w: Walk): set<string> {
    w.seen - w.placed
  }

  lemma {:induction false} VisitedKeepsInvariant(steps: seq<Step>, step: Step, w: Walk)
    requires WalkInvariant(steps, w) && step in steps
    requires forall g :: g in Stack(w) ==> Reaches(steps, g, step.id)
    ensures var r := Visited(ById(steps), step, w);
      && WalkInvariant(steps, r) && Stack(r) == Stack(w)
      && w.placed <= r.placed && (step.id in r.placed || step.id in Stack(w))
    decreases ById(steps).Keys - w.seen, 0
  {
    var byId := ById(steps);
    if step.id !in w.placed && step.id !in w.seen {
      var entered := w.(seen := w.seen + {step.id});
      assert step.id in byId.Keys - w.seen && step.id !in byId.Keys - entered.seen;
      assert Stack(entered) == Stack(w) + {step.id};
      AllVisitedKeepInvariant(steps, step, step.dependsOn, entered);
      var below := VisitedAll(byId, step.dependsOn, entered);
      PushKeepsInvariant(steps, step, below);
      var r := Visited(byId, step, w);
      assert step.id !in below.placed;
      assert Stack(r) == Stack(below) - {step.id} == Stack(w);
    }
  }

  lemma {:induction false} AllVisitedKeepInvariant(steps: seq<Step>, owner: Step, deps: seq<string>, w: Walk)
    requires WalkInvariant(steps, w) && owner in steps && owner.id in Stack(w)
    requires forall d :: d in deps ==> d in owner.dependsOn
    requires forall g :: g in Stack(w) ==> g == owner.id || Reaches(steps, g, owner.id)
    ensures var r := VisitedAll(ById(steps), deps, w);
      && WalkInvariant(steps, r) && Stack(r) == Stack(w) && w.placed <= r.placed
      && (forall d :: d in deps && Listed(steps, d) ==> d in r.placed || d in Stack(w))
    decreases ById(steps).Keys - w.seen, |deps| + 1
  {
    var byId := ById(steps);
    if deps != [] {
      var next := if deps[0] in byId then Visited(byId, byId[deps[0]], w) else w;
      if deps[0] in byId {
        var dep := byId[deps[0]];
        StackReachesDependency(steps, owner, dep.id, w);
        VisitedKeepsInvariant(steps, dep, w);
      }
      AllVisitedKeepInvariant(steps, owner, deps[1..], next);
      forall d | d in deps && Listed(steps, d)
        ensures d in VisitedAll(byId, deps, w).placed || d in Stack(w)
      {
        assert d in byId;
        assert d == deps[0] || d in deps[1..];
      }
    }
  }

  lemma StackReachesDependency(steps: seq<Step>, owner: Step, d: string, w: Walk)
    requires owner in steps && d in owner.dependsOn && Listed(steps, d)
    requires forall g :: g in Stack(w) ==> g == owner.id || Reaches(steps, g, owner.id)
    ensures forall g :: g in Stack(w) ==> Reaches(steps, g, d)
  {
    assert DependsOn(steps, owner.id, d);
    forall g | g in Stack(w) ensures Reaches(steps, g, d) {
      if g == owner.id {
        ReachesOne(steps, g, d);
      } else {
        ReachesFurther(steps, g, owner.id, d);
      }
    }
  }

  lemma PushKeepsInvariant(steps: seq<Step>, step: Step, w: Walk)
    requires WalkInvariant(steps, w) && step in steps && step.id !in w.placed
    requires forall g :: g in Stack(w) ==> g == step.id || Reaches(steps, g, step.id)
    requires forall d :: d in step.dependsOn && Listed(steps, d) ==> d in w.placed || d in Stack(w)
    ensures WalkInvariant(steps, w.(placed := w.placed + {step.id}, ordered := w.ordered + [step]))
  {
    var o := w.ordered + [step];
    forall id ensures id in w.placed + {step.id} <==> Listed(o, id) {
      if Listed(w.ordered, id) {
        var j :| 0 <= j < |w.ordered| && w.ordered[j].id == id;
        assert o[j].id == id;
      }
      if id == step.id {
        assert o[|w.ordered|].id == id;
      }
    }
    forall i, d | 0 <= i < |o| && d in o[i].dependsOn && Listed(steps, d)
      ensures Before(o, i, d) || Reaches(steps, d, o[i].id)
    {
      if i < |w.ordered| {
        assert o[i] == w.ordered[i];
        if Before(w.ordered, i, d) {
          var j :| 0 <= j < i && j < |w.ordered| && w.ordered[j].id == d;
          assert o[j].id == d;
        }
      } else if d in w.placed {
        var j :| 0 <= j < |w.ordered| && w.ordered[j].id == d;
        assert o[j].id == d;
      } else if d == step.id {
        assert DependsOn(steps, step.id, d);
        ReachesOne(steps, d, step.id);
      }
    }
  }

  lemma {:induction false} SweptKeepsInvariant(steps: seq<Step>, rest: seq<Step>, w: Walk)
    requires WalkInvariant(steps, w) && forall s :: s in rest ==> s in steps
    ensures var r := Swept(ById(steps), rest, w);
      && WalkInvariant(steps, r) && w.placed <= r.placed
      && (forall s :: s in rest ==> s.id in r.placed)
  {
    if rest != [] {
      var start := w.(seen := {});
      VisitedKeepsInvariant(steps, rest[0], start);
      SweptKeepsInvariant(steps, rest[1..], Visited(ById(steps), rest[0], start));
      assert forall s :: s in rest ==> s == rest[0] || s in rest[1..];
    }
  }

  // ------------------------------------------------------------ main results

  /**
   For every input, cyclic or not: the output holds steps of the input, each
   listed id exactly once, and a dependency `d` of an output step comes before
   it unless `d` itself depends on that step.
   */
  lemma OrderedRespectsDependencies(steps: seq<Step>)
    ensures UniqueIds(Ordered(steps))
    ensures forall s :: s in Ordered(steps) ==> s in steps
    ensures forall id :: Listed(Ordered(steps), id) <==> Listed(steps, id)
    ensures Respects(steps, Ordered(steps))
  {
    var w := Walk({}, {}, []);
    SweptKeepsInvariant(steps, steps, w);
    var o := Ordered(steps);
    forall id ensures Listed(o, id) <==> Listed(steps, id) {
      if Listed(o, id) {
        var j :| 0 <= j < |o| && o[j].id == id;
        assert o[j] in steps;
      }
      if Listed(steps, id) {
        var j :| 0 <= j < |steps| && steps[j].id == id;
        assert steps[j] in steps;
      }
    }
  }

  /** With unique ids nothing is lost, invented or repeated. */
  lemma OrderedIsPermutation(steps: seq<Step>)
    requires UniqueIds(steps)
    ensures multiset(Ordered(steps)) == multiset(steps)
  {
    OrderedRespectsDependencies(steps);
    var o := Ordered(steps);
    UniqueCounts(o);
    UniqueCounts(steps);
    forall s ensures s in steps <==> s in o {
      SameMember(steps, o, s);
    }
  }

  lemma SameMember(steps: seq<Step>, o: seq<Step>, s: Step)
    requires UniqueIds(steps)
    requires forall x :: x in o ==> x in steps
    requires forall id :: Listed(o, id) <==> Listed(steps, id)
    ensures s in steps <==> s in o
  {
    if s in steps {
      var i :| 0 <= i < |steps| && steps[i] == s;
      assert Listed(steps, s.id);
      var j :| 0 <= j < |o| && o[j].id == s.id;
      assert o[j] in o;
      var k :| 0 <= k < |steps| && steps[k] == o[j];
      assert steps[k].id == steps[i].id;
    }
  }

  lemma {:induction false} UniqueCounts(s: seq<Step>)
    requires UniqueIds(s)
    ensures forall x :: multiset(s)[x] == if x in s then 1 else 0
  {
    if s != [] {
      var n := |s| - 1;
      assert s == s[..n] + [s[n]];
      UniqueCounts(s[..n]);
      assert s[n] !in s[..n];
    }
  }

  // ------------------------------------ cycles: when the order is a real order

  /** Following a chain never moves right in an ordered output; strictly left if no step may name itself. */
  lemma {:induction false} ChainMovesLeft(steps: seq<Step>, o: seq<Step>, p: seq<string>, i: nat, strict: bool) returns (j: nat)
    requires UniqueIds(steps) && UniqueIds(o)
    requires forall s :: s in steps <==> s in o
    requires if strict then DependencyOrdered(o) else WeaklyOrdered(o)
    requires Chain(steps, p) && i < |o| && o[i].id == p[0]
    ensures j <= i && o[j].id == p[|p| - 1] && (strict ==> j < i)
    decreases |p|
  {
    assert DependsOn(steps, p[0], p[1]);
    var k :| 0 <= k < |steps| && steps[k].id == p[0] && p[1] in steps[k].dependsOn;
    assert steps[k] in o;
    assert steps[k] == o[i];
    var l :| 0 <= l < |steps| && steps[l].id == p[1];
    assert steps[l] in o;
    assert Listed(o, p[1]);
    if !strict && p[1] == o[i].id {
      j := i;
    } else {
      assert Before(o, i, p[1]);
      j :| 0 <= j < i && j < |o| && o[j].id == p[1];
    }
    if |p| > 2 {
      var q := p[1..];
      assert Chain(steps, q) by {
        forall n | 0 <= n < |q| - 1 ensures DependsOn(steps, q[n], q[n + 1]) {
          assert DependsOn(steps, p[n + 1], p[n + 2]);
        }
      }
      j := ChainMovesLeft(steps, o, q, j, strict);
    }
  }

  lemma SameSteps(steps: seq<Step>)
    requires UniqueIds(steps)
    ensures forall s :: s in steps <==> s in Ordered(steps)
  {
    OrderedIsPermutation(steps);
    forall s ensures s in steps <==> s in Ordered(steps) {
      assert s in steps <==> s in multiset(steps);
      assert s in Ordered(steps) <==> s in multiset(Ordered(steps));
    }
  }

  lemma ListedBoth(steps: seq<Step>, i: nat, d: string)
    requires UniqueIds(steps)
    requires i < |Ordered(steps)| && d in Ordered(steps)[i].dependsOn && Listed(Ordered(steps), d)
    ensures DependsOn(steps, Ordered(steps)[i].id, d)
  {
    OrderedRespectsDependencies(steps);
    var s := Ordered(steps)[i];
    assert s in steps;
    var k :| 0 <= k < |steps| && steps[k] == s;
  }

  /**
   "Each after everything it depends on" holds exactly when no step depends on
   itself, directly or through others.
   */
  lemma OrderedIsTopologicalIffAcyclic(steps: seq<Step>)
    requires UniqueIds(steps)
    ensures DependencyOrdered(Ordered(steps)) <==> Acyclic(steps)
  {
    var o := Ordered(steps);
    OrderedRespectsDependencies(steps);
    if Acyclic(steps) {
      forall i, d | 0 <= i < |o| && d in o[i].dependsOn && Listed(o, d) ensures Before(o, i, d) {
        ListedBoth(steps, i, d);
        if Reaches(steps, d, o[i].id) {
          ReachesCycle(steps, d, o[i].id);
        }
      }
    }
    if DependencyOrdered(o) {
      SameSteps(steps);
      forall a ensures !Reaches(steps, a, a) {
        if Reaches(steps, a, a) {
          var p :| Chain(steps, p) && p[0] == a && p[|p| - 1] == a;
          var i := ChainHead(steps, o, p);
          var j := ChainMovesLeft(steps, o, p, i, true);
          assert false;
        }
      }
    }
  }

  lemma ReachesCycle(steps: seq<Step>, d: string, a: string)
    requires Reaches(steps, d, a) && DependsOn(steps, a, d)
    ensures Reaches(steps, d, d)
  {
    ReachesFurther(steps, d, a, d);
  }

  lemma ChainHead(steps: seq<Step>, o: seq<Step>, p: seq<string>) returns (i: nat)
    requires forall s :: s in steps ==> s in o
    requires Chain(steps, p)
    ensures i < |o| && o[i].id == p[0]
  {
    assert DependsOn(steps, p[0], p[1]);
    var k :| 0 <= k < |steps| && steps[k].id == p[0] && p[1] in steps[k].dependsOn;
    assert steps[k] in o;
    i :| 0 <= i < |o| && o[i] == steps[k];
  }

  lemma MutualDependencyCollapses(steps: seq<Step>, o: seq<Step>, a: string, b: string)
    requires UniqueIds(steps) && UniqueIds(o) && WeaklyOrdered(o)
    requires forall s :: s in steps <==> s in o
    requires Reaches(steps, a, b) && Reaches(steps, b, a)
    ensures a == b
  {
    var p :| Chain(steps, p) && p[0] == a && p[|p| - 1] == b;
    var q :| Chain(steps, q) && q[0] == b && q[|q| - 1] == a;
    var i := ChainHead(steps, o, p);
    var j := ChainMovesLeft(steps, o, p, i, false);
    var k := ChainMovesLeft(steps, o, q, j, false);
    assert k == i;
  }

  lemma WeaklyOrderedIffNoMutualDependency(steps: seq<Step>)
    requires UniqueIds(steps)
    ensures WeaklyOrdered(Ordered(steps)) <==> NoMutualDependency(steps)
  {
    var o := Ordered(steps);
    if NoMutualDependency(steps) {
      OrderedRespectsDependencies(steps);
      forall i, d | 0 <= i < |o| && d in o[i].dependsOn && Listed(o, d)
        ensures d == o[i].id || Before(o, i, d)
      {
        ListedBoth(steps, i, d);
        ReachesOne(steps, o[i].id, d);
      }
    }
    if WeaklyOrdered(o) {
      assert UniqueIds(o) by { OrderedRespectsDependencies(steps); }
      SameSteps(steps);
      forall a, b | Reaches(steps, a, b) && Reaches(steps, b, a) ensures a == b {
        MutualDependencyCollapses(steps, o, a, b);
      }
    }
  }

  // ---------------------------------------------- fixed points and idempotence

  lemma {:induction false} NothingToVisit(byId: map<string, Step>, deps: seq<string>, w: Walk)
    requires Keyed(byId)
    requires forall d :: d in deps && d in byId ==> d in w.placed || d in w.seen
    ensures VisitedAll(byId, deps, w) == w
  {
    if deps != [] {
      NothingToVisit(byId, deps[1..], w);
    }
  }

  /** A visit only appends, never an id already on the stack; an unplaced, unseen step makes it append. */
  lemma {:induction false} VisitedAppends(byId: map<string, Step>, step: Step, w: Walk)
    requires Keyed(byId) && step.id in byId
    ensures var r := Visited(byId, step, w);
      && w.ordered <= r.ordered && w.placed <= r.placed
      && (forall k :: |w.ordered| <= k < |r.ordered| ==> r.ordered[k].id !in w.seen)
      && (step.id !in w.placed && step.id !in w.seen ==> |w.ordered| < |r.ordered|)
    decreases byId.Keys - w.seen, 0
  {
    if step.id !in w.placed && step.id !in w.seen {
      var entered := w.(seen := w.seen + {step.id});
      assert step.id in byId.Keys - w.seen && step.id !in byId.Keys - entered.seen;
      AllVisitedAppend(byId, step.dependsOn, entered);
    }
  }

  lemma {:induction false} AllVisitedAppend(byId: map<string, Step>, deps: seq<string>, w: Walk)
    requires Keyed(byId)
    ensures var r := VisitedAll(byId, deps, w);
      && w.ordered <= r.ordered && w.placed <= r.placed
      && (forall k :: |w.ordered| <= k < |r.ordered| ==> r.ordered[k].id !in w.seen)
      && ((exists d :: d in deps && d in byId && d !in w.placed && d !in w.seen) ==> |w.ordered| < |r.ordered|)
    decreases byId.Keys - w.seen, |deps| + 1
  {
    if deps != [] {
      var next := w;
      if deps[0] in byId {
        VisitedAppends(byId, byId[deps[0]], w);
        next := Visited(byId, byId[deps[0]], w);
      }
      AllVisitedAppend(byId, deps[1..], next);
      if next == w {
        assert forall d :: d in deps ==> d == deps[0] || d in deps[1..];
      }
      assert next != w ==> deps[0] in byId && deps[0] !in w.placed && deps[0] !in w.seen;
    }
  }

  lemma {:induction false} SweptAppends(byId: map<string, Step>, rest: seq<Step>, w: Walk)
    requires Keyed(byId) && forall s :: s in rest ==> s.id in byId
    ensures w.ordered <= Swept(byId, rest, w).ordered
  {
    if rest != [] {
      var start := w.(seen := {});
      VisitedAppends(byId, rest[0], start);
      SweptAppends(byId, rest[1..], Visited(byId, rest[0], start));
    }
  }

  /** The walk stands at position `i` of `t` having output exactly the steps before it. */
  ghost predicate Copied(t: seq<Step>, i: nat, w: Walk)
    requires i <= |t|
  {
    w.ordered == t[..i] && forall id :: id in w.placed <==> Before(t, i, id)
  }

  /** A step whose dependencies are all out is output right away. */
  lemma VisitOutputsNext(byId: map<string, Step>, step: Step, w: Walk)
    requires Keyed(byId) && step.id in byId && step.id !in w.placed
    requires forall d :: d in step.dependsOn && d in byId ==> d == step.id || d in w.placed
    ensures var r := Visited(byId, step, w.(seen := {}));
      r.ordered == w.ordered + [step] && r.placed == w.placed + {step.id}
  {
    var entered := w.(seen := {} + {step.id});
    NothingToVisit(byId, step.dependsOn, entered);
  }

  lemma CopiedFurther(t: seq<Step>, i: nat, w: Walk, r: Walk)
    requires i < |t| && Copied(t, i, w)
    requires r.ordered == w.ordered + [t[i]] && r.placed == w.placed + {t[i].id}
    ensures Copied(t, i + 1, r)
  {
    assert t[..i + 1] == t[..i] + [t[i]];
    forall id ensures Before(t, i + 1, id) <==> Before(t, i, id) || id == t[i].id {
      if Before(t, i, id) {
        var j :| 0 <= j < i && j < |t| && t[j].id == id;
      }
    }
  }

  lemma VisitCopies(t: seq<Step>, i: nat, w: Walk)
    requires UniqueIds(t) && i < |t| && Copied(t, i, w)
    requires forall d :: d in t[i].dependsOn && d in ById(t) ==> d == t[i].id || Before(t, i, d)
    ensures Copied(t, i + 1, Visited(ById(t), t[i], w.(seen := {})))
  {
    var byId := ById(t);
    assert t[i].id !in w.placed by { assert !Before(t, i, t[i].id); }
    VisitOutputsNext(byId, t[i], w);
    CopiedFurther(t, i, w, Visited(byId, t[i], w.(seen := {})));
  }

  lemma KeyIsListed(t: seq<Step>, d: string)
    ensures d in ById(t) <==> Listed(t, d)
  {
    if d in ById(t) {
      assert ById(t)[d] in t;
    }
  }

  lemma {:induction false} SweptCopies(t: seq<Step>, i: nat, w: Walk)
    requires UniqueIds(t) && WeaklyOrdered(t) && i <= |t| && Copied(t, i, w)
    ensures Swept(ById(t), t[i..], w).ordered == t
    decreases |t| - i
  {
    if i < |t| {
      forall d | d in t[i].dependsOn && d in ById(t) ensures d == t[i].id || Before(t, i, d) {
        KeyIsListed(t, d);
      }
      VisitCopies(t, i, w);
      assert t[i..][0] == t[i] && t[i..][1..] == t[i + 1..];
      SweptCopies(t, i + 1, Visited(ById(t), t[i], w.(seen := {})));
    } else {
      assert t[..i] == t;
    }
  }

  /** If the next visit outputs `t[i]` right away, every dependency of `t[i]` was already out. */
  lemma NextNeedsDependencies(t: seq<Step>, i: nat, w: Walk, d: string)
    requires UniqueIds(t) && i < |t| && Copied(t, i, w)
    requires d in t[i].dependsOn && Listed(t, d)
    ensures var o := Visited(ById(t), t[i], w.(seen := {})).ordered;
      i < |o| && o[i] == t[i] ==> d == t[i].id || Before(t, i, d)
  {
    var byId := ById(t);
    var start := w.(seen := {});
    var entered := start.(seen := {} + {t[i].id});
    assert !Before(t, i, t[i].id);
    AllVisitedAppend(byId, t[i].dependsOn, entered);
    var below := VisitedAll(byId, t[i].dependsOn, entered);
    assert Visited(byId, t[i], start).ordered == below.ordered + [t[i]];
  }

  /** If the walk copies `t`, every step of `t` follows its dependencies. */
  lemma {:induction false} CopiedIsOrdered(t: seq<Step>, i: nat, w: Walk)
    requires UniqueIds(t) && i <= |t| && Copied(t, i, w)
    requires Swept(ById(t), t[i..], w).ordered == t
    ensures forall k, d :: i <= k < |t| && d in t[k].dependsOn && Listed(t, d) ==> d == t[k].id || Before(t, k, d)
    decreases |t| - i
  {
    if i < |t| {
      CopiedOneMore(t, i, w);
      CopiedIsOrdered(t, i + 1, Visited(ById(t), t[i], w.(seen := {})));
    }
  }

  /** One step of such a walk. */
  lemma CopiedOneMore(t: seq<Step>, i: nat, w: Walk)
    requires UniqueIds(t) && i < |t| && Copied(t, i, w)
    ensures Swept(ById(t), t[i..], w).ordered == t ==>
      var next := Visited(ById(t), t[i], w.(seen := {}));
      && Copied(t, i + 1, next) && Swept(ById(t), t[i + 1..], next).ordered == t
      && (forall d :: d in t[i].dependsOn && Listed(t, d) ==> d == t[i].id || Before(t, i, d))
  {
    if Swept(ById(t), t[i..], w).ordered == t {
      OutputNext(t, i, w);
      forall d | d in t[i].dependsOn && Listed(t, d) ensures d == t[i].id || Before(t, i, d) {
        NextNeedsDependencies(t, i, w, d);
      }
      forall d | d in t[i].dependsOn && d in ById(t) ensures d == t[i].id || Before(t, i, d) {
        KeyIsListed(t, d);
      }
      VisitCopies(t, i, w);
    }
  }

  /** The next visit outputs `t[i]`. */
  lemma OutputNext(t: seq<Step>, i: nat, w: Walk)
    requires UniqueIds(t) && i < |t| && Copied(t, i, w)
    ensures Swept(ById(t), t[i..], w).ordered == t ==>
      var next := Visited(ById(t), t[i], w.(seen := {}));
      Swept(ById(t), t[i + 1..], next).ordered == t && i < |next.ordered| && next.ordered[i] == t[i]
  {
    var next := Visited(ById(t), t[i], w.(seen := {}));
    assert t[i..][0] == t[i] && t[i..][1..] == t[i + 1..];
    SweptAppends(ById(t), t[i + 1..], next);
    VisitedAppends(ById(t), t[i], w.(seen := {}));
    assert !Before(t, i, t[i].id);
  }

  /** Exactly the lists in which each step follows its (other) dependencies come back unchanged. */
  lemma OrderedFixesExactlyOrderedLists(t: seq<Step>)
    requires UniqueIds(t)
    ensures Ordered(t) == t <==> WeaklyOrdered(t)
  {
    var w := Walk({}, {}, []);
    assert Copied(t, 0, w) && t[0..] == t;
    if WeaklyOrdered(t) {
      SweptCopies(t, 0, w);
    }
    if Ordered(t) == t {
      CopiedIsOrdered(t, 0, w);
    }
  }

  /** Ordering twice changes nothing exactly when no two different steps depend on each other. */
  lemma OrderedIdempotentIffNoMutualDependency(steps: seq<Step>)
    requires UniqueIds(steps)
    ensures Ordered(Ordered(steps)) == Ordered(steps) <==> NoMutualDependency(steps)
  {
    OrderedRespectsDependencies(steps);
    OrderedFixesExactlyOrderedLists(Ordered(steps));
    WeaklyOrderedIffNoMutualDependency(steps);
  }

  /** Two steps that depend on each other: the output is not dependency-ordered, and ordering it again changes it. */
  lemma TwoStepCycle(a: string, b: string, title: string)
    requires a != b
    ensures var steps := [Step(a, title, [b]), Step(b, title, [a])];
      && !DependencyOrdered(Ordered(steps))
      && Ordered(Ordered(steps)) != Ordered(steps)
  {
    var steps := [Step(a, title, [b]), Step(b, title, [a])];
    assert steps[0].id == a && steps[1].id == b;
    assert DependsOn(steps, a, b) && DependsOn(steps, b, a);
    ReachesOne(steps, a, b);
    ReachesOne(steps, b, a);
    ReachesFurther(steps, a, b, a);
    OrderedIsTopologicalIffAcyclic(steps);
    OrderedIdempotentIffNoMutualDependency(steps);
  }
}
