/**
 The validation of a plan's dependency graph.

 `validateDag` refuses repeated, empty and unknown ids, and throws when its
 depth-first search meets an id on its own stack. The set of visited ids is kept
 in insertion order. A search that throws gives nothing.
 */
module PlanGraph {
  import opened Basics
  import opened StepOrder

  datatype Search = Search(visiting: set<string>, visited: seq<string>)

  predicate Known(byId: map<string, Step>) {
    forall id, d :: id in byId && d in byId[id].dependsOn ==> d in byId
  }

  function Searched(byId: map<string, Step>, id: string, w: Search): (r: Option<Search>)
    requires Known(byId) && id in byId
    ensures r.Some? ==> r.value.visiting == w.visiting
    decreases byId.Keys - w.visiting, 0
  {
    if id in w.visiting then None
    else if id in w.visited then Some(w)
    else
      assert id in byId.Keys - w.visiting && id !in byId.Keys - (w.visiting + {id});
      match SearchedAll(byId, byId[id].dependsOn, w.(visiting := w.visiting + {id}))
      case None => None
      case Some(below) => Some(Search(below.visiting - {id}, below.visited + [id]))
  }

  function SearchedAll(byId: map<string, Step>, ids: seq<string>, w: Search): (r: Option<Search>)
    requires Known(byId) && forall id :: id in ids ==> id in byId
    ensures r.Some? ==> r.value.visiting == w.visiting
    decreases byId.Keys - w.visiting, |ids| + 1
  {
    if ids == [] then Some(w)
    else
      match Searched(byId, ids[0], w)
      case None => None
      case Some(next) => SearchedAll(byId, ids[1..], next)
  }

  // ------------------------------------------------------ the imperative form

  class GraphSearch {
    const byId: map<string, Step>
    var visiting: set<string>
    var visited: seq<string>

    ghost function Now(): Search
      reads this
    {
      Search(visiting, visited)
    }

    constructor (byId: map<string, Step>)
      ensures this.byId == byId && Now() == Search({}, [])
    {
      this.byId := byId;
      visiting, visited := {}, [];
    }

    /** False if the search throws. */
    method Visit(id: string) returns (ok: bool)
      requires Known(byId) && id in byId
      modifies this
      ensures ok <==> Searched(byId, id, old(Now())).Some?
      ensures ok ==> Searched(byId, id, old(Now())) == Some(Now())
      decreases byId.Keys - visiting, 0
    {
      if id in visiting { return false; }
      if id in visited { return true; }
      assert id in byId.Keys - visiting && id !in byId.Keys - (visiting + {id});
      visiting := visiting + {id};
      ok := VisitAll(byId[id].dependsOn);
      if ok {
        visiting := visiting - {id};
        visited := visited + [id];
      }
    }

    method VisitAll(ids: seq<string>) returns (ok: bool)
      requires Known(byId) && forall id :: id in ids ==> id in byId
      modifies this
      ensures ok <==> SearchedAll(byId, ids, old(Now())).Some?
      ensures ok ==> SearchedAll(byId, ids, old(Now())) == Some(Now())
      decreases byId.Keys - visiting, |ids| + 1
    {
      ghost var start := Now();
      for i := 0 to |ids|
        invariant visiting == start.visiting
        invariant SearchedAll(byId, ids[i..], Now()) == SearchedAll(byId, ids, start)
      {
        assert ids[i..][0] == ids[i] && ids[i..][1..] == ids[i + 1..];
        ok := Visit(ids[i]);
        if !ok { return; }
      }
      ok := true;
    }
  }

  /** False if the validation throws. */
  method ValidateDag(steps: seq<Step>) returns (ok: bool)
    ensures ok <==> Dag(steps)
  {
    var ids := IdSet(steps);
    UniqueIffCounts(steps);
    forall d ensures d in ids <==> Listed(steps, d) {
      InIdSet(steps, d);
    }
    if |ids| != |steps| { return false; }
    if exists s :: s in steps && (s.id == "" || exists d :: d in s.dependsOn && (d !in ids || d == s.id)) { return false; }
    ByIdIsKnown(steps);
    var search := new GraphSearch(ById(steps));
    ok := search.VisitAll(Ids(steps));
    AcceptedIffAcyclic(steps);
  }

  function Ids(steps: seq<Step>): seq<string> {
    seq(|steps|, i requires 0 <= i < |steps| => steps[i].id)
  }

  function IdSet(steps: seq<Step>): set<string> {
    set s | s in steps :: s.id
  }

  lemma IdSetGrows(front: seq<Step>, last: Step)
    ensures IdSet(front + [last]) == IdSet(front) + {last.id}
  {
  }

  lemma InIdSet(steps: seq<Step>, id: string)
    ensures id in IdSet(steps) <==> Listed(steps, id)
  {
    if Listed(steps, id) {
      var i :| 0 <= i < |steps| && steps[i].id == id;
      assert steps[i] in steps;
    }
  }

  lemma UniqueGrows(front: seq<Step>, last: Step)
    ensures UniqueIds(front + [last]) <==> UniqueIds(front) && last.id !in IdSet(front)
  {
    var all := front + [last];
    InIdSet(front, last.id);
    assert all[|front|] == last && forall i :: 0 <= i < |front| ==> all[i] == front[i];
  }

  lemma {:induction false} UniqueIffCounts(steps: seq<Step>)
    ensures |IdSet(steps)| <= |steps| && (|IdSet(steps)| == |steps| <==> UniqueIds(steps))
  {
    if steps != [] {
      var front, last := steps[..|steps| - 1], steps[|steps| - 1];
      assert steps == front + [last];
      UniqueIffCounts(front);
      IdSetGrows(front, last);
      UniqueGrows(front, last);
      if last.id in IdSet(front) {
        assert IdSet(steps) == IdSet(front);
      }
    }
  }

  // ------------------------------------------------------------------ meaning

  /** Ids are unique and not empty, and dependencies known and not the step itself. */
  ghost predicate WellFormed(steps: seq<Step>) {
    && UniqueIds(steps)
    && forall s :: s in steps ==> s.id != "" && forall d :: d in s.dependsOn ==> Listed(steps, d) && d != s.id
  }

  ghost predicate Dag(steps: seq<Step>) {
    WellFormed(steps) && Acyclic(steps)
  }

  /** Each step has a rank above those of its dependencies. */
  ghost predicate Ranked(steps: seq<Step>, rank: map<string, int>, bound: int) {
    forall s :: s in steps ==>
      && s.id in rank && 0 <= rank[s.id] < bound
      && forall d :: d in s.dependsOn ==> d in rank && rank[d] < rank[s.id]
  }

  lemma ByIdIsKnown(steps: seq<Step>)
    requires WellFormed(steps)
    ensures Known(ById(steps)) && forall id :: id in Ids(steps) <==> id in ById(steps)
    ensures forall s :: s in steps ==> ById(steps)[s.id] == s
  {
    var byId := ById(steps);
    forall s | s in steps ensures byId[s.id] == s {
      var i :| 0 <= i < |steps| && steps[i] == s;
      var j :| 0 <= j < |steps| && steps[j] == byId[s.id];
    }
    forall id ensures id in Ids(steps) <==> id in byId {
      if id in byId {
        var j :| 0 <= j < |steps| && steps[j] == byId[id];
        assert Ids(steps)[j] == id;
      }
    }
  }

  // ---------------------------------------------------- accepted: a ranking

  /** Everything visited comes behind its dependencies. */
  ghost predicate Laid(byId: map<string, Step>, visited: seq<string>) {
    forall i :: 0 <= i < |visited| ==> visited[i] in byId && forall d :: d in byId[visited[i]].dependsOn ==> d in visited[..i]
  }

  lemma LaidOneMore(byId: map<string, Step>, visited: seq<string>, id: string)
    requires Laid(byId, visited) && id in byId && forall d :: d in byId[id].dependsOn ==> d in visited
    ensures Laid(byId, visited + [id])
  {
    var more := visited + [id];
    forall i | 0 <= i < |more| ensures more[i] in byId && forall d :: d in byId[more[i]].dependsOn ==> d in more[..i] {
      assert more[..i] == visited[..i];
    }
  }

  lemma {:induction false} SearchedLays(byId: map<string, Step>, id: string, w: Search)
    requires Known(byId) && id in byId && Laid(byId, w.visited) && Searched(byId, id, w).Some?
    ensures var r := Searched(byId, id, w).value; Laid(byId, r.visited) && w.visited <= r.visited && id in r.visited
    decreases byId.Keys - w.visiting, 0
  {
    if id !in w.visited {
      var entered := w.(visiting := w.visiting + {id});
      assert id in byId.Keys - w.visiting && id !in byId.Keys - entered.visiting;
      AllSearchedLay(byId, byId[id].dependsOn, entered);
      LaidOneMore(byId, SearchedAll(byId, byId[id].dependsOn, entered).value.visited, id);
    }
  }

  lemma {:induction false} AllSearchedLay(byId: map<string, Step>, ids: seq<string>, w: Search)
    requires Known(byId) && (forall id :: id in ids ==> id in byId) && Laid(byId, w.visited)
    requires SearchedAll(byId, ids, w).Some?
    ensures var r := SearchedAll(byId, ids, w).value;
      Laid(byId, r.visited) && w.visited <= r.visited && forall id :: id in ids ==> id in r.visited
    decreases byId.Keys - w.visiting, |ids| + 1
  {
    if ids != [] {
      SearchedLays(byId, ids[0], w);
      AllSearchedLay(byId, ids[1..], Searched(byId, ids[0], w).value);
      var r := SearchedAll(byId, ids, w).value;
      forall id | id in ids ensures id in r.visited {
        assert id == ids[0] || id in ids[1..];
      }
    }
  }

  function Position(v: seq<string>, id: string): (i: nat)
    ensures i <= |v| && (id in v <==> i < |v|) && (i < |v| ==> v[i] == id)
  {
    if v == [] || v[0] == id then 0 else 1 + Position(v[1..], id)
  }

  lemma {:induction false} PositionBefore(v: seq<string>, i: nat, d: string)
    requires i <= |v| && d in v[..i]
    ensures Position(v, d) < i
  {
    if v[0] != d {
      assert v[1..][..i - 1] == v[..i][1..];
      assert v[..i] == [v[0]] + v[..i][1..];
      PositionBefore(v[1..], i - 1, d);
    }
  }

  /** The place of the first visit ranks a step above its dependencies. */
  lemma LaidIsRanked(byId: map<string, Step>, v: seq<string>, id: string, d: string)
    requires Laid(byId, v) && id in v && id in byId && d in byId[id].dependsOn
    ensures d in v && Position(v, d) < Position(v, id)
  {
    var i := Position(v, id);
    assert v[i] == id && d in v[..i];
    PositionBefore(v, i, d);
  }

  lemma AcceptedIsRanked(steps: seq<Step>) returns (rank: map<string, int>, bound: int)
    requires WellFormed(steps)
    requires Known(ById(steps)) && forall id :: id in Ids(steps) ==> id in ById(steps)
    requires SearchedAll(ById(steps), Ids(steps), Search({}, [])).Some?
    ensures Ranked(steps, rank, bound)
  {
    var byId := ById(steps);
    ByIdIsKnown(steps);
    AllSearchedLay(byId, Ids(steps), Search({}, []));
    var v := SearchedAll(byId, Ids(steps), Search({}, [])).value.visited;
    rank, bound := map id | id in v :: Position(v, id), |v|;
    forall s | s in steps
      ensures s.id in rank && 0 <= rank[s.id] < bound && forall d :: d in s.dependsOn ==> d in rank && rank[d] < rank[s.id]
    {
      var j :| 0 <= j < |steps| && steps[j] == s;
      assert Ids(steps)[j] == s.id;
      forall d | d in s.dependsOn ensures d in rank && rank[d] < rank[s.id] {
        LaidIsRanked(byId, v, s.id, d);
      }
    }
  }

  lemma {:induction false} ChainDescends(steps: seq<Step>, rank: map<string, int>, bound: int, p: seq<string>)
    requires UniqueIds(steps) && Ranked(steps, rank, bound) && Chain(steps, p)
    ensures p[0] in rank && p[|p| - 1] in rank && rank[p[|p| - 1]] < rank[p[0]]
    decreases |p|
  {
    assert DependsOn(steps, p[0], p[1]);
    var i :| 0 <= i < |steps| && steps[i].id == p[0] && p[1] in steps[i].dependsOn;
    assert steps[i] in steps;
    if |p| > 2 {
      var q := p[1..];
      forall k | 0 <= k < |q| - 1 ensures DependsOn(steps, q[k], q[k + 1]) {
        assert q[k] == p[k + 1] && q[k + 1] == p[k + 2];
      }
      ChainDescends(steps, rank, bound, q);
    }
  }

  lemma RankedIsAcyclic(steps: seq<Step>, rank: map<string, int>, bound: int)
    requires UniqueIds(steps) && Ranked(steps, rank, bound)
    ensures Acyclic(steps)
  {
    forall a ensures !Reaches(steps, a, a) {
      if Reaches(steps, a, a) {
        var p :| Chain(steps, p) && p[0] == a && p[|p| - 1] == a;
        ChainDescends(steps, rank, bound, p);
      }
    }
  }

  // ------------------------------------------------------- refused: a cycle

  lemma {:induction false} ThrowsOnCycle(steps: seq<Step>, id: string, w: Search)
    requires WellFormed(steps) && Known(ById(steps)) && id in ById(steps)
    requires forall g :: g in w.visiting ==> Reaches(steps, g, id)
    requires Searched(ById(steps), id, w).None?
    ensures !Acyclic(steps)
    decreases ById(steps).Keys - w.visiting, 0
  {
    var byId := ById(steps);
    if id in w.visiting {
      assert Reaches(steps, id, id);
    } else {
      var entered := w.(visiting := w.visiting + {id});
      assert id in byId.Keys - w.visiting && id !in byId.Keys - entered.visiting;
      AllThrowOnCycle(steps, byId[id], byId[id].dependsOn, entered);
    }
  }

  lemma {:induction false} AllThrowOnCycle(steps: seq<Step>, owner: Step, deps: seq<string>, w: Search)
    requires WellFormed(steps) && Known(ById(steps)) && owner in steps
    requires forall d :: d in deps ==> d in owner.dependsOn && d in ById(steps)
    requires forall g :: g in w.visiting ==> g == owner.id || Reaches(steps, g, owner.id)
    requires SearchedAll(ById(steps), deps, w).None?
    ensures !Acyclic(steps)
    decreases ById(steps).Keys - w.visiting, |deps| + 1
  {
    var d := deps[0];
    match Searched(ById(steps), d, w)
    case None =>
      EachReachesDependency(steps, owner, d, w.visiting);
      ThrowsOnCycle(steps, d, w);
    case Some(next) =>
      AllThrowOnCycle(steps, owner, deps[1..], next);
  }

  lemma EachReachesDependency(steps: seq<Step>, owner: Step, d: string, ids: set<string>)
    requires owner in steps && d in owner.dependsOn && Listed(steps, d)
    requires forall g :: g in ids ==> g == owner.id || Reaches(steps, g, owner.id)
    ensures forall g :: g in ids ==> Reaches(steps, g, d)
  {
    assert DependsOn(steps, owner.id, d);
    forall g | g in ids ensures Reaches(steps, g, d) {
      if g == owner.id {
        ReachesOne(steps, g, d);
      } else {
        ReachesFurther(steps, g, owner.id, d);
      }
    }
  }

  lemma {:induction false} TopLevelThrows(steps: seq<Step>, ids: seq<string>, w: Search)
    requires WellFormed(steps) && Known(ById(steps)) && w.visiting == {} && forall id :: id in ids ==> id in ById(steps)
    requires SearchedAll(ById(steps), ids, w).None?
    ensures !Acyclic(steps)
    decreases |ids|
  {
    match Searched(ById(steps), ids[0], w)
    case None => ThrowsOnCycle(steps, ids[0], w);
    case Some(next) => TopLevelThrows(steps, ids[1..], next);
  }

  /** The search goes through without an exception exactly if no step depends on itself through others. */
  lemma AcceptedIffAcyclic(steps: seq<Step>)
    requires WellFormed(steps)
    ensures Known(ById(steps)) && forall id :: id in Ids(steps) ==> id in ById(steps)
    ensures SearchedAll(ById(steps), Ids(steps), Search({}, [])).Some? <==> Acyclic(steps)
  {
    ByIdIsKnown(steps);
    if SearchedAll(ById(steps), Ids(steps), Search({}, [])).Some? {
      var rank, bound := AcceptedIsRanked(steps);
      RankedIsAcyclic(steps, rank, bound);
    } else {
      TopLevelThrows(steps, Ids(steps), Search({}, []));
    }
  }

  lemma DagIsRanked(steps: seq<Step>) returns (rank: map<string, int>, bound: int)
    requires Dag(steps)
    ensures Ranked(steps, rank, bound)
  {
    AcceptedIffAcyclic(steps);
    rank, bound := AcceptedIsRanked(steps);
  }
}
