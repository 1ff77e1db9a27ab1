/** Workflow plans and `WorkflowBlueprint.topological_order`: Kahn's algorithm, sound and complete. */
module Workflow {

  datatype Step = Step(id: string, action: string, agent: string, expectedOutput: string, dependsOn: seq<string>)

  datatype Blueprint = Blueprint(goal: string, steps: seq<Step>, requiresReflection: bool)

  /** A normal return, the ValueError the method raises itself, or the KeyError of an unknown dependency. */
  datatype Ordering = Ordered(steps: seq<Step>) | CircularDependency | UnknownDependency
}

module Graphs {
  import opened Workflow
  import opened Lists

  ghost predicate DistinctIds(steps: seq<Step>) {
    forall i, j :: 0 <= i < j < |steps| ==> steps[i].id != steps[j].id
  }

  ghost predicate HasId(steps: seq<Step>, id: string) {
    exists i :: 0 <= i < |steps| && steps[i].id == id
  }

  /** Some step with id `a` lists `d` among its dependencies. */
  ghost predicate Depends(steps: seq<Step>, a: string, d: string) {
    exists i :: 0 <= i < |steps| && steps[i].id == a && d in steps[i].dependsOn
  }

  ghost predicate AllKnown(steps: seq<Step>) {
    forall i, d :: 0 <= i < |steps| && d in steps[i].dependsOn ==> HasId(steps, d)
  }

  ghost predicate IsCycle(steps: seq<Step>, c: seq<string>) {
    c != [] &&
    forall i :: 0 <= i < |c| ==> Depends(steps, c[i], c[if i + 1 < |c| then i + 1 else 0])
  }

  ghost predicate Acyclic(steps: seq<Step>) {
    forall c :: !IsCycle(steps, c)
  }

  /** Every step comes after all its dependencies. */
  ghost predicate Topological(order: seq<Step>) {
    forall i, d :: 0 <= i < |order| && d in order[i].dependsOn ==> HasId(order[..i], d)
  }

  // ----- edges, as the method enters them -----

  datatype Edge = Edge(dep: string, step: string)

  function DepEdges(id: string, deps: seq<string>): (e: seq<Edge>)
    ensures |e| == |deps| && forall i :: 0 <= i < |deps| ==> e[i] == Edge(deps[i], id)
  {
    seq(|deps|, i requires 0 <= i < |deps| => Edge(deps[i], id))
  }

  function EdgesOf(steps: seq<Step>): seq<Edge> {
    if steps == [] then []
    else
      var n := |steps| - 1;
      EdgesOf(steps[..n]) + DepEdges(steps[n].id, steps[n].dependsOn)
  }

  lemma {:induction false} EdgesAreDependencies(steps: seq<Step>, e: Edge)
    ensures e in EdgesOf(steps) <==> Depends(steps, e.step, e.dep)
  {
    if steps != [] {
      var n := |steps| - 1;
      EdgesAreDependencies(steps[..n], e);
      if e in DepEdges(steps[n].id, steps[n].dependsOn) {
        assert Depends(steps, e.step, e.dep);
      }
      if Depends(steps[..n], e.step, e.dep) {
        var i :| 0 <= i < n && steps[..n][i].id == e.step && e.dep in steps[..n][i].dependsOn;
        assert steps[i].id == e.step;
      }
      if Depends(steps, e.step, e.dep) {
        var i :| 0 <= i < |steps| && steps[i].id == e.step && e.dep in steps[i].dependsOn;
        if i < n {
          assert steps[..n][i] == steps[i];
        } else {
          var k :| 0 <= k < |steps[n].dependsOn| && steps[n].dependsOn[k] == e.dep;
          assert DepEdges(steps[n].id, steps[n].dependsOn)[k] == e;
        }
      }
    }
  }

  /** The dependencies of `x` that are not done, counted with multiplicity. */
  function Open(es: seq<Edge>, x: string, done: set<string>): nat {
    if es == [] then 0
    else
      var n := |es| - 1;
      Open(es[..n], x, done) + if es[n].step == x && es[n].dep !in done then 1 else 0
  }

  function Targets(es: seq<Edge>, d: string): seq<string> {
    if es == [] then []
    else
      var n := |es| - 1;
      Targets(es[..n], d) + if es[n].dep == d then [es[n].step] else []
  }

  /** How often `x` occurs in `p`. */
  function Occurs(p: seq<string>, x: string): nat {
    if p == [] then 0 else (if p[0] == x then 1 else 0) + Occurs(p[1..], x)
  }

  lemma {:induction false} OccursAppended(p: seq<string>, y: string, x: string)
    ensures Occurs(p + [y], x) == Occurs(p, x) + if y == x then 1 else 0
  {
    if p == [] {
      assert p + [y] == [y];
    } else {
      assert (p + [y])[1..] == p[1..] + [y];
      OccursAppended(p[1..], y, x);
    }
  }

  lemma {:induction false} OccursIn(p: seq<string>, x: string)
    ensures Occurs(p, x) > 0 <==> x in p
  {
    if p != [] {
      assert p == [p[0]] + p[1..];
      OccursIn(p[1..], x);
    }
  }

  lemma {:induction false} OpenAfterDone(es: seq<Edge>, x: string, done: set<string>, d: string)
    requires d !in done
    ensures Open(es, x, done) == Open(es, x, done + {d}) + Occurs(Targets(es, d), x)
  {
    if es != [] {
      var n := |es| - 1;
      OpenAfterDone(es[..n], x, done, d);
      OccursAppended(Targets(es[..n], d), es[n].step, x);
      assert Targets(es[..n], d) + [] == Targets(es[..n], d);
    }
  }

  lemma {:induction false} OpenZero(es: seq<Edge>, x: string, done: set<string>)
    ensures Open(es, x, done) == 0 <==> forall e :: e in es && e.step == x ==> e.dep in done
  {
    if es != [] {
      var n := |es| - 1;
      OpenZero(es[..n], x, done);
      assert es == es[..n] + [es[n]];
    }
  }

  lemma {:induction false} TargetsAreSteps(es: seq<Edge>, d: string, x: string)
    requires x in Targets(es, d)
    ensures Edge(d, x) in es
  {
    var n := |es| - 1;
    if x in Targets(es[..n], d) {
      TargetsAreSteps(es[..n], d, x);
    }
  }

  // ----- a set closed under "some dependency in the set" contains a cycle -----

  ghost predicate IsWalk(steps: seq<Step>, u: set<string>, p: seq<string>) {
    p != [] && (forall i :: 0 <= i < |p| ==> p[i] in u) &&
    forall i :: 0 <= i < |p| - 1 ==> Depends(steps, p[i], p[i + 1])
  }

  ghost predicate Blocked(steps: seq<Step>, u: set<string>, x: string) {
    exists y :: y in u && Depends(steps, x, y)
  }

  ghost predicate Trapped(steps: seq<Step>, u: set<string>) {
    forall x {:trigger Blocked(steps, u, x)} :: x in u ==> Blocked(steps, u, x)
  }

  lemma {:induction false} WalkExists(steps: seq<Step>, u: set<string>, n: nat) returns (p: seq<string>)
    requires u != {} && Trapped(steps, u)
    ensures |p| == n + 1 && IsWalk(steps, u, p)
  {
    if n == 0 {
      var x :| x in u;
      p := [x];
    } else {
      var q := WalkExists(steps, u, n - 1);
      assert Blocked(steps, u, q[n - 1]);
      var y :| y in u && Depends(steps, q[n - 1], y);
      p := q + [y];
    }
  }

  lemma {:induction false} TrappedSetHasCycle(steps: seq<Step>, u: set<string>)
    requires u != {} && Trapped(steps, u)
    ensures !Acyclic(steps)
  {
    var p := WalkExists(steps, u, |u|);
    ElementCount(p);
    SubsetCount(Elements(p), u);
    var i, j :| 0 <= i < j < |p| && p[i] == p[j];
    var c := p[i..j];
    forall k | 0 <= k < |c| ensures Depends(steps, c[k], c[if k + 1 < |c| then k + 1 else 0]) {
      assert Depends(steps, p[i + k], p[i + k + 1]);
    }
    assert IsCycle(steps, c);
  }

  // ----- a topological order excludes cycles -----

  lemma {:induction false} DependencyBefore(order: seq<Step>, i: nat, d: string) returns (at: nat)
    requires Topological(order) && DistinctIds(order) && i < |order| && Depends(order, order[i].id, d)
    ensures at < i && order[at].id == d
  {
    var j :| 0 <= j < |order| && order[j].id == order[i].id && d in order[j].dependsOn;
    assert j == i;
    assert HasId(order[..i], d);
    at :| 0 <= at < i && order[..i][at].id == d;
  }

  lemma {:induction false} ChainDescends(order: seq<Step>, steps: seq<Step>, c: seq<string>, start: nat, k: nat)
    returns (at: nat)
    requires Topological(order) && DistinctIds(order)
    requires forall a, d :: Depends(steps, a, d) ==> Depends(order, a, d)
    requires IsCycle(steps, c) && k <= |c|
    requires start < |order| && order[start].id == c[0]
    ensures at + k <= start && order[at].id == c[if k < |c| then k else 0]
  {
    if k == 0 {
      at := start;
    } else {
      var prev := ChainDescends(order, steps, c, start, k - 1);
      var next := c[if k < |c| then k else 0];
      assert Depends(steps, c[k - 1], next);
      at := DependencyBefore(order, prev, next);
    }
  }

  lemma {:induction false} TopologicalIsAcyclic(order: seq<Step>, steps: seq<Step>)
    requires Topological(order) && DistinctIds(order)
    requires forall a, d :: Depends(steps, a, d) ==> Depends(order, a, d)
    ensures Acyclic(steps)
  {
    forall c ensures !IsCycle(steps, c) {
      if IsCycle(steps, c) {
        assert Depends(steps, c[0], c[if 1 < |c| then 1 else 0]);
        assert Depends(order, c[0], c[if 1 < |c| then 1 else 0]);
        var start :| 0 <= start < |order| && order[start].id == c[0];
        var at := ChainDescends(order, steps, c, start, |c|);
      }
    }
  }
}
