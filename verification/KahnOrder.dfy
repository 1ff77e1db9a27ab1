/** `topological_order` itself, loop by loop. */
module KahnOrder {
  import opened Workflow
  import opened Graphs
  import opened Lists

  function IdSet(steps: seq<Step>): set<string> {
    set i | 0 <= i < |steps| :: steps[i].id
  }

  ghost predicate DegreeRight(es: seq<Edge>, inDegree: map<string, int>, x: string) {
    x in inDegree && inDegree[x] == Open(es, x, {})
  }

  ghost predicate TargetsRight(es: seq<Edge>, adj: map<string, seq<string>>, d: string) {
    d in adj && adj[d] == Targets(es, d)
  }

  /** The dictionaries `in_degree` and `adj` describe the edges `es`. */
  ghost predicate Describes(es: seq<Edge>, inDegree: map<string, int>, adj: map<string, seq<string>>, ids: set<string>) {
    && inDegree.Keys == ids && adj.Keys == ids
    && (forall x {:trigger DegreeRight(es, inDegree, x)} :: x in ids ==> DegreeRight(es, inDegree, x))
    && (forall d {:trigger TargetsRight(es, adj, d)} :: d in ids ==> TargetsRight(es, adj, d))
  }

  lemma {:induction false} DescribesIs(es: seq<Edge>, inDegree: map<string, int>, adj: map<string, seq<string>>, ids: set<string>)
    requires Describes(es, inDegree, adj, ids)
    ensures forall x :: x in ids ==> inDegree[x] == Open(es, x, {})
    ensures forall d :: d in ids ==> adj[d] == Targets(es, d)
  {
    forall x | x in ids ensures inDegree[x] == Open(es, x, {}) && adj[x] == Targets(es, x) {
      assert DegreeRight(es, inDegree, x) && TargetsRight(es, adj, x);
    }
  }

  lemma {:induction false} DescribesNothing(inDegree: map<string, int>, adj: map<string, seq<string>>, ids: set<string>, id: string)
    requires Describes([], inDegree, adj, ids)
    ensures Describes([], inDegree[id := 0], adj[id := []], ids + {id})
  {
    var inDegree', adj' := inDegree[id := 0], adj[id := []];
    forall x | x in ids + {id} ensures DegreeRight([], inDegree', x) && TargetsRight([], adj', x) {
      assert x != id ==> DegreeRight([], inDegree, x) && TargetsRight([], adj, x);
    }
  }

  method Initialise(steps: seq<Step>) returns (ids: seq<string>, inDegree: map<string, int>, adj: map<string, seq<string>>)
    ensures DistinctElements(ids) && Elements(ids) == IdSet(steps)
    ensures Describes([], inDegree, adj, IdSet(steps))
  {
    ids, inDegree, adj := [], map[], map[];
    for i := 0 to |steps|
      invariant DistinctElements(ids) && Elements(ids) == IdSet(steps[..i])
      invariant Describes([], inDegree, adj, IdSet(steps[..i]))
    {
      assert steps[..i + 1] == steps[..i] + [steps[i]];
      assert IdSet(steps[..i + 1]) == IdSet(steps[..i]) + {steps[i].id} by {
        assert forall k :: 0 <= k < i ==> steps[..i + 1][k] == steps[..i][k];
        assert steps[..i + 1][i] == steps[i];
      }
      if steps[i].id !in ids {
        ids := ids + [steps[i].id];
      }
      DescribesNothing(inDegree, adj, IdSet(steps[..i]), steps[i].id);
      inDegree := inDegree[steps[i].id := 0];
      adj := adj[steps[i].id := []];
    }
    assert steps[..|steps|] == steps;
  }

  lemma {:induction false} DescribesOneMore(es: seq<Edge>, inDegree: map<string, int>, adj: map<string, seq<string>>, ids: set<string>, e: Edge)
    requires Describes(es, inDegree, adj, ids) && e.dep in ids && e.step in ids
    ensures Describes(es + [e], inDegree[e.step := inDegree[e.step] + 1], adj[e.dep := adj[e.dep] + [e.step]], ids)
  {
    assert (es + [e])[..|es|] == es;
    assert DegreeRight(es, inDegree, e.step) && TargetsRight(es, adj, e.dep);
    var inDegree', adj' := inDegree[e.step := inDegree[e.step] + 1], adj[e.dep := adj[e.dep] + [e.step]];
    forall x | x in ids ensures DegreeRight(es + [e], inDegree', x) && TargetsRight(es + [e], adj', x) {
      assert DegreeRight(es, inDegree, x) && TargetsRight(es, adj, x);
    }
  }

  lemma {:induction false} IdSetHas(steps: seq<Step>, id: string)
    ensures id in IdSet(steps) <==> HasId(steps, id)
  {
  }

  /** `adj[dep].append(s.id); in_degree[s.id] += 1`. */
  method EnterEdge(ghost es: seq<Edge>, ghost ids: set<string>, id: string, dep: string,
                   inDegree0: map<string, int>, adj0: map<string, seq<string>>)
    returns (inDegree: map<string, int>, adj: map<string, seq<string>>)
    requires Describes(es, inDegree0, adj0, ids) && id in ids && dep in ids
    ensures Describes(es + [Edge(dep, id)], inDegree, adj, ids)
  {
    DescribesOneMore(es, inDegree0, adj0, ids, Edge(dep, id));
    adj := adj0[dep := adj0[dep] + [id]];
    inDegree := inDegree0[id := inDegree0[id] + 1];
  }

  /** Enters the dependencies of one step, up to the first that no step has: there `adj[dep]` is a KeyError. */
  method EnterEdges(ghost es: seq<Edge>, ghost ids: set<string>, id: string, deps: seq<string>,
                    inDegree0: map<string, int>, adj0: map<string, seq<string>>)
    returns (k: nat, inDegree: map<string, int>, adj: map<string, seq<string>>)
    requires Describes(es, inDegree0, adj0, ids) && id in ids
    ensures k <= |deps| && (forall j :: 0 <= j < k ==> deps[j] in ids)
    ensures k < |deps| ==> deps[k] !in ids
    ensures Describes(es + DepEdges(id, deps[..k]), inDegree, adj, ids)
  {
    inDegree, adj := inDegree0, adj0;
    ghost var all, entered := DepEdges(id, deps), es;
    k := 0;
    while k < |deps| && deps[k] in adj
      invariant 0 <= k <= |deps| && forall j :: 0 <= j < k ==> deps[j] in ids
      invariant entered == es + all[..k]
      invariant Describes(entered, inDegree, adj, ids)
    {
      inDegree, adj := EnterEdge(entered, ids, id, deps[k], inDegree, adj);
      entered := entered + [all[k]];
      k := k + 1;
    }
    DepEdgesPrefix(id, deps, k);
  }

  lemma {:induction false} DepEdgesPrefix(id: string, deps: seq<string>, k: nat)
    requires k <= |deps|
    ensures DepEdges(id, deps)[..k] == DepEdges(id, deps[..k])
  {
  }

  lemma {:induction false} EdgesOfPrefix(steps: seq<Step>, i: nat)
    requires i < |steps|
    ensures EdgesOf(steps[..i + 1]) == EdgesOf(steps[..i]) + DepEdges(steps[i].id, steps[i].dependsOn)
  {
    assert steps[..i + 1][..i] == steps[..i];
  }

  predicate DepsIn(step: Step, ids: set<string>) {
    forall k :: 0 <= k < |step.dependsOn| ==> step.dependsOn[k] in ids
  }

  lemma {:induction false} AllKnownIff(steps: seq<Step>)
    ensures AllKnown(steps) <==> forall i :: 0 <= i < |steps| ==> DepsIn(steps[i], IdSet(steps))
  {
    forall id ensures id in IdSet(steps) <==> HasId(steps, id) {
      IdSetHas(steps, id);
    }
    if AllKnown(steps) {
      forall i | 0 <= i < |steps| ensures DepsIn(steps[i], IdSet(steps)) {
        forall k | 0 <= k < |steps[i].dependsOn| ensures steps[i].dependsOn[k] in IdSet(steps) {
          assert steps[i].dependsOn[k] in steps[i].dependsOn;
        }
      }
    }
  }

  /** Enters step `i` if all its dependencies are known. */
  method EnterStep(steps: seq<Step>, i: nat, ghost ids: set<string>,
                   inDegree0: map<string, int>, adj0: map<string, seq<string>>)
    returns (known: bool, inDegree: map<string, int>, adj: map<string, seq<string>>)
    requires i < |steps| && steps[i].id in ids && Describes(EdgesOf(steps[..i]), inDegree0, adj0, ids)
    ensures known <==> DepsIn(steps[i], ids)
    ensures Describes(EdgesOf(steps[..if known then i + 1 else i]), inDegree, adj, ids)
  {
    var deps := steps[i].dependsOn;
    var k;
    k, inDegree, adj := EnterEdges(EdgesOf(steps[..i]), ids, steps[i].id, deps, inDegree0, adj0);
    known := k == |deps|;
    if known {
      assert deps[..k] == deps;
      EdgesOfPrefix(steps, i);
    } else {
      inDegree, adj := inDegree0, adj0;
    }
  }

  /** Enters the steps one by one, up to the first with an unknown dependency. */
  method EnterSteps(steps: seq<Step>, ghost ids: set<string>,
                    inDegree0: map<string, int>, adj0: map<string, seq<string>>)
    returns (i: nat, inDegree: map<string, int>, adj: map<string, seq<string>>)
    requires Describes([], inDegree0, adj0, ids) && forall k :: 0 <= k < |steps| ==> steps[k].id in ids
    ensures i <= |steps| && (forall k :: 0 <= k < i ==> DepsIn(steps[k], ids))
    ensures i < |steps| ==> !DepsIn(steps[i], ids)
    ensures Describes(EdgesOf(steps[..i]), inDegree, adj, ids)
  {
    inDegree, adj, i := inDegree0, adj0, 0;
    var known := true;
    while i < |steps| && known
      invariant 0 <= i <= |steps| && forall k :: 0 <= k < i ==> DepsIn(steps[k], ids)
      invariant !known ==> i < |steps| && !DepsIn(steps[i], ids)
      invariant Describes(EdgesOf(steps[..i]), inDegree, adj, ids)
      decreases |steps| - i, known
    {
      known, inDegree, adj := EnterStep(steps, i, ids, inDegree, adj);
      i := if known then i + 1 else i;
    }
  }

  method StepById(steps: seq<Step>, id: string) returns (step: Step)
    requires HasId(steps, id)
    ensures step in steps && step.id == id
  {
    for i := 0 to |steps|
      invariant forall k :: 0 <= k < i ==> steps[k].id != id
    {
      if steps[i].id == id {
        return steps[i];
      }
    }
    assert false;
  }

  /** Between two turns of the loop: `done` are the ids popped so far, in the order of `order`. */
  ghost predicate Progress(
    steps: seq<Step>, es: seq<Edge>, inDegree: map<string, int>, queue: seq<string>, order: seq<Step>, done: set<string>)
  {
    && inDegree.Keys == IdSet(steps)
    && (forall x :: x in IdSet(steps) ==> inDegree[x] == Open(es, x, done))
    && (forall x :: x in done ==> Open(es, x, done) == 0)
    && QueueIsFrontier(steps, inDegree, queue, done)
    && Emitted(steps, es, order, done)
  }

  ghost predicate QueueIsFrontier(steps: seq<Step>, inDegree: map<string, int>, queue: seq<string>, done: set<string>)
    requires inDegree.Keys == IdSet(steps)
  {
    && DistinctElements(queue)
    && forall x :: x in queue <==> x in IdSet(steps) && x !in done && inDegree[x] == 0
  }

  /** The steps emitted so far are steps of the plan, one for each id done, after all their dependencies. */
  ghost predicate Emitted(steps: seq<Step>, es: seq<Edge>, order: seq<Step>, done: set<string>) {
    && DistinctIds(order) && IdSet(order) == done
    && (forall s :: s in order ==> s in steps)
    && (forall i, e :: 0 <= i < |order| && e in es && e.step == order[i].id ==> HasId(order[..i], e.dep))
  }

  lemma {:induction false} FrontierStep(steps: seq<Step>, inDegree: map<string, int>, queue: seq<string>, done: set<string>, x: string)
    requires inDegree.Keys == IdSet(steps) && QueueIsFrontier(steps, inDegree, queue, done)
    requires x in IdSet(steps) && x !in done && inDegree[x] >= 1
    ensures QueueIsFrontier(steps, inDegree[x := inDegree[x] - 1],
                            if inDegree[x] == 1 then queue + [x] else queue, done)
  {
    assert x !in queue;
    forall y ensures y in queue + [x] <==> y in queue || y == x {
    }
  }

  /** The loop over `adj[current]`: `current` is done, and ids without open dependencies join the queue. */
  method ReleaseNeighbors(
    ghost steps: seq<Step>, ghost es: seq<Edge>, ghost done: set<string>, current: string, targets: seq<string>,
    inDegree0: map<string, int>, queue0: seq<string>)
    returns (inDegree: map<string, int>, queue: seq<string>)
    requires inDegree0.Keys == IdSet(steps) && current !in done && targets == Targets(es, current)
    requires forall k :: 0 <= k < |targets| ==> targets[k] in IdSet(steps) && targets[k] !in done + {current}
    requires forall x :: x in IdSet(steps) ==> inDegree0[x] == Open(es, x, done)
    requires QueueIsFrontier(steps, inDegree0, queue0, done + {current})
    ensures inDegree.Keys == IdSet(steps)
    ensures forall x :: x in IdSet(steps) ==> inDegree[x] == Open(es, x, done + {current})
    ensures QueueIsFrontier(steps, inDegree, queue, done + {current})
  {
    inDegree, queue := inDegree0, queue0;
    ghost var done' := done + {current};
    forall x ensures Open(es, x, done) == Open(es, x, done') + Occurs(targets, x) {
      OpenAfterDone(es, x, done, current);
    }
    assert targets[0..] == targets;
    for k := 0 to |targets|
      invariant Releasing(steps, es, done', targets[k..], inDegree, queue)
    {
      assert targets[k..][1..] == targets[k + 1..];
      inDegree, queue := ReleaseOne(steps, es, done', targets[k..], targets[k], inDegree, queue);
    }
  }

  /** The neighbors in `rest` have still to be released. */
  ghost predicate Releasing(
    steps: seq<Step>, es: seq<Edge>, done: set<string>, rest: seq<string>, inDegree: map<string, int>, queue: seq<string>)
  {
    && inDegree.Keys == IdSet(steps) && QueueIsFrontier(steps, inDegree, queue, done)
    && forall x :: x in IdSet(steps) ==> inDegree[x] == Open(es, x, done) + Occurs(rest, x)
  }

  method ReleaseOne(
    ghost steps: seq<Step>, ghost es: seq<Edge>, ghost done: set<string>, ghost rest: seq<string>, neighbor: string,
    inDegree0: map<string, int>, queue0: seq<string>)
    returns (inDegree: map<string, int>, queue: seq<string>)
    requires Releasing(steps, es, done, rest, inDegree0, queue0)
    requires rest != [] && rest[0] == neighbor && neighbor in IdSet(steps) && neighbor !in done
    ensures Releasing(steps, es, done, rest[1..], inDegree, queue)
  {
    FrontierStep(steps, inDegree0, queue0, done, neighbor);
    inDegree, queue := inDegree0[neighbor := inDegree0[neighbor] - 1], queue0;
    if inDegree[neighbor] == 0 {
      queue := queue + [neighbor];
    }
  }

  lemma {:induction false} PopKeepsEmitted(steps: seq<Step>, es: seq<Edge>, order: seq<Step>, done: set<string>, step: Step)
    requires Emitted(steps, es, order, done) && step in steps && step.id !in done && Open(es, step.id, done) == 0
    ensures Emitted(steps, es, order + [step], done + {step.id})
  {
    var order' := order + [step];
    OpenZero(es, step.id, done);
    assert order'[..|order|] == order;
    forall i, e | 0 <= i < |order'| && e in es && e.step == order'[i].id ensures HasId(order'[..i], e.dep) {
      if i < |order| {
        assert order'[..i] == order[..i];
      } else {
        IdSetHas(order, e.dep);
      }
    }
    assert IdSet(order') == IdSet(order) + {step.id} by {
      assert forall k :: 0 <= k < |order| ==> order'[k] == order[k];
      assert order'[|order|] == step;
    }
    forall k | 0 <= k < |order| ensures order[k].id != step.id {
      assert order[k].id in IdSet(order);
    }
  }

  lemma {:induction false} OpenShrinks(es: seq<Edge>, x: string, done: set<string>, d: string)
    ensures Open(es, x, done + {d}) <= Open(es, x, done)
  {
    if es != [] {
      OpenShrinks(es[..|es| - 1], x, done, d);
    }
  }

  /** The edges out of an id whose dependencies are all done lead to ids that are not done. */
  lemma {:induction false} TargetsAreNotDone(steps: seq<Step>, es: seq<Edge>, done: set<string>, current: string)
    requires forall e :: e in es ==> e.step in IdSet(steps)
    requires current !in done && forall x :: x in done + {current} ==> Open(es, x, done) == 0
    ensures forall k :: 0 <= k < |Targets(es, current)| ==>
              Targets(es, current)[k] in IdSet(steps) && Targets(es, current)[k] !in done + {current}
  {
    var targets := Targets(es, current);
    forall k | 0 <= k < |targets| ensures targets[k] in IdSet(steps) && targets[k] !in done + {current} {
      TargetsAreSteps(es, current, targets[k]);
      OpenZero(es, targets[k], done);
    }
  }

  /** One turn of the main loop. */
  method PopOne(steps: seq<Step>, ghost es: seq<Edge>, adj: map<string, seq<string>>, ghost done: set<string>,
                inDegree0: map<string, int>, queue0: seq<string>, order0: seq<Step>)
    returns (inDegree: map<string, int>, queue: seq<string>, order: seq<Step>)
    requires Progress(steps, es, inDegree0, queue0, order0, done) && queue0 != []
    requires adj.Keys == IdSet(steps) && forall d :: d in adj ==> adj[d] == Targets(es, d)
    requires forall e :: e in es ==> e.step in IdSet(steps)
    ensures queue0[0] in IdSet(steps) && queue0[0] !in done
    ensures Progress(steps, es, inDegree, queue, order, done + {queue0[0]})
  {
    var current := queue0[0];
    assert current in queue0;
    queue := queue0[1..];
    IdSetHas(steps, current);
    var step := StepById(steps, current);
    order := order0 + [step];
    PopKeepsEmitted(steps, es, order0, done, step);
    TargetsAreNotDone(steps, es, done, current);
    PopKeepsFrontier(steps, inDegree0, queue0, done);
    inDegree, queue := ReleaseNeighbors(steps, es, done, current, adj[current], inDegree0, queue);
    forall x | x in done + {current} ensures Open(es, x, done + {current}) == 0 {
      OpenShrinks(es, x, done, current);
    }
  }

  lemma {:induction false} PopKeepsFrontier(steps: seq<Step>, inDegree: map<string, int>, queue: seq<string>, done: set<string>)
    requires inDegree.Keys == IdSet(steps) && QueueIsFrontier(steps, inDegree, queue, done) && queue != []
    ensures QueueIsFrontier(steps, inDegree, queue[1..], done + {queue[0]})
  {
    assert queue == [queue[0]] + queue[1..];
  }

  method InitialQueue(steps: seq<Step>, ids: seq<string>, inDegree: map<string, int>) returns (queue: seq<string>)
    requires inDegree.Keys == IdSet(steps) == Elements(ids) && DistinctElements(ids)
    ensures QueueIsFrontier(steps, inDegree, queue, {})
  {
    queue := [];
    for i := 0 to |ids|
      invariant DistinctElements(queue)
      invariant forall x :: x in queue <==> x in ids[..i] && inDegree[x] == 0
    {
      assert ids[..i + 1] == ids[..i] + [ids[i]];
      assert ids[i] in Elements(ids);
      if inDegree[ids[i]] == 0 {
        queue := queue + [ids[i]];
      }
    }
    assert ids[..|ids|] == ids;
  }

  function Names(steps: seq<Step>): (ids: seq<string>)
    ensures |ids| == |steps| && forall i :: 0 <= i < |steps| ==> ids[i] == steps[i].id
  {
    seq(|steps|, i requires 0 <= i < |steps| => steps[i].id)
  }

  lemma {:induction false} IdCount(steps: seq<Step>)
    ensures |IdSet(steps)| <= |steps|
    ensures |IdSet(steps)| == |steps| <==> DistinctIds(steps)
  {
    ElementCount(Names(steps));
    assert Elements(Names(steps)) == IdSet(steps) by {
      forall x | x in IdSet(steps) ensures x in Names(steps) {
        var i :| 0 <= i < |steps| && steps[i].id == x;
        assert Names(steps)[i] == x;
      }
    }
    if DistinctElements(Names(steps)) {
      forall i, j | 0 <= i < j < |steps| ensures steps[i].id != steps[j].id {
        assert Names(steps)[i] != Names(steps)[j];
      }
    }
  }

  lemma {:induction false} DistinctMultiset(a: seq<Step>, s: Step)
    requires DistinctIds(a)
    ensures multiset(a)[s] == if s in a then 1 else 0
  {
    if a != [] {
      var n := |a| - 1;
      DistinctMultiset(a[..n], s);
      assert a == a[..n] + [a[n]];
    }
  }

  /** Everything has been popped: the plan has distinct ids, and the order is a permutation of its steps. */
  lemma {:induction false} AllEmitted(steps: seq<Step>, es: seq<Edge>, order: seq<Step>, done: set<string>)
    requires Emitted(steps, es, order, done) && |order| == |steps|
    ensures DistinctIds(steps) && multiset(order) == multiset(steps)
    ensures forall s :: s in steps ==> s in order
  {
    IdCount(order);
    IdCount(steps);
    forall x | x in done ensures x in IdSet(steps) {
      var k :| 0 <= k < |order| && order[k].id == x;
      assert order[k] in steps;
    }
    SubsetCount(done, IdSet(steps));
    forall s | s in steps ensures s in order {
      assert s.id in IdSet(order);
      var k :| 0 <= k < |order| && order[k].id == s.id;
      assert order[k] in steps;
    }
    forall s ensures multiset(order)[s] == multiset(steps)[s] {
      DistinctMultiset(order, s);
      DistinctMultiset(steps, s);
    }
  }

  lemma {:induction false} EmittedIsTopological(steps: seq<Step>, order: seq<Step>, done: set<string>)
    requires Emitted(steps, EdgesOf(steps), order, done)
    ensures Topological(order)
  {
    forall i, d | 0 <= i < |order| && d in order[i].dependsOn ensures HasId(order[..i], d) {
      assert order[i] in steps;
      var k :| 0 <= k < |steps| && steps[k] == order[i];
      assert Depends(steps, order[i].id, d);
      EdgesAreDependencies(steps, Edge(d, order[i].id));
    }
  }

  lemma {:induction false} CompleteIsAcyclic(steps: seq<Step>, order: seq<Step>)
    requires Topological(order) && DistinctIds(order) && forall s :: s in steps ==> s in order
    ensures Acyclic(steps)
  {
    forall a, d | Depends(steps, a, d) ensures Depends(order, a, d) {
      var i :| 0 <= i < |steps| && steps[i].id == a && d in steps[i].dependsOn;
      assert steps[i] in order;
      var k :| 0 <= k < |order| && order[k] == steps[i];
    }
    TopologicalIsAcyclic(order, steps);
  }

  lemma {:induction false} OrderIsComplete(steps: seq<Step>, order: seq<Step>, done: set<string>)
    requires Emitted(steps, EdgesOf(steps), order, done) && |order| == |steps|
    ensures DistinctIds(steps) && Acyclic(steps) && multiset(order) == multiset(steps) && Topological(order)
  {
    EmittedIsTopological(steps, order, done);
    AllEmitted(steps, EdgesOf(steps), order, done);
    CompleteIsAcyclic(steps, order);
  }

  lemma {:induction false} SomeIdIsLeft(steps: seq<Step>, es: seq<Edge>, order: seq<Step>, done: set<string>)
    requires Emitted(steps, es, order, done) && DistinctIds(steps) && |order| != |steps|
    ensures IdSet(steps) - done != {}
  {
    IdCount(order);
    IdCount(steps);
    forall x | x in done ensures x in IdSet(steps) {
      var k :| 0 <= k < |order| && order[k].id == x;
      assert order[k] in steps;
    }
    assert IdSet(steps) == done + (IdSet(steps) - done);
  }

  /** The queue ran dry too early: each remaining id waits for another remaining id. */
  lemma {:induction false} DryQueueMeansCycle(steps: seq<Step>, inDegree: map<string, int>, order: seq<Step>, done: set<string>)
    requires Progress(steps, EdgesOf(steps), inDegree, [], order, done) && AllKnown(steps)
    requires DistinctIds(steps) && |order| != |steps|
    ensures !Acyclic(steps)
  {
    SomeIdIsLeft(steps, EdgesOf(steps), order, done);
    var left := IdSet(steps) - done;
    forall x | x in left ensures Blocked(steps, left, x) {
      assert x !in [];
      OpenZero(EdgesOf(steps), x, done);
      var e :| e in EdgesOf(steps) && e.step == x && e.dep !in done;
      EdgesAreDependencies(steps, e);
      IdSetHas(steps, e.dep);
      assert Depends(steps, x, e.dep);
    }
    TrappedSetHasCycle(steps, left);
  }

  lemma {:induction false} EdgeEndsAreIds(steps: seq<Step>)
    ensures forall e :: e in EdgesOf(steps) ==> e.step in IdSet(steps)
  {
    forall e | e in EdgesOf(steps) ensures e.step in IdSet(steps) {
      EdgesAreDependencies(steps, e);
    }
  }

  /** The main loop, until the queue is empty. */
  method PopAll(steps: seq<Step>, ghost es: seq<Edge>, adj: map<string, seq<string>>,
                inDegree0: map<string, int>, queue0: seq<string>)
    returns (ghost inDegree: map<string, int>, order: seq<Step>, ghost done: set<string>)
    requires adj.Keys == IdSet(steps) && forall d :: d in adj ==> adj[d] == Targets(es, d)
    requires forall e :: e in es ==> e.step in IdSet(steps)
    requires Progress(steps, es, inDegree0, queue0, [], {})
    ensures Progress(steps, es, inDegree, [], order, done)
  {
    var degrees, queue := inDegree0, queue0;
    order, done := [], {};
    ghost var left := IdSet(steps);
    while queue != []
      invariant Progress(steps, es, degrees, queue, order, done)
      invariant left == IdSet(steps) - done
      decreases left
    {
      ghost var current := queue[0];
      degrees, queue, order := PopOne(steps, es, adj, done, degrees, queue, order);
      done, left := done + {current}, left - {current};
    }
    inDegree := degrees;
  }

  /**
   The method returns normally exactly when all dependencies exist, the ids are distinct and the graph is
   acyclic; the result is then a permutation of the steps, each after everything it depends on.
   */
  method TopologicalOrder(steps: seq<Step>) returns (r: Ordering)
    ensures r.UnknownDependency? <==> !AllKnown(steps)
    ensures r.Ordered? <==> AllKnown(steps) && DistinctIds(steps) && Acyclic(steps)
    ensures r.Ordered? ==> multiset(r.steps) == multiset(steps) && Topological(r.steps)
  {
    var ids, inDegree, adj := Initialise(steps);
    assert forall k :: 0 <= k < |steps| ==> steps[k].id in IdSet(steps);
    var entered;
    entered, inDegree, adj := EnterSteps(steps, IdSet(steps), inDegree, adj);
    AllKnownIff(steps);
    if entered < |steps| {
      return UnknownDependency;
    }
    assert steps[..entered] == steps;
    var queue := InitialQueue(steps, ids, inDegree);
    ghost var degrees, done;
    var order;
    EdgeEndsAreIds(steps);
    DescribesIs(EdgesOf(steps), inDegree, adj, IdSet(steps));
    degrees, order, done := PopAll(steps, EdgesOf(steps), adj, inDegree, queue);
    if |order| != |steps| {
      if DistinctIds(steps) {
        DryQueueMeansCycle(steps, degrees, order, done);
      }
      return CircularDependency;
    }
    OrderIsComplete(steps, order, done);
    return Ordered(order);
  }
}
