/** Recording task runs in the graph store, and reading an agent's history back out of it. */
module AgentHistory {
  import opened Options
  import opened GraphModel
  import opened GraphMemory
  import opened Decimal

  datatype TaskOutcome = SUCCESS | FAILURE | PARTIAL | ABORTED

  function OutcomeText(o: TaskOutcome): string {
    match o
    case SUCCESS => "success"
    case FAILURE => "failure"
    case PARTIAL => "partial"
    case ABORTED => "aborted"
  }

  /** One call of `record_task`. */
  datatype TaskRun = TaskRun(task: string, agent: string, outcome: TaskOutcome)

  datatype HistoryItem = HistoryItem(task: string, outcome: string)

  /** The runs of one agent, in the order they were recorded. */
  function History(runs: seq<TaskRun>, agent: string): seq<HistoryItem> {
    if runs == [] then []
    else
      var n := |runs| - 1;
      History(runs[..n], agent) +
      if runs[n].agent == agent then [HistoryItem(runs[n].task, OutcomeText(runs[n].outcome))] else []
  }

  /** Where the recorded runs are in the graph. */
  datatype Layout = Layout(tasks: seq<NodeId>, outcomes: seq<NodeId>, agents: map<string, NodeId>)

  /** The indices of the runs of one agent. */
  function RunsOf(runs: seq<TaskRun>, agent: string): (ks: seq<nat>)
    ensures forall j :: 0 <= j < |ks| ==> ks[j] < |runs| && runs[ks[j]].agent == agent
    ensures forall i, j :: 0 <= i < j < |ks| ==> ks[i] < ks[j]
  {
    if runs == [] then []
    else
      var n := |runs| - 1;
      RunsOf(runs[..n], agent) + if runs[n].agent == agent then [n] else []
  }

  lemma {:induction false} HistoryIsRunsOf(runs: seq<TaskRun>, agent: string)
    ensures |History(runs, agent)| == |RunsOf(runs, agent)|
    ensures forall j :: 0 <= j < |RunsOf(runs, agent)| ==>
              var r := runs[RunsOf(runs, agent)[j]];
              History(runs, agent)[j] == HistoryItem(r.task, OutcomeText(r.outcome))
    ensures forall j :: 0 <= j < |RunsOf(runs, agent)| ==>
              var r := runs[RunsOf(runs, agent)[j]];
              History(runs, agent)[j].task == r.task &&
              History(runs, agent)[j].outcome ==
                match r.outcome
                case SUCCESS => "success"
                case FAILURE => "failure"
                case PARTIAL => "partial"
                case ABORTED => "aborted"
    ensures forall k :: 0 <= k < |runs| ==> (k in RunsOf(runs, agent) <==> runs[k].agent == agent)
  {
    if runs != [] {
      HistoryIsRunsOf(runs[..|runs| - 1], agent);
    }
  }

  function Pick(ids: seq<NodeId>, ks: seq<nat>): (r: seq<NodeId>)
    requires forall j :: 0 <= j < |ks| ==> ks[j] < |ids|
    ensures |r| == |ks| && forall j :: 0 <= j < |ks| ==> r[j] == ids[ks[j]]
  {
    seq(|ks|, j requires 0 <= j < |ks| => ids[ks[j]])
  }

  function EdgesTo(targets: seq<NodeId>, relation: string): (es: seq<Edge>)
    ensures |es| == |targets| && forall j :: 0 <= j < |targets| ==> es[j] == Edge(targets[j], relation, map[])
  {
    seq(|targets|, j requires 0 <= j < |targets| => Edge(targets[j], relation, map[]))
  }

  type Nodes = map<NodeId, NodeData>
  type Out = map<NodeId, seq<Edge>>

  ghost predicate IsNode(nodes: Nodes, id: NodeId, kind: NodeType, name: string) {
    id in nodes && nodes[id].NodeData? && nodes[id].kind == kind && nodes[id].name == name
  }

  ghost predicate IsOutcome(nodes: Nodes, id: NodeId, outcome: TaskOutcome) {
    id in nodes && nodes[id].NodeData? && nodes[id].kind == OUTCOME &&
    "result" in nodes[id].attrs && nodes[id].attrs["result"] == OutcomeText(outcome)
  }

  ghost predicate TasksLaidOut(nodes: Nodes, out: Out, runs: seq<TaskRun>, l: Layout) {
    && |l.tasks| == |l.outcomes| == |runs| && Distinct(l.tasks)
    && (forall i :: 0 <= i < |runs| ==> IsNode(nodes, l.tasks[i], TASK, runs[i].task))
    && (forall i :: 0 <= i < |runs| ==> IsOutcome(nodes, l.outcomes[i], runs[i].outcome))
    && (forall i :: 0 <= i < |runs| ==> l.tasks[i] in out && out[l.tasks[i]] == EdgesTo([l.outcomes[i]], "produced"))
    && (forall i :: 0 <= i < |runs| ==> l.outcomes[i] in out && out[l.outcomes[i]] == [])
  }

  /** Each agent's edges lead to the tasks it ran, in order. */
  ghost predicate AgentsLaidOut(nodes: Nodes, out: Out, runs: seq<TaskRun>, l: Layout)
    requires |l.tasks| == |runs|
  {
    && (forall i :: 0 <= i < |runs| ==> runs[i].agent in l.agents)
    && (forall a :: a in l.agents ==> IsNode(nodes, l.agents[a], AGENT, a))
    && (forall a :: a in l.agents ==> l.agents[a] in out)
    && (forall a :: a in l.agents ==> out[l.agents[a]] == EdgesTo(Pick(l.tasks, RunsOf(runs, a)), "executed_by"))
  }

  /** There are no other agent nodes, and so one for each name. */
  ghost predicate AgentsKnown(nodes: Nodes, l: Layout) {
    forall n :: n in nodes && nodes[n].NodeData? && nodes[n].kind == AGENT ==>
      nodes[n].name in l.agents && l.agents[nodes[n].name] == n
  }

  ghost predicate Counted(n: NodeId, counter: nat) {
    exists k: nat :: 1 <= k <= counter && n == IdFor(k)
  }

  /** Every id was made by the counter, so the next one is new. */
  ghost predicate IdsCounted(g: Graph) {
    forall n :: n in g.nodes ==> Counted(n, g.counter)
  }

  ghost predicate LaidOut(g: Graph, runs: seq<TaskRun>, l: Layout) {
    && TasksLaidOut(g.nodes, g.out, runs, l) && AgentsLaidOut(g.nodes, g.out, runs, l) && AgentsKnown(g.nodes, l)
  }

  ghost predicate Represents(g: Graph, runs: seq<TaskRun>, l: Layout) {
    WellFormed(g) && IdsCounted(g) && LaidOut(g, runs, l)
  }

  // ----- adding the nodes of a run -----

  lemma {:induction false} NextIdIsNew(g: Graph)
    requires IdsCounted(g)
    ensures IdFor(g.counter + 1) !in g.nodes
  {
    if IdFor(g.counter + 1) in g.nodes {
      assert Counted(IdFor(g.counter + 1), g.counter);
      var k: nat :| 1 <= k <= g.counter && IdFor(g.counter + 1) == IdFor(k);
      PrefixedInjective("node_", g.counter + 1, k);
    }
  }

  function Add(g: Graph, data: NodeData): Graph {
    WithNode(g.(counter := g.counter + 1), IdFor(g.counter + 1), data)
  }

  lemma {:induction false} AddKeepsIds(g: Graph, data: NodeData)
    requires IdsCounted(g)
    ensures IdsCounted(Add(g, data))
  {
    forall n | n in Add(g, data).nodes ensures Counted(n, g.counter + 1) {
      if n in g.nodes && n != IdFor(g.counter + 1) {
        assert Counted(n, g.counter);
        var k: nat :| 1 <= k <= g.counter && n == IdFor(k);
      }
    }
  }

  lemma {:induction false} AddKeepsForm(g: Graph, data: NodeData)
    requires WellFormed(g)
    ensures WellFormed(Add(g, data))
  {
    CounterKeepsForm(g, g.counter + 1);
    NodeKeepsForm(g.(counter := g.counter + 1), IdFor(g.counter + 1), data);
  }

  lemma {:induction false} TasksAside(nodes: Nodes, out: Out, runs: seq<TaskRun>, l: Layout, id: NodeId, data: NodeData)
    requires TasksLaidOut(nodes, out, runs, l) && id !in nodes
    ensures TasksLaidOut(nodes[id := data], out[id := []], runs, l)
  {
  }

  lemma {:induction false} AgentsAside(nodes: Nodes, out: Out, runs: seq<TaskRun>, l: Layout, id: NodeId, data: NodeData)
    requires |l.tasks| == |runs| && AgentsLaidOut(nodes, out, runs, l) && id !in nodes
    ensures AgentsLaidOut(nodes[id := data], out[id := []], runs, l)
  {
  }

  /** A new node disturbs nothing that is already laid out. */
  lemma {:induction false} NewNodeAside(nodes: Nodes, out: Out, runs: seq<TaskRun>, l: Layout, id: NodeId, data: NodeData)
    requires TasksLaidOut(nodes, out, runs, l) && AgentsLaidOut(nodes, out, runs, l) && id !in nodes
    ensures TasksLaidOut(nodes[id := data], out[id := []], runs, l)
    ensures AgentsLaidOut(nodes[id := data], out[id := []], runs, l)
  {
    TasksAside(nodes, out, runs, l, id, data);
    AgentsAside(nodes, out, runs, l, id, data);
  }

  lemma {:induction false} AddLays(g: Graph, data: NodeData)
    requires IdFor(g.counter + 1) !in g.nodes
    ensures Add(g, data).nodes == g.nodes[IdFor(g.counter + 1) := data]
    ensures Add(g, data).out == g.out[IdFor(g.counter + 1) := []]
    ensures Add(g, data).counter == g.counter + 1
  {
  }

  lemma {:induction false} PlainAside(g: Graph, runs: seq<TaskRun>, l: Layout, data: NodeData)
    requires IdsCounted(g) && LaidOut(g, runs, l) && data.NodeData? && data.kind != AGENT
    ensures LaidOut(Add(g, data), runs, l)
  {
    NextIdIsNew(g);
    AddLays(g, data);
    NewNodeAside(g.nodes, g.out, runs, l, IdFor(g.counter + 1), data);
  }

  lemma {:induction false} AddPlain(g: Graph, runs: seq<TaskRun>, l: Layout, data: NodeData)
    requires Represents(g, runs, l) && data.NodeData? && data.kind != AGENT
    ensures Represents(Add(g, data), runs, l)
  {
    PlainAside(g, runs, l, data);
    AddKeepsIds(g, data);
    AddKeepsForm(g, data);
  }

  lemma {:induction false} NoRuns(runs: seq<TaskRun>, agent: string)
    requires forall i :: 0 <= i < |runs| ==> runs[i].agent != agent
    ensures RunsOf(runs, agent) == []
  {
    if runs != [] {
      NoRuns(runs[..|runs| - 1], agent);
    }
  }

  lemma {:induction false} AgentLaidOut(
    nodes: Nodes, out: Out, runs: seq<TaskRun>, l: Layout, agent: string, id: NodeId)
    requires |l.tasks| == |runs| && AgentsLaidOut(nodes, out, runs, l) && agent !in l.agents
    requires IsNode(nodes, id, AGENT, agent) && id in out && out[id] == []
    ensures AgentsLaidOut(nodes, out, runs, l.(agents := l.agents[agent := id]))
  {
    NoRuns(runs, agent);
    assert EdgesTo(Pick(l.tasks, RunsOf(runs, agent)), "executed_by") == [];
  }

  lemma {:induction false} AgentAside(g: Graph, runs: seq<TaskRun>, l: Layout, agent: string)
    requires IdsCounted(g) && LaidOut(g, runs, l) && agent !in l.agents
    ensures LaidOut(Add(g, NodeData(AGENT, agent, map[])), runs, l.(agents := l.agents[agent := IdFor(g.counter + 1)]))
  {
    var data, id := NodeData(AGENT, agent, map[]), IdFor(g.counter + 1);
    var nodes, out := g.nodes[id := data], g.out[id := []];
    NextIdIsNew(g);
    AddLays(g, data);
    NewNodeAside(g.nodes, g.out, runs, l, id, data);
    AgentLaidOut(nodes, out, runs, l, agent, id);
  }

  lemma {:induction false} AddAgent(g: Graph, runs: seq<TaskRun>, l: Layout, agent: string)
    requires Represents(g, runs, l) && agent !in l.agents
    ensures Represents(Add(g, NodeData(AGENT, agent, map[])), runs, l.(agents := l.agents[agent := IdFor(g.counter + 1)]))
  {
    AgentAside(g, runs, l, agent);
    AddKeepsIds(g, NodeData(AGENT, agent, map[]));
    AddKeepsForm(g, NodeData(AGENT, agent, map[]));
  }

  // ----- adding the edges of a run -----

  /** The nodes of the next run, in place but not yet linked. */
  ghost predicate Ready(g: Graph, l: Layout, run: TaskRun, task: NodeId, result: NodeId) {
    && run.agent in l.agents && task !in l.tasks && task != result
    && IsNode(g.nodes, task, TASK, run.task) && task in g.out && g.out[task] == []
    && IsOutcome(g.nodes, result, run.outcome) && result in g.out && g.out[result] == []
  }

  function Linked(g: Graph, agent: NodeId, task: NodeId, result: NodeId): Graph {
    WithEdge(WithEdge(g, agent, Edge(task, "executed_by", map[])), task, Edge(result, "produced", map[]))
  }

  lemma {:induction false} NewEdgeLast(g: Graph, source: NodeId, e: Edge)
    requires source in g.nodes && e.target in g.nodes && source in g.out
    requires forall j :: 0 <= j < |g.out[source]| ==> g.out[source][j].target != e.target
    ensures WithEdge(g, source, e) == g.(out := g.out[source := g.out[source] + [e]])
  {
    PositionIs(g.out[source], e.target, |g.out[source]|);
    assert PutEdge(g.out[source], e) == g.out[source] + [e];
  }

  lemma {:induction false} NotYetLinked(nodes: Nodes, out: Out, runs: seq<TaskRun>, l: Layout, a: string, task: NodeId)
    requires |l.tasks| == |runs| && AgentsLaidOut(nodes, out, runs, l) && a in l.agents && task !in l.tasks
    ensures var edges := out[l.agents[a]];
            forall j :: 0 <= j < |edges| ==> edges[j].target != task
  {
    var edges := out[l.agents[a]];
    forall j | 0 <= j < |edges| ensures edges[j].target != task {
      assert l.tasks[RunsOf(runs, a)[j]] in l.tasks;
    }
  }

  lemma {:induction false} LinkedOut(g: Graph, agent: NodeId, task: NodeId, result: NodeId)
    requires agent in g.nodes && task in g.nodes && result in g.nodes && agent in g.out && task in g.out
    requires agent != task && g.out[task] == []
    requires forall j :: 0 <= j < |g.out[agent]| ==> g.out[agent][j].target != task
    ensures Linked(g, agent, task, result) ==
            g.(out := g.out[agent := g.out[agent] + [Edge(task, "executed_by", map[])]]
                           [task := [Edge(result, "produced", map[])]])
  {
    NewEdgeLast(g, agent, Edge(task, "executed_by", map[]));
    NewEdgeLast(WithEdge(g, agent, Edge(task, "executed_by", map[])), task, Edge(result, "produced", map[]));
    assert [] + [Edge(result, "produced", map[])] == [Edge(result, "produced", map[])];
  }

  function NextLayout(l: Layout, task: NodeId, result: NodeId): Layout {
    l.(tasks := l.tasks + [task], outcomes := l.outcomes + [result])
  }

  lemma {:induction false} RunsOfNext(runs: seq<TaskRun>, run: TaskRun, agent: string)
    ensures RunsOf(runs + [run], agent) == RunsOf(runs, agent) + if run.agent == agent then [|runs|] else []
  {
    assert (runs + [run])[..|runs|] == runs;
  }

  lemma {:induction false} NextEdges(runs: seq<TaskRun>, run: TaskRun, tasks: seq<NodeId>, task: NodeId, agent: string)
    requires |tasks| == |runs|
    ensures EdgesTo(Pick(tasks + [task], RunsOf(runs + [run], agent)), "executed_by") ==
            EdgesTo(Pick(tasks, RunsOf(runs, agent)), "executed_by") +
            if run.agent == agent then [Edge(task, "executed_by", map[])] else []
  {
    RunsOfNext(runs, run, agent);
  }

  lemma {:induction false} NextTasks(nodes: Nodes, out: Out, runs: seq<TaskRun>, l: Layout, run: TaskRun,
                                     agent: NodeId, more: seq<Edge>, task: NodeId, result: NodeId)
    requires TasksLaidOut(nodes, out, runs, l) && IsNode(nodes, agent, AGENT, run.agent)
    requires task !in l.tasks && IsNode(nodes, task, TASK, run.task)
    requires IsOutcome(nodes, result, run.outcome) && result in out && out[result] == [] && agent in out
    ensures TasksLaidOut(nodes, out[agent := more][task := [Edge(result, "produced", map[])]], runs + [run],
                         NextLayout(l, task, result))
  {
    var out', l' := out[agent := more][task := [Edge(result, "produced", map[])]], NextLayout(l, task, result);
    forall i | 0 <= i < |runs| ensures l.tasks[i] != agent && l.outcomes[i] != agent && l.tasks[i] != task && l.outcomes[i] != task {
      assert IsNode(nodes, l.tasks[i], TASK, runs[i].task) && IsOutcome(nodes, l.outcomes[i], runs[i].outcome);
      assert l.tasks[i] in l.tasks;
    }
    assert EdgesTo([result], "produced") == [Edge(result, "produced", map[])];
  }

  lemma {:induction false} NextAgents(nodes: Nodes, out: Out, runs: seq<TaskRun>, l: Layout, run: TaskRun,
                                      task: NodeId, result: NodeId, after: seq<Edge>)
    requires |l.tasks| == |runs| && AgentsLaidOut(nodes, out, runs, l) && AgentsKnown(nodes, l)
    requires run.agent in l.agents && IsNode(nodes, task, TASK, run.task)
    ensures var agent := l.agents[run.agent];
            AgentsLaidOut(nodes, out[agent := out[agent] + [Edge(task, "executed_by", map[])]][task := after],
                          runs + [run], NextLayout(l, task, result))
  {
    var agent, l' := l.agents[run.agent], NextLayout(l, task, result);
    var out' := out[agent := out[agent] + [Edge(task, "executed_by", map[])]][task := after];
    forall a | a in l.agents ensures out'[l.agents[a]] == EdgesTo(Pick(l'.tasks, RunsOf(runs + [run], a)), "executed_by") {
      assert IsNode(nodes, l.agents[a], AGENT, a) && IsNode(nodes, agent, AGENT, run.agent);
      NextEdges(runs, run, l.tasks, task, a);
    }
  }

  lemma {:induction false} LinkLays(g: Graph, runs: seq<TaskRun>, l: Layout, run: TaskRun, task: NodeId, result: NodeId)
    requires g.out.Keys == g.nodes.Keys && LaidOut(g, runs, l) && Ready(g, l, run, task, result)
    ensures LaidOut(Linked(g, l.agents[run.agent], task, result), runs + [run], NextLayout(l, task, result))
  {
    var agent := l.agents[run.agent];
    var more := g.out[agent] + [Edge(task, "executed_by", map[])];
    assert IsNode(g.nodes, agent, AGENT, run.agent);
    NotYetLinked(g.nodes, g.out, runs, l, run.agent, task);
    LinkedOut(g, agent, task, result);
    NextTasks(g.nodes, g.out, runs, l, run, agent, more, task, result);
    NextAgents(g.nodes, g.out, runs, l, run, task, result, [Edge(result, "produced", map[])]);
  }

  lemma {:induction false} LinkKeepsForm(g: Graph, source: NodeId, e: Edge)
    requires WellFormed(g) && source in g.nodes && e.target in g.nodes
    ensures WellFormed(WithEdge(g, source, e)) && WithEdge(g, source, e).nodes == g.nodes
  {
    PutEdgeWellFormed(g, source, e);
  }

  /** Linking the nodes of the next run records it. */
  lemma {:induction false} LinkRecords(g: Graph, runs: seq<TaskRun>, l: Layout, run: TaskRun, task: NodeId, result: NodeId)
    requires Represents(g, runs, l) && Ready(g, l, run, task, result)
    ensures Represents(Linked(g, l.agents[run.agent], task, result), runs + [run], NextLayout(l, task, result))
  {
    var agent := l.agents[run.agent];
    assert IsNode(g.nodes, agent, AGENT, run.agent);
    LinkKeepsForm(g, agent, Edge(task, "executed_by", map[]));
    LinkKeepsForm(WithEdge(g, agent, Edge(task, "executed_by", map[])), task, Edge(result, "produced", map[]));
    LinkLays(g, runs, l, run, task, result);
    assert Linked(g, agent, task, result).counter == g.counter;
  }

  // ----- reading the runs back -----

  lemma {:induction false} FreshTargets(vs: seq<NodeId>, relation: string, seen: set<NodeId>)
    requires Distinct(vs) && forall i :: 0 <= i < |vs| ==> vs[i] !in seen
    ensures NewTargets(EdgesTo(vs, relation), relation, seen) == vs
  {
    if vs != [] {
      var n := |vs| - 1;
      FreshTargets(vs[..n], relation, seen);
      assert EdgesTo(vs, relation)[..n] == EdgesTo(vs[..n], relation);
      assert vs == vs[..n] + [vs[n]];
    }
  }

  ghost predicate NoneMatch(edges: seq<Edge>, relation: string) {
    forall k :: 0 <= k < |edges| ==> !Matches(edges[k], relation)
  }

  lemma {:induction false} NothingNew(edges: seq<Edge>, relation: string, seen: set<NodeId>)
    requires NoneMatch(edges, relation)
    ensures NewTargets(edges, relation, seen) == []
  {
    if edges != [] {
      NothingNew(edges[..|edges| - 1], relation, seen);
    }
  }

  /** A search whose remaining entries have no matching edges adds nothing. */
  lemma {:induction false} BfsQuiet(g: Graph, relation: string, found: seq<Entry>, head: nat, maxDepth: nat)
    requires WellFormed(g) && AllNodes(g, found) && head <= |found|
    requires forall i :: head <= i < |found| ==> NoneMatch(g.out[found[i].node], relation)
    ensures Bfs(g, relation, found, head, maxDepth) == found
    decreases |found| - head
  {
    if head < |found| {
      NothingNew(g.out[found[head].node], relation, Seen(found));
      assert Expand(g, relation, found, head, maxDepth) == found;
      BfsQuiet(g, relation, found, head + 1, maxDepth);
    }
  }

  /** When the successors lead nowhere further, a query answers with the successors. */
  lemma {:induction false} RelatedOneStep(g: Graph, start: NodeId, relation: string, vs: seq<NodeId>)
    requires WellFormed(g) && start in g.nodes && g.out[start] == EdgesTo(vs, relation)
    requires Distinct(vs) && forall i :: 0 <= i < |vs| ==> vs[i] in g.nodes && vs[i] != start
    requires forall i :: 0 <= i < |vs| ==> NoneMatch(g.out[vs[i]], relation)
    ensures RelatedNodes(g, start, relation, 2) == Show(g.nodes, vs)
  {
    FirstStep(g, start, relation, vs);
    BfsQuiet(g, relation, [Entry(start, 0)] + AtDepth(vs, 1), 1, 2);
    BfsStays(g, relation, [Entry(start, 0)], 0, 2);
  }

  lemma {:induction false} FirstStep(g: Graph, start: NodeId, relation: string, vs: seq<NodeId>)
    requires start in g.out && g.out[start] == EdgesTo(vs, relation) && Distinct(vs) && forall i :: 0 <= i < |vs| ==> vs[i] != start
    ensures Expand(g, relation, [Entry(start, 0)], 0, 2) == [Entry(start, 0)] + AtDepth(vs, 1)
  {
    var found := [Entry(start, 0)];
    assert Seen(found) == {start} by {
      assert found[0].node == start;
    }
    FreshTargets(vs, relation, {start});
  }

  lemma {:induction false} AgentTasks(g: Graph, runs: seq<TaskRun>, l: Layout, agent: string)
    requires Represents(g, runs, l) && agent in l.agents
    ensures var vs := Pick(l.tasks, RunsOf(runs, agent));
            && (forall i :: 0 <= i < |vs| ==> vs[i] in g.nodes)
            && RelatedNodes(g, l.agents[agent], "executed_by", 2) == Show(g.nodes, vs)
  {
    var vs, start := Pick(l.tasks, RunsOf(runs, agent)), l.agents[agent];
    forall i | 0 <= i < |vs| ensures vs[i] in g.nodes && vs[i] != start && NoneMatch(g.out[vs[i]], "executed_by") {
      var k := RunsOf(runs, agent)[i];
      assert IsNode(g.nodes, l.tasks[k], TASK, runs[k].task) && IsNode(g.nodes, start, AGENT, agent);
      assert g.out[l.tasks[k]] == EdgesTo([l.outcomes[k]], "produced");
    }
    RelatedOneStep(g, start, "executed_by", vs);
  }

  lemma {:induction false} TaskOutcomes(g: Graph, runs: seq<TaskRun>, l: Layout, k: nat)
    requires Represents(g, runs, l) && k < |runs|
    ensures l.outcomes[k] in g.nodes
    ensures RelatedNodes(g, l.tasks[k], "produced", 2) == [NodeView(l.outcomes[k], g.nodes[l.outcomes[k]])]
  {
    assert IsNode(g.nodes, l.tasks[k], TASK, runs[k].task) && IsOutcome(g.nodes, l.outcomes[k], runs[k].outcome);
    RelatedOneStep(g, l.tasks[k], "produced", [l.outcomes[k]]);
  }

  lemma {:induction false} OfKindHolds(nodes: Nodes, ids: seq<NodeId>, kind: NodeType, j: nat)
    requires (forall i :: 0 <= i < |ids| ==> ids[i] in nodes) && j < |OfKind(nodes, ids, kind)|
    ensures var v := OfKind(nodes, ids, kind)[j];
            v.id in nodes && v.data == nodes[v.id] && v.data.NodeData? && v.data.kind == kind
  {
    var n := |ids| - 1;
    if j < |OfKind(nodes, ids[..n], kind)| {
      OfKindHolds(nodes, ids[..n], kind, j);
    }
  }

  lemma {:induction false} OfKindHas(nodes: Nodes, ids: seq<NodeId>, kind: NodeType, id: NodeId)
    requires forall i :: 0 <= i < |ids| ==> ids[i] in nodes
    requires id in ids && nodes[id].NodeData? && nodes[id].kind == kind
    ensures NodeView(id, nodes[id]) in OfKind(nodes, ids, kind)
  {
    var n := |ids| - 1;
    if ids[n] != id {
      assert ids == ids[..n] + [ids[n]];
      OfKindHas(nodes, ids[..n], kind, id);
    }
  }

  /** The first view of the given name; a node without one has no name either. */
  function FirstNamed(vs: seq<NodeView>, name: string): Option<NodeId> {
    if vs == [] then None
    else if vs[0].data.NodeData? && vs[0].data.name == name then Some(vs[0].id) else FirstNamed(vs[1..], name)
  }

  lemma {:induction false} FirstNamedIs(vs: seq<NodeView>, name: string, id: NodeId)
    requires forall j :: 0 <= j < |vs| && vs[j].data.NodeData? && vs[j].data.name == name ==> vs[j].id == id
    ensures FirstNamed(vs, name) ==
            if exists j :: 0 <= j < |vs| && vs[j].data.NodeData? && vs[j].data.name == name then Some(id) else None
  {
    if vs != [] {
      assert vs == [vs[0]] + vs[1..];
      FirstNamedIs(vs[1..], name, id);
    }
  }

  ghost function AgentNode(g: Graph, agent: string): Option<NodeId>
    requires WellFormed(g)
  {
    FirstNamed(OfKind(g.nodes, g.order, AGENT), agent)
  }

  /** Among the agent nodes, the first of a given name is the node of that agent. */
  lemma {:induction false} AgentByName(g: Graph, l: Layout, agent: string)
    requires WellFormed(g) && AgentsKnown(g.nodes, l)
    requires agent in l.agents ==> IsNode(g.nodes, l.agents[agent], AGENT, agent)
    ensures AgentNode(g, agent) == if agent in l.agents then Some(l.agents[agent]) else None
  {
    var vs := OfKind(g.nodes, g.order, AGENT);
    forall j | 0 <= j < |vs| && vs[j].data.NodeData? && vs[j].data.name == agent
      ensures agent in l.agents && vs[j].id == l.agents[agent]
    {
      OfKindHolds(g.nodes, g.order, AGENT, j);
    }
    if agent in l.agents {
      OfKindHas(g.nodes, g.order, AGENT, l.agents[agent]);
      FirstNamedIs(vs, agent, l.agents[agent]);
    } else {
      FirstNamedIs(vs, agent, "");
    }
  }

  /** The agent's node, and the store once it is there. */
  ghost function AgentOf(g: Graph, agent: string): NodeId
    requires WellFormed(g)
  {
    var known := AgentNode(g, agent);
    if known.None? then IdFor(g.counter + 1) else known.value
  }

  ghost function WithAgent(g: Graph, agent: string): Graph
    requires WellFormed(g)
  {
    if AgentNode(g, agent).None? then Add(g, NodeData(AGENT, agent, map[])) else g
  }

  function WithResult(g: Graph, run: TaskRun, agent: NodeId, task: NodeId): Graph {
    Linked(Add(g, OutcomeData(run)), agent, task, IdFor(g.counter + 1))
  }

  ghost function AfterTask(g: Graph, run: TaskRun, task: NodeId): Graph
    requires WellFormed(g)
  {
    WithResult(WithAgent(g, run.agent), run, AgentOf(g, run.agent), task)
  }

  function TaskData(run: TaskRun, metadata: Attrs): NodeData {
    NodeData(TASK, run.task, map["status" := "completed"] + metadata)
  }

  function OutcomeData(run: TaskRun): NodeData {
    NodeData(OUTCOME, "outcome:" + run.task, map["result" := OutcomeText(run.outcome)])
  }

  /** The layout once the agent has a node in a graph whose counter stands at `counter`. */
  function LaidAgent(l: Layout, agent: string, counter: nat): Layout {
    if agent in l.agents then l else l.(agents := l.agents[agent := IdFor(counter + 1)])
  }

  lemma {:induction false} AgentFound(g: Graph, l: Layout, agent: string)
    requires WellFormed(g) && AgentsKnown(g.nodes, l)
    requires agent in l.agents ==> IsNode(g.nodes, l.agents[agent], AGENT, agent)
    ensures WithAgent(g, agent) == if agent in l.agents then g else Add(g, NodeData(AGENT, agent, map[]))
    ensures AgentOf(g, agent) == LaidAgent(l, agent, g.counter).agents[agent]
  {
    AgentByName(g, l, agent);
  }

  lemma {:induction false} EnsureAgent(g: Graph, runs: seq<TaskRun>, l: Layout, agent: string)
    requires Represents(g, runs, l)
    ensures Represents(WithAgent(g, agent), runs, LaidAgent(l, agent, g.counter))
    ensures AgentOf(g, agent) == LaidAgent(l, agent, g.counter).agents[agent]
  {
    AgentFound(g, l, agent);
    if agent !in l.agents {
      AddAgent(g, runs, l, agent);
    }
  }

  lemma {:induction false} ReadyToLink(g: Graph, l: Layout, run: TaskRun, task: NodeId)
    requires IdsCounted(g) && run.agent in l.agents && task !in l.tasks
    requires IsNode(g.nodes, task, TASK, run.task) && task in g.out && g.out[task] == []
    ensures Ready(Add(g, OutcomeData(run)), l, run, task, IdFor(g.counter + 1))
  {
    NextIdIsNew(g);
    AddLays(g, OutcomeData(run));
  }

  lemma {:induction false} FreshTask(g: Graph, runs: seq<TaskRun>, l: Layout, run: TaskRun, metadata: Attrs)
    requires IdsCounted(g) && TasksLaidOut(g.nodes, g.out, runs, l)
    ensures var id, h := IdFor(g.counter + 1), Add(g, TaskData(run, metadata));
            id !in l.tasks && IsNode(h.nodes, id, TASK, run.task) && id in h.out && h.out[id] == []
  {
    NextIdIsNew(g);
    AddLays(g, TaskData(run, metadata));
    forall i | 0 <= i < |runs| ensures l.tasks[i] != IdFor(g.counter + 1) {
      assert IsNode(g.nodes, l.tasks[i], TASK, runs[i].task);
    }
  }

  /** What linking needs of the task node. */
  ghost predicate TaskStands(g: Graph, l: Layout, run: TaskRun, task: NodeId) {
    task !in l.tasks && IsNode(g.nodes, task, TASK, run.task) && task in g.out && g.out[task] == []
  }

  lemma {:induction false} AgentAsideOfTask(g: Graph, l: Layout, run: TaskRun, task: NodeId)
    requires WellFormed(g) && IdsCounted(g) && AgentsKnown(g.nodes, l) && TaskStands(g, l, run, task)
    requires run.agent in l.agents ==> IsNode(g.nodes, l.agents[run.agent], AGENT, run.agent)
    ensures TaskStands(WithAgent(g, run.agent), LaidAgent(l, run.agent, g.counter), run, task)
  {
    NextIdIsNew(g);
    AgentByName(g, l, run.agent);
    AddLays(g, NodeData(AGENT, run.agent, map[]));
  }

  lemma {:induction false} ResultAndLinks(g: Graph, runs: seq<TaskRun>, l: Layout, run: TaskRun, task: NodeId)
    requires Represents(g, runs, l) && run.agent in l.agents && TaskStands(g, l, run, task)
    ensures Represents(WithResult(g, run, l.agents[run.agent], task), runs + [run], NextLayout(l, task, IdFor(g.counter + 1)))
  {
    AddPlain(g, runs, l, OutcomeData(run));
    ReadyToLink(g, l, run, task);
    LinkRecords(Add(g, OutcomeData(run)), runs, l, run, task, IdFor(g.counter + 1));
  }

  /** Recording a run adds it at the end of the runs the store represents. */
  lemma {:induction false} AgentAndResult(
    g: Graph, runs: seq<TaskRun>, l: Layout, run: TaskRun, task: NodeId, after: Graph) returns (m: Layout)
    requires Represents(g, runs, l) && TaskStands(g, l, run, task) && after == AfterTask(g, run, task)
    ensures Represents(after, runs + [run], m)
  {
    EnsureAgent(g, runs, l, run.agent);
    AgentAsideOfTask(g, l, run, task);
    var h, k := WithAgent(g, run.agent), LaidAgent(l, run.agent, g.counter);
    ResultAndLinks(h, runs, k, run, task);
    m := NextLayout(k, task, IdFor(h.counter + 1));
  }

  lemma {:induction false} TaskAdded(g: Graph, runs: seq<TaskRun>, l: Layout, run: TaskRun, metadata: Attrs, after: Graph)
    requires Represents(g, runs, l) && after == Add(g, TaskData(run, metadata))
    ensures Represents(after, runs, l) && TaskStands(after, l, run, IdFor(g.counter + 1))
  {
    AddPlain(g, runs, l, TaskData(run, metadata));
    FreshTask(g, runs, l, run, metadata);
  }

  lemma {:induction false} AddKeepsNodes(g: Graph, data: NodeData, n: NodeId)
    requires IdsCounted(g) && n in g.nodes
    ensures n in Add(g, data).nodes && Add(g, data).nodes[n] == g.nodes[n]
  {
    NextIdIsNew(g);
  }

  lemma {:induction false} LinksKeepNodes(g: Graph, agent: NodeId, task: NodeId, result: NodeId, n: NodeId)
    requires n in g.nodes
    ensures n in Linked(g, agent, task, result).nodes && Linked(g, agent, task, result).nodes[n] == g.nodes[n]
  {
  }

  /** Recording the rest of a run changes no node that is there. */
  lemma {:induction false} NodesStay(g: Graph, run: TaskRun, task: NodeId, n: NodeId)
    requires WellFormed(g) && IdsCounted(g) && n in g.nodes
    ensures n in AfterTask(g, run, task).nodes && AfterTask(g, run, task).nodes[n] == g.nodes[n]
  {
    var data, h := NodeData(AGENT, run.agent, map[]), WithAgent(g, run.agent);
    AddKeepsNodes(g, data, n);
    AddKeepsIds(g, data);
    AddKeepsNodes(h, OutcomeData(run), n);
    LinksKeepNodes(Add(h, OutcomeData(run)), AgentOf(g, run.agent), task, IdFor(h.counter + 1), n);
  }

  lemma {:induction false} ResultIs(g: Graph, added: Graph, run: TaskRun, agent: NodeId, task: NodeId, result: NodeId)
    requires added == Add(g, OutcomeData(run)) && result == IdFor(g.counter + 1)
    ensures Linked(added, agent, task, result) == WithResult(g, run, agent, task)
  {
  }

  // ----- the history as the two nested queries give it -----

  function Items(task: string, outcomes: seq<NodeView>): seq<HistoryItem> {
    if outcomes == [] then []
    else
      var n := |outcomes| - 1;
      Items(task, outcomes[..n]) + [HistoryItem(task, ResultOf(outcomes[n].data))]
  }

  function ResultOf(data: NodeData): string {
    if data.NodeData? && "result" in data.attrs then data.attrs["result"] else "unknown"
  }

  ghost predicate YieldsItem(g: Graph, task: NodeView, item: HistoryItem)
    requires WellFormed(g)
  {
    task.data.NodeData? && Items(task.data.name, RelatedNodes(g, task.id, "produced", 2)) == [item]
  }

  /** Each task's query yields the corresponding item. */
  ghost predicate Yields(g: Graph, tasks: seq<NodeView>, items: seq<HistoryItem>)
    requires WellFormed(g)
  {
    && |tasks| == |items|
    && forall i {:trigger YieldsItem(g, tasks[i], items[i])} :: 0 <= i < |tasks| ==> YieldsItem(g, tasks[i], items[i])
  }

  lemma {:induction false} TaskYields(g: Graph, runs: seq<TaskRun>, l: Layout, k: nat)
    requires Represents(g, runs, l) && k < |runs|
    ensures IsNode(g.nodes, l.tasks[k], TASK, runs[k].task)
    ensures Items(runs[k].task, RelatedNodes(g, l.tasks[k], "produced", 2)) ==
            [HistoryItem(runs[k].task, OutcomeText(runs[k].outcome))]
  {
    TaskOutcomes(g, runs, l, k);
    assert IsOutcome(g.nodes, l.outcomes[k], runs[k].outcome);
    OneItem(runs[k].task, NodeView(l.outcomes[k], g.nodes[l.outcomes[k]]));
  }

  lemma {:induction false} TasksYield(g: Graph, runs: seq<TaskRun>, l: Layout, agent: string)
    requires Represents(g, runs, l) && agent in l.agents
    ensures Yields(g, RelatedNodes(g, l.agents[agent], "executed_by", 2), History(runs, agent))
  {
    AgentTasks(g, runs, l, agent);
    HistoryIsRunsOf(runs, agent);
    var tasks := RelatedNodes(g, l.agents[agent], "executed_by", 2);
    forall i | 0 <= i < |tasks| ensures YieldsItem(g, tasks[i], History(runs, agent)[i]) {
      TaskYields(g, runs, l, RunsOf(runs, agent)[i]);
    }
  }

  lemma {:induction false} OneItem(task: string, v: NodeView)
    ensures Items(task, [v]) == [HistoryItem(task, ResultOf(v.data))]
  {
    assert [v][..0] == [];
    assert Items(task, []) == [];
  }
}

module AgentMemory {
  import opened Options
  import opened GraphModel
  import opened GraphMemory
  import opened AgentHistory

  class MemoryGraph {
    const store: GraphStore
    /** Every run recorded so far, and where it is in the store. */
    ghost var runs: seq<TaskRun>
    ghost var layout: Layout

    ghost predicate Valid()
      reads this, store
    {
      Represents(store.Value(), runs, layout)
    }

    /** Over a store that holds the given runs: a new one holds none, a loaded one those that were saved. */
    constructor (s: GraphStore, ghost recorded: seq<TaskRun>, ghost laid: Layout)
      requires Represents(s.Value(), recorded, laid)
      ensures Valid() && store == s && runs == recorded
    {
      store, runs, layout := s, recorded, laid;
    }

    method FindAgent(agent: string) returns (id: Option<NodeId>)
      requires store.Valid()
      ensures id == AgentNode(store.Value(), agent)
    {
      var found := store.QueryByType(AGENT);
      for i := 0 to |found|
        invariant FirstNamed(found, agent) == FirstNamed(found[i..], agent)
      {
        if found[i].data.NodeData? && found[i].data.name == agent {
          return Some(found[i].id);
        }
      }
      id := None;
    }

    method RecordTask(task: string, agent: string, outcome: TaskOutcome, metadata: Attrs) returns (taskId: NodeId)
      requires Valid()
      modifies this, store
      ensures Valid() && runs == old(runs) + [TaskRun(task, agent, outcome)]
      ensures taskId == IdFor(old(store.counter) + 1) && taskId in store.nodes
      ensures store.nodes[taskId] == NodeData(TASK, task, map["status" := "completed"] + metadata)
    {
      ghost var run := TaskRun(task, agent, outcome);
      taskId := AddTask(run, task, metadata);
      layout := LinkAgentAndOutcome(run, task, agent, outcome, taskId);
      runs := runs + [run];
    }

    method AddTask(ghost run: TaskRun, task: string, metadata: Attrs) returns (id: NodeId)
      requires Valid() && run.task == task
      modifies store
      ensures Valid() && TaskStands(store.Value(), layout, run, id)
      ensures id == IdFor(old(store.counter) + 1) && id in store.nodes
      ensures store.nodes[id] == NodeData(TASK, task, map["status" := "completed"] + metadata)
    {
      ghost var before := store.Value();
      id := store.AddNode(TASK, task, map["status" := "completed"] + metadata);
      TaskAdded(before, runs, layout, run, metadata, store.Value());
    }

    method AgentNodeFor(agent: string) returns (id: NodeId)
      requires store.Valid()
      modifies store
      ensures store.Valid() && store.Value() == WithAgent(old(store.Value()), agent)
      ensures id == AgentOf(old(store.Value()), agent)
    {
      var known := FindAgent(agent);
      if known.None? {
        id := store.AddNode(AGENT, agent, map[]);
      } else {
        id := known.value;
      }
    }

    /** The rest of recording: the agent's node, the outcome node and the two edges. */
    method LinkAgentAndOutcome(ghost run: TaskRun, task: string, agent: string, outcome: TaskOutcome, taskId: NodeId)
      returns (ghost after: Layout)
      requires Valid() && TaskStands(store.Value(), layout, run, taskId) && run == TaskRun(task, agent, outcome)
      modifies store
      ensures Represents(store.Value(), runs + [run], after)
      ensures old(taskId in store.nodes) ==> taskId in store.nodes && store.nodes[taskId] == old(store.nodes[taskId])
    {
      ghost var g := store.Value();
      if taskId in g.nodes {
        NodesStay(g, run, taskId, taskId);
      }
      AddAgentAndOutcome(task, agent, outcome, taskId);
      after := AgentAndResult(g, runs, layout, run, taskId, store.Value());
    }

    method AddAgentAndOutcome(task: string, agent: string, outcome: TaskOutcome, taskId: NodeId)
      requires store.Valid()
      modifies store
      ensures store.Valid() && store.Value() == AfterTask(old(store.Value()), TaskRun(task, agent, outcome), taskId)
    {
      var agentId := AgentNodeFor(agent);
      LinkOutcome(task, agent, outcome, agentId, taskId);
    }

    method LinkOutcome(task: string, ghost agent: string, outcome: TaskOutcome, agentId: NodeId, taskId: NodeId)
      requires store.Valid()
      modifies store
      ensures store.Valid() && store.Value() == WithResult(old(store.Value()), TaskRun(task, agent, outcome), agentId, taskId)
    {
      ghost var before := store.Value();
      var outcomeId := AddOutcome(task, agent, outcome);
      ghost var added := store.Value();
      LinkRun(agentId, taskId, outcomeId);
      ResultIs(before, added, TaskRun(task, agent, outcome), agentId, taskId, outcomeId);
    }

    method AddOutcome(task: string, ghost agent: string, outcome: TaskOutcome) returns (id: NodeId)
      requires store.Valid()
      modifies store
      ensures store.Valid() && store.Value() == Add(old(store.Value()), OutcomeData(TaskRun(task, agent, outcome)))
      ensures id == IdFor(old(store.counter) + 1)
    {
      id := store.AddNode(OUTCOME, "outcome:" + task, map["result" := OutcomeText(outcome)]);
    }

    method LinkRun(agentId: NodeId, taskId: NodeId, outcomeId: NodeId)
      requires store.Valid()
      modifies store
      ensures store.Valid() && store.Value() == Linked(old(store.Value()), agentId, taskId, outcomeId)
    {
      store.AddEdge(agentId, taskId, "executed_by", map[]);
      store.AddEdge(taskId, outcomeId, "produced", map[]);
    }

    /** All task outcomes of the agent, oldest first. */
    method GetAgentHistory(agent: string) returns (results: seq<HistoryItem>)
      requires Valid()
      ensures results == History(runs, agent)
    {
      var id := FindAgent(agent);
      AgentByName(store.Value(), layout, agent);
      if id.None? {
        NoRuns(runs, agent);
        HistoryIsRunsOf(runs, agent);
        return [];
      }
      var tasks := store.QueryRelated(id.value, "executed_by", 2);
      TasksYield(store.Value(), runs, layout, agent);
      results := CollectOutcomes(tasks, History(runs, agent));
    }

    method CollectOutcomes(tasks: seq<NodeView>, ghost items: seq<HistoryItem>) returns (results: seq<HistoryItem>)
      requires store.Valid() && Yields(store.Value(), tasks, items)
      ensures results == items
    {
      results := [];
      for i := 0 to |tasks|
        invariant results == items[..i]
      {
        var more := OutcomesOf(tasks, items, i);
        results := results + more;
      }
    }

    method OutcomesOf(tasks: seq<NodeView>, ghost items: seq<HistoryItem>, i: nat) returns (found: seq<HistoryItem>)
      requires store.Valid() && Yields(store.Value(), tasks, items) && i < |tasks|
      ensures found == [items[i]]
    {
      assert YieldsItem(store.Value(), tasks[i], items[i]);
      var outcomes := store.QueryRelated(tasks[i].id, "produced", 2);
      found := ItemsOf(tasks[i].data.name, outcomes);
    }

    method ItemsOf(task: string, outcomes: seq<NodeView>) returns (items: seq<HistoryItem>)
      ensures items == Items(task, outcomes)
    {
      items := [];
      for j := 0 to |outcomes|
        invariant items == Items(task, outcomes[..j])
      {
        assert outcomes[..j + 1][..j] == outcomes[..j];
        items := items + [HistoryItem(task, ResultOf(outcomes[j].data))];
      }
      assert outcomes[..|outcomes|] == outcomes;
    }
  }

  /** Saving a memory and loading it into a new store keeps every agent's history, and the ids made next. */
  lemma {:induction false} HistorySurvivesReload(g: Graph, runs: seq<TaskRun>, l: Layout)
    requires Represents(g, runs, l)
    ensures Represents(LoadedInto(Empty, SavedForm(g)), runs, l)
    ensures LoadedInto(Empty, SavedForm(g)).counter == g.counter
  {
    SaveLoadRoundTrip(g);
  }

  lemma {:induction false} EmptyHoldsNoRuns()
    ensures Represents(Empty, [], Layout([], [], map[]))
  {
  }
}
