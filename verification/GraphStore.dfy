/** The graph memory store: an ordered digraph, its breadth-first query and its saved form. */
module GraphModel {

  type NodeId = string

  datatype NodeType = AGENT | TASK | OUTCOME | CONCEPT | FILE

  type Attrs = map<string, string>

  /** `Bare` is what `add_edge` creates for an endpoint that was never added. */
  datatype NodeData = NodeData(kind: NodeType, name: string, attrs: Attrs) | Bare

  datatype Edge = Edge(target: NodeId, relation: string, attrs: Attrs)

  /** Nodes in insertion order, and per node its out-edges in insertion order. */
  datatype Graph = Graph(order: seq<NodeId>, nodes: map<NodeId, NodeData>, out: map<NodeId, seq<Edge>>, counter: nat)

  const Empty := Graph([], map[], map[], 0)

  ghost predicate Distinct(ids: seq<NodeId>) {
    forall i, j :: 0 <= i < j < |ids| ==> ids[i] != ids[j]
  }

  /** The edges from `n` lead to nodes, each to another. */
  ghost predicate EdgesFine(g: Graph, n: NodeId) {
    n in g.out ==>
      (forall k :: 0 <= k < |g.out[n]| ==> g.out[n][k].target in g.nodes) &&
      (forall j, k :: 0 <= j < k < |g.out[n]| ==> g.out[n][j].target != g.out[n][k].target)
  }

  ghost predicate WellFormed(g: Graph) {
    && Distinct(g.order)
    && (forall n :: n in g.order <==> n in g.nodes)
    && g.out.Keys == g.nodes.Keys
    && (forall n {:trigger EdgesFine(g, n)} :: EdgesFine(g, n))
  }

  /** `edge_label` of None or "" filters nothing. */
  predicate Matches(e: Edge, relation: string) {
    relation == "" || e.relation == relation
  }

  ghost predicate Leads(g: Graph, relation: string, u: NodeId, v: NodeId) {
    u in g.out && exists k :: 0 <= k < |g.out[u]| && g.out[u][k].target == v && Matches(g.out[u][k], relation)
  }

  ghost predicate IsPath(g: Graph, relation: string, p: seq<NodeId>, u: NodeId, v: NodeId) {
    && p != [] && p[0] == u && p[|p| - 1] == v
    && forall i :: 0 <= i < |p| - 1 ==> Leads(g, relation, p[i], p[i + 1])
  }

  /** The shortest path along matching edges from `u` to `v` has `d` edges. */
  ghost predicate Distance(g: Graph, relation: string, u: NodeId, v: NodeId, d: nat) {
    && (exists p :: IsPath(g, relation, p, u, v) && |p| == d + 1)
    && forall p :: IsPath(g, relation, p, u, v) ==> |p| >= d + 1
  }

  lemma {:induction false} LeadsToNode(g: Graph, relation: string, u: NodeId, v: NodeId)
    requires WellFormed(g) && Leads(g, relation, u, v)
    ensures v in g.nodes
  {
    assert EdgesFine(g, u);
  }

  /** Which edges count: those with the label asked for, or any when none is asked for. */
  lemma {:induction false} LeadsMeans(g: Graph, relation: string, u: NodeId, v: NodeId)
    ensures relation == "" ==> (Leads(g, relation, u, v) <==>
              u in g.out && exists k :: 0 <= k < |g.out[u]| && g.out[u][k].target == v)
    ensures relation != "" ==> (Leads(g, relation, u, v) <==>
              u in g.out && exists k :: 0 <= k < |g.out[u]| && g.out[u][k].target == v && g.out[u][k].relation == relation)
  {
    if u in g.out && exists k :: 0 <= k < |g.out[u]| && g.out[u][k].target == v && (relation == "" || g.out[u][k].relation == relation) {
      var k :| 0 <= k < |g.out[u]| && g.out[u][k].target == v && (relation == "" || g.out[u][k].relation == relation);
      assert Matches(g.out[u][k], relation);
    }
  }

  // ----- reachability in at most n steps -----

  ghost function Within(g: Graph, relation: string, u: NodeId, n: nat): set<NodeId> {
    if n == 0 then {u}
    else
      var near := Within(g, relation, u, n - 1);
      near + set v | v in g.nodes && exists w :: w in near && Leads(g, relation, w, v)
  }

  lemma {:induction false} WithinGrows(g: Graph, relation: string, u: NodeId, m: nat, n: nat)
    requires m <= n
    ensures Within(g, relation, u, m) <= Within(g, relation, u, n)
    decreases n
  {
    if m < n {
      WithinGrows(g, relation, u, m, n - 1);
    }
  }

  lemma {:induction false} PathIsWithin(g: Graph, relation: string, p: seq<NodeId>, u: NodeId, v: NodeId)
    requires WellFormed(g) && IsPath(g, relation, p, u, v)
    ensures v in Within(g, relation, u, |p| - 1)
    decreases |p|
  {
    if |p| > 1 {
      var n := |p| - 1;
      assert Leads(g, relation, p[n - 1], p[n]);
      LeadsToNode(g, relation, p[n - 1], p[n]);
      PathIsWithin(g, relation, p[..n], u, p[n - 1]);
    }
  }

  lemma {:induction false} WithinHasPath(g: Graph, relation: string, u: NodeId, v: NodeId, n: nat) returns (p: seq<NodeId>)
    requires v in Within(g, relation, u, n)
    ensures IsPath(g, relation, p, u, v) && |p| <= n + 1
    decreases n
  {
    if n == 0 {
      p := [u];
    } else if v in Within(g, relation, u, n - 1) {
      p := WithinHasPath(g, relation, u, v, n - 1);
    } else {
      var w :| w in Within(g, relation, u, n - 1) && Leads(g, relation, w, v);
      var q := WithinHasPath(g, relation, u, w, n - 1);
      p := q + [v];
    }
  }

  /** First reached at level `d`: a member of `Within(d)` and of no smaller one. */
  ghost predicate AtLevel(g: Graph, relation: string, u: NodeId, v: NodeId, d: nat) {
    v in Within(g, relation, u, d) && (d > 0 ==> v !in Within(g, relation, u, d - 1))
  }

  lemma {:induction false} LevelGivesDistance(g: Graph, relation: string, u: NodeId, v: NodeId, d: nat)
    requires WellFormed(g) && AtLevel(g, relation, u, v, d)
    ensures Distance(g, relation, u, v, d)
  {
    forall q | IsPath(g, relation, q, u, v) ensures |q| >= d + 1 {
      PathIsWithin(g, relation, q, u, v);
      if |q| - 1 < d {
        WithinGrows(g, relation, u, |q| - 1, d - 1);
      }
    }
    var p := WithinHasPath(g, relation, u, v, d);
  }

  lemma {:induction false} DistanceGivesLevel(g: Graph, relation: string, u: NodeId, v: NodeId, d: nat)
    requires WellFormed(g) && Distance(g, relation, u, v, d)
    ensures AtLevel(g, relation, u, v, d)
  {
    var p :| IsPath(g, relation, p, u, v) && |p| == d + 1;
    PathIsWithin(g, relation, p, u, v);
    if d > 0 && v in Within(g, relation, u, d - 1) {
      var q := WithinHasPath(g, relation, u, v, d - 1);
    }
  }

  // ----- what a breadth-first search has found -----

  datatype Entry = Entry(node: NodeId, depth: nat)

  ghost predicate Found(found: seq<Entry>, v: NodeId) {
    exists i :: 0 <= i < |found| && found[i].node == v
  }

  ghost predicate Queued(found: seq<Entry>, u: NodeId, maxDepth: nat) {
    && found != [] && found[0] == Entry(u, 0)
    && (forall i, j :: 0 <= i < j < |found| ==> found[i].node != found[j].node)
    && (forall i, j :: 0 <= i < j < |found| ==> found[i].depth <= found[j].depth)
    && (forall i :: 0 <= i < |found| ==> found[i].depth <= maxDepth)
  }

  ghost predicate Levelled(g: Graph, relation: string, u: NodeId, found: seq<Entry>) {
    forall i :: 0 <= i < |found| ==> AtLevel(g, relation, u, found[i].node, found[i].depth)
  }

  /** The successors of the first `head` entries have been found, except below the depth limit. */
  ghost predicate Expanded(g: Graph, relation: string, found: seq<Entry>, head: nat, maxDepth: nat) {
    forall i, v :: 0 <= i < head <= |found| && found[i].depth < maxDepth && Leads(g, relation, found[i].node, v) ==>
      Found(found, v)
  }

  ghost predicate Searched(g: Graph, relation: string, u: NodeId, found: seq<Entry>, head: nat, maxDepth: nat) {
    && head <= |found| && Queued(found, u, maxDepth) && Levelled(g, relation, u, found)
    && Expanded(g, relation, found, head, maxDepth)
    && (head < |found| ==> forall i :: 0 <= i < |found| ==> found[i].depth <= found[head].depth + 1)
  }

  lemma {:induction false} LastHop(g: Graph, relation: string, u: NodeId, v: NodeId, k: nat) returns (w: NodeId)
    requires k > 0 && v in Within(g, relation, u, k) && v !in Within(g, relation, u, k - 1)
    ensures w in Within(g, relation, u, k - 1) && Leads(g, relation, w, v)
  {
    w :| w in Within(g, relation, u, k - 1) && Leads(g, relation, w, v);
  }

  /** A successor of an entry of depth below `k` has been found once all such entries are expanded. */
  lemma {:induction false} FoundNext(
    g: Graph, relation: string, u: NodeId, found: seq<Entry>, head: nat, maxDepth: nat, k: nat, w: NodeId, v: NodeId)
    requires Searched(g, relation, u, found, head, maxDepth) && 0 < k <= maxDepth
    requires head < |found| ==> k <= found[head].depth
    requires Found(found, w) && w in Within(g, relation, u, k - 1) && Leads(g, relation, w, v)
    ensures Found(found, v)
  {
    var i :| 0 <= i < |found| && found[i].node == w;
    LevelBound(g, relation, u, w, found[i].depth, k - 1);
  }

  /** Everything within `k` steps has been found once all entries of depth below `k` are expanded. */
  lemma {:induction false} FoundWithin(
    g: Graph, relation: string, u: NodeId, found: seq<Entry>, head: nat, maxDepth: nat, k: nat, v: NodeId)
    requires Searched(g, relation, u, found, head, maxDepth) && k <= maxDepth
    requires head < |found| ==> k <= found[head].depth
    requires v in Within(g, relation, u, k)
    ensures Found(found, v)
    decreases k
  {
    if k == 0 {
      assert found[0].node == u;
    } else if v in Within(g, relation, u, k - 1) {
      FoundWithin(g, relation, u, found, head, maxDepth, k - 1, v);
    } else {
      var w := LastHop(g, relation, u, v, k);
      FoundWithin(g, relation, u, found, head, maxDepth, k - 1, w);
      FoundNext(g, relation, u, found, head, maxDepth, k, w, v);
    }
  }

  lemma {:induction false} LevelBound(g: Graph, relation: string, u: NodeId, w: NodeId, d: nat, k: nat)
    requires AtLevel(g, relation, u, w, d) && w in Within(g, relation, u, k)
    ensures d <= k
  {
    if d > k {
      WithinGrows(g, relation, u, k, d - 1);
    }
  }

  /** Depths at a full search are distances, and nothing within the limit is missing. */
  lemma {:induction false} SearchComplete(g: Graph, relation: string, u: NodeId, found: seq<Entry>, maxDepth: nat, v: NodeId, d: nat)
    requires WellFormed(g) && Searched(g, relation, u, found, |found|, maxDepth)
    requires d <= maxDepth && Distance(g, relation, u, v, d)
    ensures exists i :: 0 <= i < |found| && found[i] == Entry(v, d)
  {
    DistanceGivesLevel(g, relation, u, v, d);
    WithinGrows(g, relation, u, d, maxDepth);
    FoundWithin(g, relation, u, found, |found|, maxDepth, maxDepth, v);
    var i :| 0 <= i < |found| && found[i].node == v;
    LevelBound(g, relation, u, v, found[i].depth, d);
    LevelBound(g, relation, u, v, d, found[i].depth);
    assert found[i] == Entry(v, d);
  }

  /** The targets that scanning `edges` adds, in order, to the nodes already seen. */
  function NewTargets(edges: seq<Edge>, relation: string, seen: set<NodeId>): seq<NodeId> {
    if edges == [] then []
    else
      var n := |edges| - 1;
      var before := NewTargets(edges[..n], relation, seen);
      if Matches(edges[n], relation) && edges[n].target !in seen && edges[n].target !in before
      then before + [edges[n].target] else before
  }

  lemma {:induction false} NewTargetsAreNew(edges: seq<Edge>, relation: string, seen: set<NodeId>)
    ensures Distinct(NewTargets(edges, relation, seen))
    ensures forall v :: v in NewTargets(edges, relation, seen) <==>
              v !in seen && exists k :: 0 <= k < |edges| && edges[k].target == v && Matches(edges[k], relation)
  {
    if edges != [] {
      var n := |edges| - 1;
      NewTargetsAreNew(edges[..n], relation, seen);
      assert edges == edges[..n] + [edges[n]];
    }
  }

  function AtDepth(vs: seq<NodeId>, d: nat): (es: seq<Entry>)
    ensures |es| == |vs| && forall i :: 0 <= i < |vs| ==> es[i] == Entry(vs[i], d)
  {
    seq(|vs|, i requires 0 <= i < |vs| => Entry(vs[i], d))
  }

  function Seen(found: seq<Entry>): set<NodeId> {
    set i | 0 <= i < |found| :: found[i].node
  }

  lemma {:induction false} SeenIsFound(found: seq<Entry>, v: NodeId)
    ensures v in Seen(found) <==> Found(found, v)
  {
  }

  function Expand(g: Graph, relation: string, found: seq<Entry>, head: nat, maxDepth: nat): seq<Entry>
    requires head < |found| && found[head].node in g.out
  {
    if found[head].depth >= maxDepth then found
    else found + AtDepth(NewTargets(g.out[found[head].node], relation, Seen(found)), found[head].depth + 1)
  }

  lemma {:induction false} NewTargetsAreSuccessors(g: Graph, relation: string, w: NodeId, seen: set<NodeId>, v: NodeId)
    requires w in g.out
    ensures v in NewTargets(g.out[w], relation, seen) <==> v !in seen && Leads(g, relation, w, v)
  {
    NewTargetsAreNew(g.out[w], relation, seen);
  }

  lemma {:induction false} ExpandKeepsQueue(g: Graph, relation: string, u: NodeId, found: seq<Entry>, head: nat, maxDepth: nat)
    requires Searched(g, relation, u, found, head, maxDepth) && head < |found| && found[head].node in g.out
    ensures Queued(Expand(g, relation, found, head, maxDepth), u, maxDepth)
  {
    var more := NewTargets(g.out[found[head].node], relation, Seen(found));
    NewTargetsAreNew(g.out[found[head].node], relation, Seen(found));
    var found' := Expand(g, relation, found, head, maxDepth);
    forall i, j | 0 <= i < j < |found'| ensures found'[i].node != found'[j].node {
      if i < |found| <= j {
        SeenIsFound(found, found[i].node);
        assert more[j - |found|] in more;
      } else if |found| <= i {
        assert more[i - |found|] != more[j - |found|];
      }
    }
  }

  /** A node found now is one step further than the node being expanded. */
  lemma {:induction false} NewNodeLevel(g: Graph, relation: string, u: NodeId, found: seq<Entry>, head: nat, maxDepth: nat, v: NodeId)
    requires WellFormed(g) && Searched(g, relation, u, found, head, maxDepth) && head < |found|
    requires found[head].depth < maxDepth && Leads(g, relation, found[head].node, v) && !Found(found, v)
    ensures AtLevel(g, relation, u, v, found[head].depth + 1)
  {
    if v in Within(g, relation, u, found[head].depth) {
      FoundWithin(g, relation, u, found, head, maxDepth, found[head].depth, v);
    }
    LeadsToNode(g, relation, found[head].node, v);
    assert found[head].node in Within(g, relation, u, found[head].depth);
  }

  lemma {:induction false} NewTargetLevel(
    g: Graph, relation: string, u: NodeId, found: seq<Entry>, head: nat, maxDepth: nat, v: NodeId)
    requires WellFormed(g) && Searched(g, relation, u, found, head, maxDepth) && head < |found| && found[head].node in g.out
    requires found[head].depth < maxDepth && v in NewTargets(g.out[found[head].node], relation, Seen(found))
    ensures AtLevel(g, relation, u, v, found[head].depth + 1)
  {
    NewTargetsAreSuccessors(g, relation, found[head].node, Seen(found), v);
    SeenIsFound(found, v);
    NewNodeLevel(g, relation, u, found, head, maxDepth, v);
  }

  /** An entry found before, or a new target of the node being expanded. */
  lemma {:induction false} ExpandEntry(g: Graph, relation: string, found: seq<Entry>, head: nat, maxDepth: nat, i: nat)
    requires head < |found| && found[head].node in g.out && i < |Expand(g, relation, found, head, maxDepth)|
    ensures var e := Expand(g, relation, found, head, maxDepth)[i];
            if i < |found| then e == found[i]
            else
              e.depth == found[head].depth + 1 <= maxDepth &&
              e.node in NewTargets(g.out[found[head].node], relation, Seen(found))
  {
  }

  lemma {:induction false} ExpandKeepsLevels(g: Graph, relation: string, u: NodeId, found: seq<Entry>, head: nat, maxDepth: nat)
    requires WellFormed(g) && Searched(g, relation, u, found, head, maxDepth)
    requires head < |found| && found[head].node in g.out
    ensures Levelled(g, relation, u, Expand(g, relation, found, head, maxDepth))
  {
    var found' := Expand(g, relation, found, head, maxDepth);
    forall i | 0 <= i < |found'| ensures AtLevel(g, relation, u, found'[i].node, found'[i].depth) {
      ExpandEntry(g, relation, found, head, maxDepth, i);
      if i >= |found| {
        NewTargetLevel(g, relation, u, found, head, maxDepth, found'[i].node);
      }
    }
  }

  lemma {:induction false} FoundMore(found: seq<Entry>, more: seq<Entry>, v: NodeId)
    requires Found(found, v)
    ensures Found(found + more, v)
  {
    var i :| 0 <= i < |found| && found[i].node == v;
    assert (found + more)[i].node == v;
  }

  lemma {:induction false} ExpandedMore(g: Graph, relation: string, found: seq<Entry>, head: nat, maxDepth: nat)
    requires head < |found| && found[head].node in g.out && Expanded(g, relation, found, head, maxDepth)
    ensures Expanded(g, relation, Expand(g, relation, found, head, maxDepth), head + 1, maxDepth)
  {
    var w := found[head].node;
    var found' := Expand(g, relation, found, head, maxDepth);
    forall i, v | 0 <= i < head + 1 && found'[i].depth < maxDepth && Leads(g, relation, found'[i].node, v)
      ensures Found(found', v)
    {
      if i < head || v in Seen(found) {
        SeenIsFound(found, v);
        FoundMore(found, found'[|found|..], v);
        assert found + found'[|found|..] == found';
      } else {
        var more := NewTargets(g.out[w], relation, Seen(found));
        NewTargetsAreSuccessors(g, relation, w, Seen(found), v);
        var k :| 0 <= k < |more| && more[k] == v;
        assert found'[|found| + k].node == v;
      }
    }
  }

  /** One turn of the search loop keeps all of the above. */
  lemma {:induction false} SearchStep(g: Graph, relation: string, u: NodeId, found: seq<Entry>, head: nat, maxDepth: nat)
    requires WellFormed(g) && Searched(g, relation, u, found, head, maxDepth)
    requires head < |found| && found[head].node in g.out
    ensures Searched(g, relation, u, Expand(g, relation, found, head, maxDepth), head + 1, maxDepth)
  {
    ExpandKeepsQueue(g, relation, u, found, head, maxDepth);
    ExpandKeepsLevels(g, relation, u, found, head, maxDepth);
    ExpandedMore(g, relation, found, head, maxDepth);
  }
}

module GraphMemory {
  import opened GraphModel
  import opened Decimal

  datatype NodeView = NodeView(id: NodeId, data: NodeData)

  /** The list of nodes found, from the second entry on; the first is the start. */
  function Views(g: Graph, found: seq<Entry>): (vs: seq<NodeView>)
    requires found != [] && forall i :: 0 <= i < |found| ==> found[i].node in g.nodes
    ensures |vs| == |found| - 1
    ensures forall i :: 0 <= i < |vs| ==> vs[i] == NodeView(found[i + 1].node, g.nodes[found[i + 1].node])
  {
    seq(|found| - 1, i requires 0 <= i < |found| - 1 => NodeView(found[i + 1].node, g.nodes[found[i + 1].node]))
  }

  function IdFor(n: nat): NodeId {
    "node_" + Str(n)
  }

  function WithNode(g: Graph, id: NodeId, data: NodeData): Graph {
    if id in g.nodes then g.(nodes := g.nodes[id := if data.Bare? then g.nodes[id] else data])
    else g.(order := g.order + [id], nodes := g.nodes[id := data], out := g.out[id := []])
  }

  function WithEndpoint(g: Graph, id: NodeId): Graph {
    if id in g.nodes then g else WithNode(g, id, Bare)
  }

  /** The index of the edge to `target`, or the number of edges. */
  function Position(edges: seq<Edge>, target: NodeId): (k: nat)
    ensures k <= |edges|
  {
    if edges == [] then 0
    else if edges[0].target == target then 0 else 1 + Position(edges[1..], target)
  }

  lemma {:induction false} PositionIs(edges: seq<Edge>, target: NodeId, k: nat)
    requires k <= |edges| && (k < |edges| ==> edges[k].target == target)
    requires forall j :: 0 <= j < k ==> edges[j].target != target
    ensures Position(edges, target) == k
  {
    if k > 0 {
      forall j | 0 <= j < k - 1 ensures edges[1..][j].target != target {
        assert edges[1..][j] == edges[j + 1];
      }
      PositionIs(edges[1..], target, k - 1);
    }
  }

  /** An edge that exists is updated where it stands; a new one goes to the end. */
  function PutEdge(edges: seq<Edge>, e: Edge): seq<Edge> {
    var k := Position(edges, e.target);
    edges[..k] + [e] + (if k < |edges| then edges[k + 1..] else [])
  }

  function WithEdge(g: Graph, source: NodeId, e: Edge): Graph {
    var h := WithEndpoint(WithEndpoint(g, source), e.target);
    if source in h.out then h.(out := h.out[source := PutEdge(h.out[source], e)]) else h
  }

  /** An edge to the same node is replaced where it stands, a new one added last. */
  lemma {:induction false} PutEdgeInPlace(edges: seq<Edge>, e: Edge)
    requires forall j, k :: 0 <= j < k < |edges| ==> edges[j].target != edges[k].target
    ensures forall k :: 0 <= k < |edges| && edges[k].target == e.target ==> PutEdge(edges, e) == edges[k := e]
    ensures (forall k :: 0 <= k < |edges| ==> edges[k].target != e.target) ==> PutEdge(edges, e) == edges + [e]
  {
    PositionFound(edges, e.target);
    forall k | 0 <= k < |edges| && edges[k].target == e.target ensures PutEdge(edges, e) == edges[k := e] {
      PositionIs(edges, e.target, k);
    }
  }

  /**
   Adding an edge: one to the same node is replaced where it stands, a new one goes last; an end that is no node yet
   becomes a bare one after the others, the source first. Nothing else changes.
   */
  lemma {:induction false} EdgeIsAdded(g: Graph, source: NodeId, e: Edge, h: Graph)
    requires WellFormed(g) && h == WithEdge(g, source, e)
    ensures h.order == g.order + (if source in g.nodes then [] else [source]) +
                       (if e.target in g.nodes || e.target == source then [] else [e.target])
    ensures source in h.out && e.target in h.nodes && h.counter == g.counter
    ensures forall k :: source in g.out && 0 <= k < |g.out[source]| && g.out[source][k].target == e.target ==>
              h.out[source] == g.out[source][k := e]
    ensures source in g.out && (forall k :: 0 <= k < |g.out[source]| ==> g.out[source][k].target != e.target) ==>
              h.out[source] == g.out[source] + [e]
    ensures source !in g.out ==> h.out[source] == [e]
    ensures forall n :: n in g.nodes ==> n in h.nodes && h.nodes[n] == g.nodes[n]
    ensures forall n :: n in g.out && n != source ==> n in h.out && h.out[n] == g.out[n]
    ensures forall n :: n in h.nodes && n !in g.nodes ==> h.nodes[n] == Bare && (n == source || n == e.target)
  {
    if source in g.out {
      assert EdgesFine(g, source);
      PutEdgeInPlace(g.out[source], e);
    } else {
      PutEdgeInPlace([], e);
    }
  }

  lemma {:induction false} PutEdgeWellFormed(g: Graph, source: NodeId, e: Edge)
    requires WellFormed(g) && source in g.nodes && e.target in g.nodes
    ensures WellFormed(g.(out := g.out[source := PutEdge(g.out[source], e)]))
  {
    var h := g.(out := g.out[source := PutEdge(g.out[source], e)]);
    forall n ensures EdgesFine(h, n) {
      assert EdgesFine(g, n);
      if n == source {
        PutEdgeDistinct(g.out[source], e, g.nodes.Keys);
      }
    }
  }

  lemma {:induction false} NodeKeepsForm(g: Graph, id: NodeId, data: NodeData)
    requires WellFormed(g)
    ensures WellFormed(WithNode(g, id, data))
  {
    var h := WithNode(g, id, data);
    forall n ensures EdgesFine(h, n) {
      assert EdgesFine(g, n);
    }
  }

  lemma {:induction false} CounterKeepsForm(g: Graph, c: nat)
    requires WellFormed(g)
    ensures WellFormed(g.(counter := c))
  {
    forall n ensures EdgesFine(g.(counter := c), n) {
      assert EdgesFine(g, n);
    }
  }

  /** Putting an edge keeps the targets known and distinct. */
  lemma {:induction false} PutEdgeDistinct(edges: seq<Edge>, e: Edge, known: set<NodeId>)
    requires e.target in known && forall k :: 0 <= k < |edges| ==> edges[k].target in known
    requires forall j, k :: 0 <= j < k < |edges| ==> edges[j].target != edges[k].target
    ensures forall k :: 0 <= k < |PutEdge(edges, e)| ==> PutEdge(edges, e)[k].target in known
    ensures forall j, k :: 0 <= j < k < |PutEdge(edges, e)| ==> PutEdge(edges, e)[j].target != PutEdge(edges, e)[k].target
  {
    var p, put := Position(edges, e.target), PutEdge(edges, e);
    PositionFound(edges, e.target);
    assert |put| == if p < |edges| then |edges| else |edges| + 1;
    assert forall k :: 0 <= k < |put| ==> put[k] == if k == p then e else edges[k];
  }

  lemma {:induction false} PositionFound(edges: seq<Edge>, target: NodeId)
    ensures var k := Position(edges, target);
            (k < |edges| ==> edges[k].target == target) && forall j :: 0 <= j < k ==> edges[j].target != target
  {
    if edges != [] && edges[0].target != target {
      PositionFound(edges[1..], target);
      var k := Position(edges[1..], target);
      forall j | 0 <= j < k + 1 ensures edges[j].target != target {
        if j > 0 {
          assert edges[1..][j - 1] == edges[j];
        }
      }
    }
  }

  function Show(nodes: map<NodeId, NodeData>, ids: seq<NodeId>): (vs: seq<NodeView>)
    requires forall i :: 0 <= i < |ids| ==> ids[i] in nodes
    ensures |vs| == |ids| && forall i :: 0 <= i < |ids| ==> vs[i] == NodeView(ids[i], nodes[ids[i]])
  {
    seq(|ids|, i requires 0 <= i < |ids| => NodeView(ids[i], nodes[ids[i]]))
  }

  lemma {:induction false} ViewsGrow(g: Graph, found: seq<Entry>, added: seq<NodeId>, d: nat)
    requires AllNodes(g, found) && AllNodes(g, found + AtDepth(added, d))
    requires forall i :: 0 <= i < |added| ==> added[i] in g.nodes
    ensures Views(g, found + AtDepth(added, d)) == Views(g, found) + Show(g.nodes, added)
  {
  }

  lemma {:induction false} LessLeft(ids: set<NodeId>, visited: set<NodeId>, added: seq<NodeId>)
    requires forall i :: 0 <= i < |added| ==> added[i] in ids
    requires visited !! set v | v in added
    ensures added == [] ==> visited + (set v | v in added) == visited
    ensures added != [] ==> ids - (visited + set v | v in added) < ids - visited
  {
    if added != [] {
      assert added[0] in ids - visited;
    }
  }

  lemma {:induction false} SearchAnswers(g: Graph, relation: string, start: NodeId, found: seq<Entry>, maxDepth: nat)
    requires WellFormed(g) && AllNodes(g, found) && Searched(g, relation, start, found, |found|, maxDepth)
    ensures Answers(g, relation, start, maxDepth, found)
  {
    forall i | 0 <= i < |found| ensures Distance(g, relation, start, found[i].node, found[i].depth) {
      LevelGivesDistance(g, relation, start, found[i].node, found[i].depth);
    }
    forall v, d: nat | d <= maxDepth && Distance(g, relation, start, v, d) ensures Entry(v, d) in found {
      SearchComplete(g, relation, start, found, maxDepth, v, d);
    }
  }

  ghost predicate AllNodes(g: Graph, found: seq<Entry>) {
    found != [] && forall i :: 0 <= i < |found| ==> found[i].node in g.nodes
  }

  /** All entries ever queued, in order, from the search state `found`, `head` on. */
  ghost function Bfs(g: Graph, relation: string, found: seq<Entry>, head: nat, maxDepth: nat): seq<Entry>
    requires WellFormed(g) && AllNodes(g, found) && head <= |found|
    decreases g.nodes.Keys - Seen(found), |found| - head
  {
    if head == |found| then found
    else
      ExpandProgress(g, relation, found, head, maxDepth);
      Bfs(g, relation, Expand(g, relation, found, head, maxDepth), head + 1, maxDepth)
  }

  ghost function RelatedNodes(g: Graph, start: NodeId, relation: string, maxDepth: int): seq<NodeView>
    requires WellFormed(g)
  {
    if start !in g.nodes || maxDepth < 0 then []
    else
      BfsStays(g, relation, [Entry(start, 0)], 0, maxDepth);
      Views(g, Bfs(g, relation, [Entry(start, 0)], 0, maxDepth))
  }

  lemma {:induction false} SearchStart(g: Graph, relation: string, start: NodeId, maxDepth: nat)
    ensures Searched(g, relation, start, [Entry(start, 0)], 0, maxDepth)
  {
  }

  lemma {:induction false} AddedAreNodes(g: Graph, relation: string, found: seq<Entry>, u: NodeId, added: seq<NodeId>, d: nat)
    requires WellFormed(g) && AllNodes(g, found) && u in g.out && added == NewTargets(g.out[u], relation, Seen(found))
    ensures AllNodes(g, found + AtDepth(added, d))
    ensures forall i :: 0 <= i < |added| ==> added[i] in g.nodes
    ensures Seen(found + AtDepth(added, d)) == Seen(found) + set v | v in added
    ensures Seen(found) !! set v | v in added
  {
    NewTargetsAreNew(g.out[u], relation, Seen(found));
    assert EdgesFine(g, u);
    var found' := found + AtDepth(added, d);
    forall i | 0 <= i < |added| ensures added[i] in g.nodes && found'[|found| + i].node == added[i] {
      assert added[i] in added;
    }
    SeenGrows(found, added, d);
  }

  lemma {:induction false} SeenGrows(found: seq<Entry>, added: seq<NodeId>, d: nat)
    ensures Seen(found + AtDepth(added, d)) == Seen(found) + set v | v in added
  {
    var found' := found + AtDepth(added, d);
    forall v | v in added ensures v in Seen(found') {
      var k :| 0 <= k < |added| && added[k] == v;
      assert found'[|found| + k].node == v;
    }
    forall v | v in Seen(found) ensures v in Seen(found') {
      var k :| 0 <= k < |found| && found[k].node == v;
      assert found'[k].node == v;
    }
  }

  lemma {:induction false} ExpandProgress(g: Graph, relation: string, found: seq<Entry>, head: nat, maxDepth: nat)
    requires WellFormed(g) && AllNodes(g, found) && head < |found|
    ensures AllNodes(g, Expand(g, relation, found, head, maxDepth))
    ensures var found' := Expand(g, relation, found, head, maxDepth);
            g.nodes.Keys - Seen(found') < g.nodes.Keys - Seen(found) || found' == found
  {
    var u, d := found[head].node, found[head].depth;
    var added := NewTargets(g.out[u], relation, Seen(found));
    AddedAreNodes(g, relation, found, u, added, d + 1);
    LessLeft(g.nodes.Keys, Seen(found), added);
  }

  lemma {:induction false} BfsStays(g: Graph, relation: string, found: seq<Entry>, head: nat, maxDepth: nat)
    requires WellFormed(g) && AllNodes(g, found) && head <= |found|
    ensures AllNodes(g, Bfs(g, relation, found, head, maxDepth))
    decreases g.nodes.Keys - Seen(found), |found| - head
  {
    if head < |found| {
      ExpandProgress(g, relation, found, head, maxDepth);
      BfsStays(g, relation, Expand(g, relation, found, head, maxDepth), head + 1, maxDepth);
    }
  }

  /** What one turn adds to the entries, the queue, the nodes seen and the results. */
  lemma {:induction false} ExpandShape(g: Graph, relation: string, found: seq<Entry>, head: nat, maxDepth: nat)
    requires WellFormed(g) && AllNodes(g, found) && head < |found| && found[head].depth < maxDepth
    ensures var added, d := NewTargets(g.out[found[head].node], relation, Seen(found)), found[head].depth + 1;
            var found' := Expand(g, relation, found, head, maxDepth);
            && AllNodes(g, found') && (forall i :: 0 <= i < |added| ==> added[i] in g.nodes)
            && found'[head + 1..] == found[head..][1..] + AtDepth(added, d)
            && Seen(found') == Seen(found) + (set v | v in added)
            && Views(g, found') == Views(g, found) + Show(g.nodes, added)
            && (added == [] ==> Seen(found') == Seen(found))
            && (added != [] ==> g.nodes.Keys - Seen(found') < g.nodes.Keys - Seen(found))
  {
    var u, d := found[head].node, found[head].depth + 1;
    var added := NewTargets(g.out[u], relation, Seen(found));
    AddedAreNodes(g, relation, found, u, added, d);
    ViewsGrow(g, found, added, d);
    LessLeft(g.nodes.Keys, Seen(found), added);
  }

  lemma {:induction false} BfsSearches(
    g: Graph, relation: string, start: NodeId, found: seq<Entry>, head: nat, maxDepth: nat, all: seq<Entry>)
    requires WellFormed(g) && AllNodes(g, found) && Searched(g, relation, start, found, head, maxDepth)
    requires all == Bfs(g, relation, found, head, maxDepth)
    ensures Searched(g, relation, start, all, |all|, maxDepth)
    decreases g.nodes.Keys - Seen(found), |found| - head
  {
    if head < |found| {
      ExpandProgress(g, relation, found, head, maxDepth);
      SearchStep(g, relation, start, found, head, maxDepth);
      BfsSearches(g, relation, start, Expand(g, relation, found, head, maxDepth), head + 1, maxDepth, all);
    }
  }

  /** The search behind a query, and its results: all entries but the first. */
  lemma {:induction false} RelatedFrom(g: Graph, start: NodeId, relation: string, maxDepth: nat) returns (found: seq<Entry>)
    requires WellFormed(g) && start in g.nodes
    ensures Answers(g, relation, start, maxDepth, found)
    ensures var r := RelatedNodes(g, start, relation, maxDepth);
            |r| == |found| - 1 && forall i :: 0 <= i < |r| ==> r[i].id == found[i + 1].node
  {
    found := Bfs(g, relation, [Entry(start, 0)], 0, maxDepth);
    BfsAnswers(g, start, relation, maxDepth);
  }

  /** The query answers with exactly the nodes whose shortest matching path from `start` has 1 to `maxDepth` edges. */
  lemma {:induction false} RelatedIsExact(g: Graph, start: NodeId, relation: string, maxDepth: nat, v: NodeId)
    requires WellFormed(g) && start in g.nodes
    ensures var r := RelatedNodes(g, start, relation, maxDepth);
            (exists i :: 0 <= i < |r| && r[i].id == v) <==>
            (exists d: nat :: 1 <= d <= maxDepth && Distance(g, relation, start, v, d))
  {
    var found := RelatedFrom(g, start, relation, maxDepth);
    var r := RelatedNodes(g, start, relation, maxDepth);
    forall i | 0 <= i < |r| && r[i].id == v ensures exists d: nat :: 1 <= d <= maxDepth && Distance(g, relation, start, v, d) {
      DistancePositive(g, relation, start, v, found[i + 1].depth);
    }
    forall d: nat | 1 <= d <= maxDepth && Distance(g, relation, start, v, d)
      ensures exists i :: 0 <= i < |r| && r[i].id == v
    {
      var k :| 0 <= k < |found| && found[k] == Entry(v, d);
      assert r[k - 1].id == v;
    }
  }

  lemma {:induction false} QueueInOrder(found: seq<Entry>, start: NodeId, maxDepth: nat, r: seq<NodeView>) returns (ds: seq<nat>)
    requires Queued(found, start, maxDepth)
    requires |r| == |found| - 1 && forall i :: 0 <= i < |r| ==> r[i].id == found[i + 1].node
    ensures |ds| == |r| && forall i :: 0 <= i < |r| ==> ds[i] == found[i + 1].depth
    ensures forall i, j :: 0 <= i < j < |r| ==> r[i].id != r[j].id
    ensures forall i, j :: 0 <= i < j < |r| ==> ds[i] <= ds[j]
  {
    ds := seq(|found| - 1, i requires 0 <= i < |found| - 1 => found[i + 1].depth);
  }

  /** Each node is answered once, and the distances of the answers, in order, never decrease. */
  lemma {:induction false} RelatedInOrder(g: Graph, start: NodeId, relation: string, maxDepth: nat) returns (ds: seq<nat>)
    requires WellFormed(g) && start in g.nodes
    ensures var r := RelatedNodes(g, start, relation, maxDepth);
            && |ds| == |r| && (forall i :: 0 <= i < |r| ==> Distance(g, relation, start, r[i].id, ds[i]))
            && (forall i, j :: 0 <= i < j < |r| ==> r[i].id != r[j].id)
            && (forall i, j :: 0 <= i < j < |r| ==> ds[i] <= ds[j])
  {
    var found := RelatedFrom(g, start, relation, maxDepth);
    ds := QueueInOrder(found, start, maxDepth, RelatedNodes(g, start, relation, maxDepth));
  }

  lemma {:induction false} BfsAnswers(g: Graph, start: NodeId, relation: string, maxDepth: nat)
    requires WellFormed(g) && start in g.nodes
    ensures Answers(g, relation, start, maxDepth, Bfs(g, relation, [Entry(start, 0)], 0, maxDepth))
  {
    SearchStart(g, relation, start, maxDepth);
    var all := Bfs(g, relation, [Entry(start, 0)], 0, maxDepth);
    BfsStays(g, relation, [Entry(start, 0)], 0, maxDepth);
    BfsSearches(g, relation, start, [Entry(start, 0)], 0, maxDepth, all);
    SearchAnswers(g, relation, start, all, maxDepth);
  }

  lemma {:induction false} DistancePositive(g: Graph, relation: string, u: NodeId, v: NodeId, d: nat)
    requires Distance(g, relation, u, v, d) && v != u
    ensures d >= 1
  {
    var p :| IsPath(g, relation, p, u, v) && |p| == d + 1;
  }

  /** What a finished search guarantees. */
  ghost predicate Answers(g: Graph, relation: string, start: NodeId, maxDepth: nat, found: seq<Entry>) {
    && AllNodes(g, found) && Queued(found, start, maxDepth)
    && (forall i :: 0 <= i < |found| ==> Distance(g, relation, start, found[i].node, found[i].depth))
    && (forall v, d: nat :: d <= maxDepth && Distance(g, relation, start, v, d) ==> Entry(v, d) in found)
  }

  function OfKind(nodes: map<NodeId, NodeData>, ids: seq<NodeId>, kind: NodeType): seq<NodeView>
    requires forall i :: 0 <= i < |ids| ==> ids[i] in nodes
  {
    if ids == [] then []
    else
      var n := |ids| - 1;
      OfKind(nodes, ids[..n], kind) +
      if nodes[ids[n]].NodeData? && nodes[ids[n]].kind == kind then [NodeView(ids[n], nodes[ids[n]])] else []
  }

  /** Where in the list the nodes of a type are. */
  ghost function KindAt(nodes: map<NodeId, NodeData>, ids: seq<NodeId>, kind: NodeType): (at: seq<nat>)
    requires forall i :: 0 <= i < |ids| ==> ids[i] in nodes
    ensures |at| == |OfKind(nodes, ids, kind)| && forall i, j :: 0 <= i < j < |at| ==> at[i] < at[j]
    ensures forall i :: 0 <= i < |at| ==>
              at[i] < |ids| && OfKind(nodes, ids, kind)[i] == NodeView(ids[at[i]], nodes[ids[at[i]]]) &&
              nodes[ids[at[i]]].NodeData? && nodes[ids[at[i]]].kind == kind
  {
    if ids == [] then []
    else
      var n := |ids| - 1;
      var before := KindAt(nodes, ids[..n], kind);
      if nodes[ids[n]].NodeData? && nodes[ids[n]].kind == kind then before + [n] else before
  }

  /** The nodes of a type: just those, in the order of the list. */
  lemma {:induction false} OfKindFrom(nodes: map<NodeId, NodeData>, ids: seq<NodeId>, kind: NodeType, k: nat)
    requires forall i :: 0 <= i < |ids| ==> ids[i] in nodes
    requires k < |ids| && nodes[ids[k]].NodeData? && nodes[ids[k]].kind == kind
    ensures exists i :: 0 <= i < |OfKind(nodes, ids, kind)| && KindAt(nodes, ids, kind)[i] == k
  {
    var n := |ids| - 1;
    if k < n {
      OfKindFrom(nodes, ids[..n], kind, k);
      var i :| 0 <= i < |OfKind(nodes, ids[..n], kind)| && KindAt(nodes, ids[..n], kind)[i] == k;
      assert KindAt(nodes, ids, kind)[i] == k;
    } else {
      assert KindAt(nodes, ids, kind)[|OfKind(nodes, ids, kind)| - 1] == k;
    }
  }

  // ----- the saved form -----

  datatype SavedEdge = SavedEdge(source: NodeId, edge: Edge)

  datatype SavedGraph = SavedGraph(nodes: seq<NodeView>, edges: seq<SavedEdge>, counter: nat)

  function Tagged(source: NodeId, edges: seq<Edge>): (es: seq<SavedEdge>)
    ensures |es| == |edges| && forall i :: 0 <= i < |edges| ==> es[i] == SavedEdge(source, edges[i])
  {
    seq(|edges|, i requires 0 <= i < |edges| => SavedEdge(source, edges[i]))
  }

  function SavedNodes(g: Graph, k: nat): seq<NodeView>
    requires k <= |g.order| && forall i :: 0 <= i < |g.order| ==> g.order[i] in g.nodes
  {
    if k == 0 then [] else SavedNodes(g, k - 1) + [NodeView(g.order[k - 1], g.nodes[g.order[k - 1]])]
  }

  function SavedEdges(g: Graph, k: nat): seq<SavedEdge>
    requires k <= |g.order| && forall i :: 0 <= i < |g.order| ==> g.order[i] in g.out
  {
    if k == 0 then [] else SavedEdges(g, k - 1) + Tagged(g.order[k - 1], g.out[g.order[k - 1]])
  }

  ghost function SavedForm(g: Graph): SavedGraph
    requires WellFormed(g)
  {
    SavedGraph(SavedNodes(g, |g.order|), SavedEdges(g, |g.order|), g.counter)
  }

  function AddNodes(g: Graph, ns: seq<NodeView>): Graph {
    if ns == [] then g
    else WithNode(AddNodes(g, ns[..|ns| - 1]), ns[|ns| - 1].id, ns[|ns| - 1].data)
  }

  function AddEdges(g: Graph, es: seq<SavedEdge>): Graph {
    if es == [] then g
    else WithEdge(AddEdges(g, es[..|es| - 1]), es[|es| - 1].source, es[|es| - 1].edge)
  }

  function LoadedInto(g: Graph, file: SavedGraph): Graph {
    AddEdges(AddNodes(g.(counter := file.counter), file.nodes), file.edges)
  }

  /** What saving and loading nodes relies on. */
  ghost predicate Listed(g: Graph) {
    Distinct(g.order) && forall i :: 0 <= i < |g.order| ==> g.order[i] in g.nodes
  }

  /** A node loaded so far: one of the first `k`, with its data and no edges. */
  ghost predicate NodeLoaded(g: Graph, h: Graph, k: nat, n: NodeId) {
    && (exists i :: 0 <= i < k && i < |g.order| && g.order[i] == n)
    && n in g.nodes && n in h.nodes && n in h.out && h.nodes[n] == g.nodes[n] && h.out[n] == []
  }

  /** The first `k` nodes of `g` have been loaded into `h`, and no edges. */
  ghost predicate NodesLoaded(g: Graph, h: Graph, k: nat)
    requires k <= |g.order|
  {
    && h.order == g.order[..k] && h.counter == g.counter && h.out.Keys == h.nodes.Keys
    && (forall i :: 0 <= i < k ==> g.order[i] in h.nodes)
    && (forall n {:trigger NodeLoaded(g, h, k, n)} :: n in h.nodes ==> NodeLoaded(g, h, k, n))
  }

  lemma {:induction false} LoadNode(g: Graph, h: Graph, k: nat)
    requires Listed(g) && k < |g.order| && NodesLoaded(g, h, k)
    ensures NodesLoaded(g, WithNode(h, g.order[k], g.nodes[g.order[k]]), k + 1)
  {
    var id, h', next := g.order[k], WithNode(h, g.order[k], g.nodes[g.order[k]]), k + 1;
    assert g.order[..next] == g.order[..k] + [id];
    NotLoadedYet(g, h, k);
    forall n | n in h'.nodes ensures NodeLoaded(g, h', next, n) {
      if n == id {
        assert g.order[k] == n;
      } else {
        assert NodeLoaded(g, h, k, n);
      }
    }
  }

  lemma {:induction false} NotLoadedYet(g: Graph, h: Graph, k: nat)
    requires Distinct(g.order) && k < |g.order| && NodesLoaded(g, h, k)
    ensures g.order[k] !in h.nodes
  {
    forall n | n in h.nodes ensures n != g.order[k] {
      assert NodeLoaded(g, h, k, n);
    }
  }

  lemma {:induction false} AddNodesSnoc(g: Graph, ns: seq<NodeView>, v: NodeView)
    ensures AddNodes(g, ns + [v]) == WithNode(AddNodes(g, ns), v.id, v.data)
  {
    assert (ns + [v])[..|ns|] == ns;
  }

  lemma {:induction false} LoadNothing(g: Graph)
    ensures NodesLoaded(g, Empty.(counter := g.counter), 0)
  {
  }

  lemma {:induction false} LoadNextNode(g: Graph, start: Graph, h: Graph, k: nat)
    requires Listed(g) && k < |g.order| && NodesLoaded(g, h, k) && h == AddNodes(start, SavedNodes(g, k))
    ensures AddNodes(start, SavedNodes(g, k + 1)) == WithNode(h, g.order[k], g.nodes[g.order[k]])
  {
    AddNodesSnoc(start, SavedNodes(g, k), NodeView(g.order[k], g.nodes[g.order[k]]));
  }

  lemma {:induction false} LoadNodes(g: Graph, k: nat) returns (h: Graph)
    requires Listed(g) && k <= |g.order|
    ensures h == AddNodes(Empty.(counter := g.counter), SavedNodes(g, k)) && NodesLoaded(g, h, k)
  {
    if k == 0 {
      LoadNothing(g);
      return Empty.(counter := g.counter);
    }
    var before := LoadNodes(g, k - 1);
    LoadNextNode(g, Empty.(counter := g.counter), before, k - 1);
    LoadNode(g, before, k - 1);
    h := WithNode(before, g.order[k - 1], g.nodes[g.order[k - 1]]);
  }

  /** In `h` all nodes of `g` are there, and node `k` has the first `j` of its edges. */
  ghost predicate EdgesBegun(g: Graph, h: Graph, k: nat, j: nat)
    requires k < |g.order| && WellFormed(g) && j <= |g.out[g.order[k]]|
  {
    g.order[k] in h.out && h.nodes == g.nodes && h.out[g.order[k]] == g.out[g.order[k]][..j]
  }

  lemma {:induction false} LoadEdge(g: Graph, h: Graph, k: nat, j: nat)
    requires WellFormed(g) && k < |g.order| && j < |g.out[g.order[k]]| && EdgesBegun(g, h, k, j)
    ensures WithEdge(h, g.order[k], g.out[g.order[k]][j]) ==
            h.(out := h.out[g.order[k] := g.out[g.order[k]][..j + 1]])
  {
    var edges := g.out[g.order[k]];
    assert g.order[k] in g.nodes && EdgesFine(g, g.order[k]);
    PositionIs(edges[..j], edges[j].target, j);
    assert edges[..j][..j] + [edges[j]] + [] == edges[..j + 1];
  }

  lemma {:induction false} LoadEdgesOf(g: Graph, h: Graph, k: nat, j: nat)
    requires WellFormed(g) && k < |g.order| && j <= |g.out[g.order[k]]| && EdgesBegun(g, h, k, 0)
    ensures AddEdges(h, Tagged(g.order[k], g.out[g.order[k]][..j])) ==
            h.(out := h.out[g.order[k] := g.out[g.order[k]][..j]])
  {
    var id, edges := g.order[k], g.out[g.order[k]];
    if j == 0 {
      assert h.out[id := edges[..0]] == h.out;
    } else {
      assert Tagged(id, edges[..j])[..j - 1] == Tagged(id, edges[..j - 1]);
      LoadEdgesOf(g, h, k, j - 1);
      LoadEdge(g, h.(out := h.out[id := edges[..j - 1]]), k, j - 1);
    }
  }

  lemma {:induction false} AddEdgesAppend(g: Graph, a: seq<SavedEdge>, b: seq<SavedEdge>)
    ensures AddEdges(g, a + b) == AddEdges(AddEdges(g, a), b)
  {
    if b == [] {
      assert a + b == a;
    } else {
      assert (a + b)[..|a + b| - 1] == a + b[..|b| - 1];
      AddEdgesAppend(g, a, b[..|b| - 1]);
    }
  }

  /** In `h` all nodes of `g` are there, the first `k` with all their edges and the others with none. */
  ghost predicate EdgesLoaded(g: Graph, h: Graph, k: nat) {
    && h.order == g.order && h.nodes == g.nodes && h.counter == g.counter && h.out.Keys == g.nodes.Keys
    && forall i :: 0 <= i < |g.order| && g.order[i] in g.out && g.order[i] in h.out ==>
         h.out[g.order[i]] == if i < k then g.out[g.order[i]] else []
  }

  lemma {:induction false} LoadNextEdges(g: Graph, h: Graph, k: nat)
    requires WellFormed(g) && k < |g.order| && EdgesLoaded(g, h, k)
    ensures EdgesLoaded(g, AddEdges(h, Tagged(g.order[k], g.out[g.order[k]])), k + 1)
  {
    var id := g.order[k];
    var edges := g.out[id];
    AllListed(g);
    LoadEdgesOf(g, h, k, |edges|);
    assert edges[..|edges|] == edges;
    NextEdgesLoaded(g, h, k);
  }

  lemma {:induction false} NextEdgesLoaded(g: Graph, h: Graph, k: nat)
    requires Distinct(g.order) && k < |g.order| && g.order[k] in g.out && g.order[k] in h.out && EdgesLoaded(g, h, k)
    ensures EdgesLoaded(g, h.(out := h.out[g.order[k] := g.out[g.order[k]]]), k + 1)
  {
  }

  lemma {:induction false} AllListed(g: Graph)
    requires WellFormed(g)
    ensures forall i :: 0 <= i < |g.order| ==> g.order[i] in g.nodes && g.order[i] in g.out
  {
    forall i | 0 <= i < |g.order| ensures g.order[i] in g.nodes {
      assert g.order[i] in g.order;
    }
  }

  /** What `LoadNextEdges` says of a well-formed `g`. */
  ghost predicate LoadsNext(g: Graph, h: Graph, k: nat) {
    k < |g.order| && g.order[k] in g.out && EdgesLoaded(g, h, k) ==>
      EdgesLoaded(g, AddEdges(h, Tagged(g.order[k], g.out[g.order[k]])), k + 1)
  }

  ghost predicate LoadsStepwise(g: Graph) {
    && (forall i :: 0 <= i < |g.order| ==> g.order[i] in g.out)
    && forall h, k {:trigger LoadsNext(g, h, k)} :: LoadsNext(g, h, k)
  }

  lemma {:induction false} WellFormedLoadsStepwise(g: Graph)
    requires WellFormed(g)
    ensures LoadsStepwise(g)
  {
    AllListed(g);
    forall h, k: nat ensures LoadsNext(g, h, k) {
      if k < |g.order| && EdgesLoaded(g, h, k) {
        LoadNextEdges(g, h, k);
      }
    }
  }

  lemma {:induction false} NextSavedEdges(g: Graph, h: Graph, k: nat, before: Graph)
    requires (forall i :: 0 <= i < |g.order| ==> g.order[i] in g.out) && k < |g.order|
    requires before == AddEdges(h, SavedEdges(g, k))
    ensures AddEdges(before, Tagged(g.order[k], g.out[g.order[k]])) == AddEdges(h, SavedEdges(g, k + 1))
  {
    AddEdgesAppend(h, SavedEdges(g, k), Tagged(g.order[k], g.out[g.order[k]]));
  }

  lemma {:induction false} LoadEdges(g: Graph, h: Graph, k: nat) returns (r: Graph)
    requires LoadsStepwise(g) && k <= |g.order| && EdgesLoaded(g, h, 0)
    ensures r == AddEdges(h, SavedEdges(g, k)) && EdgesLoaded(g, r, k)
  {
    if k == 0 {
      r := h;
    } else {
      var before := LoadEdges(g, h, k - 1);
      NextSavedEdges(g, h, k - 1, before);
      assert LoadsNext(g, before, k - 1);
      r := AddEdges(before, Tagged(g.order[k - 1], g.out[g.order[k - 1]]));
    }
  }

  lemma {:induction false} AllNodesLoaded(g: Graph, h: Graph)
    requires WellFormed(g) && NodesLoaded(g, h, |g.order|)
    ensures EdgesLoaded(g, h, 0)
  {
    assert g.order[..|g.order|] == g.order;
    forall id | id in g.nodes ensures id in h.nodes {
      assert id in g.order;
    }
    forall id | id in h.nodes ensures id in g.nodes && h.nodes[id] == g.nodes[id] && h.out[id] == [] {
      assert NodeLoaded(g, h, |g.order|, id);
    }
    assert h.nodes == g.nodes;
  }

  /** Loading a saved graph into a new store restores node order, attributes, out-edge order and the id counter. */
  lemma {:induction false} SaveLoadRoundTrip(g: Graph)
    requires WellFormed(g)
    ensures LoadedInto(Empty, SavedForm(g)) == g
  {
    var h := LoadNodes(g, |g.order|);
    AllNodesLoaded(g, h);
    WellFormedLoadsStepwise(g);
    var r := LoadEdges(g, h, |g.order|);
    AllOut(g, r);
  }

  lemma {:induction false} AllOut(g: Graph, h: Graph)
    requires WellFormed(g) && EdgesLoaded(g, h, |g.order|)
    ensures h == g
  {
    forall id | id in g.out ensures h.out[id] == g.out[id] {
      assert id in g.order;
    }
  }

  class GraphStore {
    var order: seq<NodeId>
    var nodes: map<NodeId, NodeData>
    var out: map<NodeId, seq<Edge>>
    var counter: nat

    ghost function Value(): Graph
      reads this
    {
      Graph(order, nodes, out, counter)
    }

    ghost predicate Valid()
      reads this
    {
      WellFormed(Value())
    }

    constructor ()
      ensures Valid() && Value() == Empty && order == [] && nodes == map[] && out == map[] && counter == 0
    {
      order, nodes, out, counter := [], map[], map[], 0;
    }

    /** networkx's `add_node`: a known node keeps its place and its edges. */
    method Put(id: NodeId, data: NodeData)
      requires Valid()
      modifies `order, `nodes, `out
      ensures Valid() && Value() == WithNode(old(Value()), id, data)
    {
      NodeKeepsForm(Value(), id, data);
      if id !in nodes {
        order := order + [id];
        out := out[id := []];
      }
      nodes := nodes[id := if data.Bare? && id in nodes then nodes[id] else data];
    }

    method AddNode(kind: NodeType, name: string, attrs: Attrs) returns (id: NodeId)
      requires Valid()
      modifies this
      ensures Valid() && id == IdFor(old(counter) + 1)
      ensures Value() == WithNode(old(Value()).(counter := old(counter) + 1), id, NodeData(kind, name, attrs))
      ensures id == "node_" + Str(counter) && counter == old(counter) + 1
      ensures nodes == old(nodes)[id := NodeData(kind, name, attrs)]
      ensures order == if id in old(nodes) then old(order) else old(order) + [id]
      ensures out == if id in old(nodes) then old(out) else old(out)[id := []]
    {
      CounterKeepsForm(Value(), counter + 1);
      counter := counter + 1;
      id := "node_" + Str(counter);
      Put(id, NodeData(kind, name, attrs));
    }

    method AddEdge(source: NodeId, target: NodeId, relation: string, attrs: Attrs)
      requires Valid()
      modifies `order, `nodes, `out
      ensures Valid() && Value() == WithEdge(old(Value()), source, Edge(target, relation, attrs))
    {
      PutEndpoint(source);
      PutEndpoint(target);
      SetEdge(source, Edge(target, relation, attrs));
    }

    method SetEdge(source: NodeId, e: Edge)
      requires Valid() && source in nodes && e.target in nodes
      modifies `out
      ensures Valid() && source in old(out) && out == old(out)[source := PutEdge(old(out)[source], e)]
    {
      PutEdgeWellFormed(Value(), source, e);
      var edges := Replaced(out[source], e);
      out := out[source := edges];
    }

    static method Replaced(edges: seq<Edge>, e: Edge) returns (put: seq<Edge>)
      ensures put == PutEdge(edges, e)
    {
      var k := FindEdge(edges, e.target);
      put := edges[..k] + [e] + (if k < |edges| then edges[k + 1..] else []);
    }

    /** An end of an edge that is no node yet becomes a bare one. */
    method PutEndpoint(id: NodeId)
      requires Valid()
      modifies `order, `nodes, `out
      ensures Valid() && Value() == WithEndpoint(old(Value()), id) && id in nodes && old(nodes.Keys) <= nodes.Keys
    {
      if id !in nodes {
        Put(id, Bare);
      }
    }

    static method FindEdge(edges: seq<Edge>, target: NodeId) returns (k: nat)
      ensures k == Position(edges, target)
    {
      k := 0;
      while k < |edges| && edges[k].target != target
        invariant 0 <= k <= |edges| && forall j :: 0 <= j < k ==> edges[j].target != target
      {
        k := k + 1;
      }
      PositionIs(edges, target, k);
    }

    /** Breadth-first query; `Bfs` says what the list of found nodes is, and `BfsAnswers` what that means. */
    method QueryRelated(start: NodeId, relation: string, maxDepth: int) returns (results: seq<NodeView>)
      requires Valid()
      ensures results == RelatedNodes(Value(), start, relation, maxDepth)
      ensures start !in nodes || maxDepth <= 0 ==> results == []
      ensures forall i :: 0 <= i < |results| ==> results[i].id in nodes && results[i].data == nodes[results[i].id]
    {
      results := [];
      if start !in nodes || maxDepth < 0 {
        return;
      }
      var visited, queue := {start}, [Entry(start, 0)];
      ghost var found, head := queue, 0;
      assert found[0].node == start;
      while queue != []
        invariant AllNodes(Value(), found) && head <= |found| && queue == found[head..]
        invariant visited == Seen(found) && results == Views(Value(), found)
        invariant Bfs(Value(), relation, found, head, maxDepth) == Bfs(Value(), relation, [Entry(start, 0)], 0, maxDepth)
        decreases nodes.Keys - visited, |queue|
      {
        queue, visited, results := Turn(relation, maxDepth, found, head, queue, visited, results);
        found := Expand(Value(), relation, found, head, maxDepth);
        head := head + 1;
      }
    }

    /** One turn: the first entry leaves the queue, and its new successors join queue and results. */
    method Turn(relation: string, maxDepth: nat, ghost found: seq<Entry>, ghost head: nat,
                queue0: seq<Entry>, visited0: set<NodeId>, results0: seq<NodeView>)
      returns (queue: seq<Entry>, visited: set<NodeId>, results: seq<NodeView>)
      requires Valid() && AllNodes(Value(), found) && head < |found| && queue0 == found[head..]
      requires visited0 == Seen(found) && results0 == Views(Value(), found)
      ensures AllNodes(Value(), Expand(Value(), relation, found, head, maxDepth))
      ensures queue == Expand(Value(), relation, found, head, maxDepth)[head + 1..]
      ensures visited == Seen(Expand(Value(), relation, found, head, maxDepth))
      ensures results == Views(Value(), Expand(Value(), relation, found, head, maxDepth))
      ensures nodes.Keys - visited < nodes.Keys - visited0 || (visited == visited0 && |queue| < |queue0|)
    {
      var current, depth := queue0[0].node, queue0[0].depth;
      queue, visited, results := queue0[1..], visited0, results0;
      if depth < maxDepth {
        ExpandShape(Value(), relation, found, head, maxDepth);
        var added;
        added, visited := Scan(out[current], relation, visited);
        results := results + Show(nodes, added);
        queue := queue + AtDepth(added, depth + 1);
      } else {
        assert Expand(Value(), relation, found, head, maxDepth) == found;
        assert found[head..][1..] == found[head + 1..];
      }
    }

    method QueryByType(kind: NodeType) returns (found: seq<NodeView>)
      requires Valid()
      ensures found == OfKind(nodes, order, kind)
    {
      found := [];
      for i := 0 to |order|
        invariant found == OfKind(nodes, order[..i], kind)
      {
        assert order[..i + 1][..i] == order[..i];
        if nodes[order[i]].NodeData? && nodes[order[i]].kind == kind {
          found := found + [NodeView(order[i], nodes[order[i]])];
        }
      }
      assert order[..|order|] == order;
    }

    method Save() returns (file: SavedGraph)
      requires Valid()
      ensures file == SavedForm(Value())
    {
      var ns, es := [], [];
      for i := 0 to |order|
        invariant ns == SavedNodes(Value(), i) && es == SavedEdges(Value(), i)
      {
        ns := ns + [NodeView(order[i], nodes[order[i]])];
        es := es + Tagged(order[i], out[order[i]]);
      }
      file := SavedGraph(ns, es, counter);
    }

    method Load(file: SavedGraph)
      requires Valid()
      modifies this
      ensures Valid() && Value() == LoadedInto(old(Value()), file)
    {
      CounterKeepsForm(Value(), file.counter);
      counter := file.counter;
      LoadNodeList(file.nodes);
      LoadEdgeList(file.edges);
    }

    method LoadNodeList(ns: seq<NodeView>)
      requires Valid()
      modifies `order, `nodes, `out
      ensures Valid() && Value() == AddNodes(old(Value()), ns)
    {
      for i := 0 to |ns|
        invariant Valid() && Value() == AddNodes(old(Value()), ns[..i])
      {
        assert ns[..i + 1][..i] == ns[..i];
        Put(ns[i].id, ns[i].data);
      }
      assert ns[..|ns|] == ns;
    }

    method LoadEdgeList(es: seq<SavedEdge>)
      requires Valid()
      modifies `order, `nodes, `out
      ensures Valid() && Value() == AddEdges(old(Value()), es)
    {
      for i := 0 to |es|
        invariant Valid() && Value() == AddEdges(old(Value()), es[..i])
      {
        assert es[..i + 1][..i] == es[..i];
        AddEdge(es[i].source, es[i].edge.target, es[i].edge.relation, es[i].edge.attrs);
      }
      assert es[..|es|] == es;
    }

    /** The loop over `out_edges(current)`: the targets not visited before. */
    method Scan(edges: seq<Edge>, relation: string, visited0: set<NodeId>)
      returns (added: seq<NodeId>, visited: set<NodeId>)
      ensures added == NewTargets(edges, relation, visited0)
      ensures visited == visited0 + set v | v in added
    {
      added, visited := [], visited0;
      for k := 0 to |edges|
        invariant added == NewTargets(edges[..k], relation, visited0)
        invariant visited == visited0 + set v | v in added
      {
        assert edges[..k + 1][..k] == edges[..k];
        var e := edges[k];
        if Matches(e, relation) && e.target !in visited {
          visited := visited + {e.target};
          added := added + [e.target];
        }
      }
      assert edges[..|edges|] == edges;
    }
  }
}
