/** The workflow DAG: its data, structural validation and Kahn's algorithm
  (engine/core/src/dag.cpp). */
module Dags {
  import opened Ids
  import opened Graphs
  import opened Sorting

  datatype NodeKind = Trigger | Action
  datatype NodeSpec = NodeSpec(id: NodeId, kind: NodeKind, typ: string)

  datatype ErrorCode =
    | EmptyNodeId
    | DuplicateNodeId
    | MissingEdgeEndpoint
    | SelfLoop
    | DuplicateEdge
    | CycleDetected
    | MalformedDocument

  /** node is the offending node, or empty. */
  datatype GraphError = GraphError(code: ErrorCode, node: NodeId)

  datatype BuildResult = BuildResult(errors: seq<GraphError>, dag: Option<Dag>)

  predicate EdgeLess(a: Edge, b: Edge) {
    Less(a.from, b.from) || (a.from == b.from && Less(a.to, b.to))
  }

  lemma OrdersAreStrict()
    ensures StrictOrder(Less) && StrictOrder(EdgeLess)
  {
    forall x, y | Less(x, y) ensures !Less(y, x) { LessAsymmetric(x, y); }
    forall x, y, z | Less(x, y) && Less(y, z) ensures Less(x, z) { LessTransitive(x, y, z); }
    forall x, y | EdgeLess(x, y) ensures !EdgeLess(y, x) {
      if Less(x.from, y.from) { LessAsymmetric(x.from, y.from); } else { LessAsymmetric(x.to, y.to); }
    }
    forall x, y, z | EdgeLess(x, y) && EdgeLess(y, z) ensures EdgeLess(x, z) {
      if x.from != y.from && y.from != z.from {
        LessTransitive(x.from, y.from, z.from);
      } else if x.from == y.from == z.from {
        LessTransitive(x.to, y.to, z.to);
      }
    }
  }

  lemma AllComparable(ids: seq<NodeId>, edges: seq<Edge>)
    ensures Comparable(Less, ids) && Comparable(EdgeLess, edges)
  {
    forall x, y | x in ids && y in ids && x != y ensures Less(x, y) || Less(y, x) { LessTotal(x, y); }
    forall x, y | x in edges && y in edges && x != y ensures EdgeLess(x, y) || EdgeLess(y, x) {
      LessTotal(x.from, y.from);
      LessTotal(x.to, y.to);
    }
  }

  function IdsOf(nodes: seq<NodeSpec>): (ids: seq<NodeId>)
    ensures |ids| == |nodes| && forall i :: 0 <= i < |ids| ==> ids[i] == nodes[i].id
  {
    if nodes == [] then [] else [nodes[0].id] + IdsOf(nodes[1..])
  }

  // ------------------------------------------------------------------------
  // The data structure
  // ------------------------------------------------------------------------

  datatype Dag = Dag(nodeOrder: seq<NodeId>, specs: seq<NodeSpec>, edges: seq<Edge>,
                     preds: seq<seq<NodeId>>, succs: seq<seq<NodeId>>, topoOrder: seq<NodeId>)
  {
    function IndexOf(id: NodeId): Option<nat> {
      var i := IndexIn(nodeOrder, id);
      if i < |nodeOrder| then Some(i) else None
    }

    function Node(id: NodeId): Option<NodeSpec>
      requires |specs| == |nodeOrder|
    {
      match IndexOf(id)
      case Some(i) => Some(specs[i])
      case None => None
    }

    function Predecessors(id: NodeId): seq<NodeId>
      requires |preds| == |nodeOrder|
    {
      match IndexOf(id)
      case Some(i) => preds[i]
      case None => []
    }

    function Successors(id: NodeId): seq<NodeId>
      requires |succs| == |nodeOrder|
    {
      match IndexOf(id)
      case Some(i) => succs[i]
      case None => []
    }

    ghost function G(): Graph {
      Graph(Elements(nodeOrder), Elements(edges))
    }

    ghost predicate Shaped() {
      && |specs| == |nodeOrder| == |preds| == |succs|
      && (forall i :: 0 <= i < |specs| ==> specs[i].id == nodeOrder[i])
    }

    /** What Build promises of every Dag it returns. */
    ghost predicate Valid() {
      && Shaped()
      && Distinct(nodeOrder) && "" !in nodeOrder
      && StrictlySorted(EdgeLess, edges) && Closed(G())
      && (forall i :: 0 <= i < |nodeOrder| ==> IsAdjacency(nodeOrder[i], preds[i], succs[i], edges))
      && IsTopo(G(), topoOrder) && Greedy(G(), topoOrder)
    }
  }

  /** ps and ss are the sorted neighbour lists of id. */
  ghost predicate IsAdjacency(id: NodeId, ps: seq<NodeId>, ss: seq<NodeId>, edges: seq<Edge>) {
    && StrictlySorted(Less, ps) && StrictlySorted(Less, ss)
    && (forall x :: x in ps <==> Edge(x, id) in edges)
    && (forall x :: x in ss <==> Edge(id, x) in edges)
  }

  /** The neighbour lists are exactly the edges, for known and unknown ids. */
  lemma NeighboursAreEdges(d: Dag, id: NodeId)
    requires d.Valid()
    ensures forall x :: x in d.Successors(id) <==> Edge(id, x) in d.edges
    ensures forall x :: x in d.Predecessors(id) <==> Edge(x, id) in d.edges
    ensures Distinct(d.Successors(id)) && Distinct(d.Predecessors(id))
  {
    var i := IndexIn(d.nodeOrder, id);
    OrdersAreStrict();
    if i < |d.nodeOrder| {
      assert IsAdjacency(d.nodeOrder[i], d.preds[i], d.succs[i], d.edges);
    } else {
      forall e | e in d.edges ensures e.from != id && e.to != id {
        assert e in d.G().edges;
        assert e.from in d.G().nodes && e.to in d.G().nodes;
      }
    }
  }

  lemma DagIsAcyclic(d: Dag)
    requires d.Valid()
    ensures Acyclic(d.G())
  {
    TopoImpliesAcyclic(d.G(), d.topoOrder);
  }

  // ------------------------------------------------------------------------
  // Structural validation
  // ------------------------------------------------------------------------

  /** One error per offending node, in input order; seen holds the accepted ids. */
  function NodeErrors(nodes: seq<NodeSpec>, seen: set<NodeId>): seq<GraphError> {
    if nodes == [] then []
    else
      var id := nodes[0].id;
      if id == "" then [GraphError(EmptyNodeId, "")] + NodeErrors(nodes[1..], seen)
      else if id in seen then [GraphError(DuplicateNodeId, id)] + NodeErrors(nodes[1..], seen)
      else NodeErrors(nodes[1..], seen + {id})
  }

  function EdgeErrors(edges: seq<Edge>, known: set<NodeId>, seen: set<Edge>): seq<GraphError> {
    if edges == [] then []
    else
      var e := edges[0];
      if e.from !in known || e.to !in known then
        [GraphError(MissingEdgeEndpoint, if e.from in known then e.to else e.from)] + EdgeErrors(edges[1..], known, seen)
      else if e.from == e.to then [GraphError(SelfLoop, e.from)] + EdgeErrors(edges[1..], known, seen)
      else if e in seen then [GraphError(DuplicateEdge, "")] + EdgeErrors(edges[1..], known, seen)
      else EdgeErrors(edges[1..], known, seen + {e})
  }

  ghost predicate WellFormedNodes(nodes: seq<NodeSpec>) {
    Distinct(IdsOf(nodes)) && "" !in IdsOf(nodes)
  }

  ghost predicate WellFormedEdges(edges: seq<Edge>, known: set<NodeId>) {
    Distinct(edges) && forall e :: e in edges ==> e.from in known && e.to in known && e.from != e.to
  }

  /** The input describes a graph: unique nonempty ids, unique edges between
    two different known nodes. */
  ghost predicate WellFormed(nodes: seq<NodeSpec>, edges: seq<Edge>) {
    WellFormedNodes(nodes) && WellFormedEdges(edges, Elements(IdsOf(nodes)))
  }

  ghost function InputGraph(nodes: seq<NodeSpec>, edges: seq<Edge>): Graph {
    Graph(Elements(IdsOf(nodes)), Elements(edges))
  }

  lemma {:induction false} NodeErrorsExact(nodes: seq<NodeSpec>, seen: set<NodeId>)
    ensures NodeErrors(nodes, seen) == [] <==>
            WellFormedNodes(nodes) && forall i :: 0 <= i < |nodes| ==> nodes[i].id !in seen
  {
    if nodes != [] {
      var id := nodes[0].id;
      var ids := IdsOf(nodes);
      assert ids[1..] == IdsOf(nodes[1..]);
      assert ids == [id] + ids[1..];
      if id == "" || id in seen {
        assert ids[0] in ids;
      } else {
        NodeErrorsExact(nodes[1..], seen + {id});
        if NodeErrors(nodes, seen) == [] {
          forall i | 0 < i < |nodes| ensures nodes[i].id !in seen && nodes[i].id != id {
            assert nodes[1..][i - 1].id !in seen + {id};
          }
        }
      }
    }
  }

  lemma {:induction false} EdgeErrorsExact(edges: seq<Edge>, known: set<NodeId>, seen: set<Edge>)
    ensures EdgeErrors(edges, known, seen) == [] <==>
            WellFormedEdges(edges, known) && forall e :: e in edges ==> e !in seen
  {
    if edges != [] {
      var e := edges[0];
      assert edges == [e] + edges[1..];
      assert e in edges;
      if e.from in known && e.to in known && e.from != e.to && e !in seen {
        EdgeErrorsExact(edges[1..], known, seen + {e});
        if WellFormedEdges(edges, known) && forall x :: x in edges ==> x !in seen {
          forall x | x in edges[1..] ensures x !in seen + {e} { }
        }
      }
    }
  }

  // ------------------------------------------------------------------------
  // Kahn's algorithm
  // ------------------------------------------------------------------------

  /** The edges into v whose source has not been placed yet. */
  ghost function Remaining(g: Graph, placed: seq<NodeId>, v: NodeId): set<Edge> {
    set e | e in g.edges && e.to == v && e.from !in placed
  }

  /** Placing u removes exactly the edge u -> v, if there is one. */
  lemma RemainingAfter(g: Graph, placed: seq<NodeId>, u: NodeId, v: NodeId)
    requires u !in placed
    ensures |Remaining(g, placed + [u], v)| ==
            |Remaining(g, placed, v)| - (if Edge(u, v) in g.edges then 1 else 0)
  {
    if Edge(u, v) in g.edges {
      assert Remaining(g, placed, v) == Remaining(g, placed + [u], v) + {Edge(u, v)};
    } else {
      assert Remaining(g, placed, v) == Remaining(g, placed + [u], v);
    }
  }

  lemma RemainingEmpty(g: Graph, placed: seq<NodeId>, v: NodeId)
    requires v in g.nodes && v !in placed
    ensures |Remaining(g, placed, v)| == 0 <==> Free(g, placed, v)
  {
    if |Remaining(g, placed, v)| == 0 {
      assert Remaining(g, placed, v) == {};
      forall e | e in g.edges && e.to == v ensures e.from in placed {
        assert e.from in placed || e in Remaining(g, placed, v);
      }
    } else {
      var e :| e in Remaining(g, placed, v);
    }
  }

  /** indegree counts the unplaced predecessors and ready holds the free nodes. */
  ghost predicate KahnState(g: Graph, topo: seq<NodeId>, indegree: map<NodeId, int>, ready: set<NodeId>) {
    && Distinct(topo) && Elements(topo) <= g.nodes && PredsFirst(g, topo) && Greedy(g, topo)
    && indegree.Keys == g.nodes
    && (forall v :: v in g.nodes ==> indegree[v] == |Remaining(g, topo, v)|)
    && (forall v :: v in ready <==> Free(g, topo, v))
  }

  method ZeroIndegree(order: seq<NodeId>) returns (indegree: map<NodeId, int>)
    ensures indegree.Keys == Elements(order)
    ensures forall v :: v in order ==> indegree[v] == 0
  {
    indegree := map[];
    for i := 0 to |order|
      invariant forall v :: v in indegree <==> v in order[..i]
      invariant forall v :: v in indegree ==> indegree[v] == 0
    {
      assert order[..i + 1] == order[..i] + [order[i]];
      indegree := indegree[order[i] := 0];
    }
    assert order[..|order|] == order;
  }

  /** The edges of a list that end in v. */
  ghost function Into(edges: seq<Edge>, v: NodeId): set<Edge> {
    set e | e in edges && e.to == v
  }

  lemma IntoSnoc(edges: seq<Edge>, e: Edge, v: NodeId)
    requires e !in edges
    ensures |Into(edges + [e], v)| == |Into(edges, v)| + (if v == e.to then 1 else 0)
  {
    if v == e.to {
      assert Into(edges + [e], v) == Into(edges, v) + {e};
    } else {
      assert Into(edges + [e], v) == Into(edges, v);
    }
  }

  method InitialIndegree(order: seq<NodeId>, edges: seq<Edge>) returns (indegree: map<NodeId, int>)
    requires Distinct(edges) && forall e :: e in edges ==> e.to in order
    ensures indegree.Keys == Elements(order)
    ensures forall v :: v in order ==> indegree[v] == |Into(edges, v)|
  {
    indegree := ZeroIndegree(order);
    for i := 0 to |edges|
      invariant indegree.Keys == Elements(order)
      invariant forall v :: v in order ==> indegree[v] == |Into(edges[..i], v)|
    {
      var e := edges[i];
      assert e in edges && e !in edges[..i];
      assert edges[..i + 1] == edges[..i] + [e];
      forall v ensures |Into(edges[..i + 1], v)| == |Into(edges[..i], v)| + (if v == e.to then 1 else 0) {
        IntoSnoc(edges[..i], e, v);
      }
      indegree := indegree[e.to := indegree[e.to] + 1];
    }
    assert edges[..|edges|] == edges;
  }

  /** The inner loop: each successor of next loses one pending predecessor and
    is queued when none is left. */
  method Decrement(succs: seq<NodeId>, ghost done: set<NodeId>, indegree0: map<NodeId, int>, ready0: set<NodeId>)
    returns (indegree: map<NodeId, int>, ready: set<NodeId>)
    requires Distinct(succs) && forall x :: x in succs ==> x in indegree0 && x !in done && indegree0[x] > 0
    requires forall v :: v in ready0 <==> v in indegree0 && v !in done && indegree0[v] == 0
    ensures indegree.Keys == indegree0.Keys
    ensures forall v :: v in indegree0 ==> indegree[v] == indegree0[v] - (if v in succs then 1 else 0)
    ensures forall v :: v in ready <==> v in indegree0 && v !in done && indegree[v] == 0
  {
    indegree, ready := indegree0, ready0;
    for j := 0 to |succs|
      invariant indegree.Keys == indegree0.Keys
      invariant forall v :: v in indegree0 ==> indegree[v] == indegree0[v] - (if v in succs[..j] then 1 else 0)
      invariant forall v :: v in ready <==> v in indegree0 && v !in done && indegree[v] == 0
    {
      var s := succs[j];
      assert s in succs && s !in succs[..j];
      assert succs[..j + 1] == succs[..j] + [s];
      indegree := indegree[s := indegree[s] - 1];
      if indegree[s] == 0 {
        ready := ready + {s};
      }
    }
    assert succs[..|succs|] == succs;
  }

  /** A pending predecessor keeps its successor waiting and unplaced. */
  lemma PendingEdge(g: Graph, topo: seq<NodeId>, e: Edge)
    requires PredsFirst(g, topo) && Acyclic1(g) && e in g.edges && e.from !in topo
    ensures e.to !in topo + [e.from] && |Remaining(g, topo, e.to)| > 0
  {
    assert e in Remaining(g, topo, e.to);
  }

  /** One turn of the main loop, for the least free node. */
  method Place(ghost g: Graph, ghost topo: seq<NodeId>, next: NodeId, succs: seq<NodeId>,
               indegree0: map<NodeId, int>, ready0: set<NodeId>)
    returns (indegree: map<NodeId, int>, ready: set<NodeId>)
    requires Closed(g) && Acyclic1(g)
    requires KahnState(g, topo, indegree0, ready0) && IsLeast(next, ready0)
    requires Distinct(succs) && forall x :: x in succs <==> Edge(next, x) in g.edges
    ensures KahnState(g, topo + [next], indegree, ready)
  {
    assert Free(g, topo, next);
    forall x | x in succs ensures x in g.nodes && x !in topo + [next] && indegree0[x] > 0 {
      assert Edge(next, x) in g.edges;
      PendingEdge(g, topo, Edge(next, x));
    }
    forall v ensures v in ready0 - {next} <==> v in g.nodes && v !in topo + [next] && indegree0[v] == 0 {
      if v in g.nodes && v !in topo { RemainingEmpty(g, topo, v); }
    }
    indegree, ready := Decrement(succs, Elements(topo + [next]), indegree0, ready0 - {next});
    forall v | v in g.nodes ensures indegree[v] == |Remaining(g, topo + [next], v)| {
      RemainingAfter(g, topo, next, v);
    }
    PlaceKeepsOrder(g, topo, next, ready0);
    forall v ensures v in ready <==> Free(g, topo + [next], v) {
      if v in g.nodes && v !in topo + [next] { RemainingEmpty(g, topo + [next], v); }
    }
  }

  /** No edge from a node to itself. */
  ghost predicate Acyclic1(g: Graph) {
    forall e :: e in g.edges ==> e.from != e.to
  }

  lemma PlaceKeepsOrder(g: Graph, topo: seq<NodeId>, next: NodeId, ready: set<NodeId>)
    requires Distinct(topo) && Elements(topo) <= g.nodes && PredsFirst(g, topo) && Greedy(g, topo)
    requires forall v :: v in ready <==> Free(g, topo, v)
    requires IsLeast(next, ready)
    ensures Distinct(topo + [next]) && Elements(topo + [next]) <= g.nodes
    ensures PredsFirst(g, topo + [next]) && Greedy(g, topo + [next])
  {
    var t := topo + [next];
    forall i | 0 <= i < |t|
      ensures t[..i] == if i < |topo| then topo[..i] else topo
    { }
    assert Free(g, topo, next);
    forall i, e | 0 <= i < |t| && e in g.edges && e.to == t[i] ensures e.from in t[..i] { }
    forall i, v | 0 <= i < |t| && Free(g, t[..i], v) ensures v == t[i] || Less(t[i], v) {
      if i == |topo| { assert v in ready; }
    }
  }

  method Kahn(order: seq<NodeId>, edges: seq<Edge>, succs: seq<seq<NodeId>>)
    returns (topo: seq<NodeId>)
    requires Distinct(order) && Distinct(edges) && |succs| == |order|
    requires Closed(Graph(Elements(order), Elements(edges))) && Acyclic1(Graph(Elements(order), Elements(edges)))
    requires forall i :: 0 <= i < |order| ==>
               Distinct(succs[i]) && forall x :: x in succs[i] <==> Edge(order[i], x) in edges
    ensures Distinct(topo) && PredsFirst(Graph(Elements(order), Elements(edges)), topo)
    ensures Greedy(Graph(Elements(order), Elements(edges)), topo)
    ensures Elements(topo) <= Elements(order)
    ensures forall v :: !Free(Graph(Elements(order), Elements(edges)), topo, v)
  {
    ghost var g := Graph(Elements(order), Elements(edges));
    assert forall e :: e in edges ==> e in g.edges;
    var indegree := InitialIndegree(order, edges);
    var ready := set v | v in order && indegree[v] == 0;
    topo := [];
    assert forall v :: Remaining(g, [], v) == Into(edges, v);
    forall v ensures v in ready <==> Free(g, topo, v) {
      if v in g.nodes { RemainingEmpty(g, [], v); }
    }
    while ready != {}
      invariant KahnState(g, topo, indegree, ready)
      decreases |g.nodes| - |topo|
    {
      LeastExists(ready);
      var next :| next in ready && forall x :: x in ready ==> x == next || Less(next, x);
      assert IsLeast(next, ready) && Free(g, topo, next);
      PlaceKeepsOrder(g, topo, next, ready);
      DistinctSize(topo + [next]);
      SubsetSize(Elements(topo + [next]), g.nodes);
      indegree, ready := Place(g, topo, next, succs[IndexIn(order, next)], indegree, ready);
      topo := topo + [next];
    }
  }

  /** What Kahn leaves out is exactly what is on or downstream of a cycle. */
  lemma KahnLeftovers(g: Graph, topo: seq<NodeId>)
    requires Distinct(topo) && PredsFirst(g, topo) && Closed(g)
    requires forall v :: !Free(g, topo, v)
    ensures forall v :: v in g.nodes ==> (v !in topo <==> Tangled(g, v))
  {
    var rest := set v | v in g.nodes && v !in topo;
    forall x | x in rest ensures HasPredIn(g, rest, x) {
      assert !Free(g, topo, x);
      var e :| e in g.edges && e.to == x && e.from !in topo;
      assert e.from in rest && Edge(e.from, x) in g.edges;
    }
    forall v | v in g.nodes ensures v !in topo <==> Tangled(g, v) {
      if v !in topo {
        BackwardClosedIsTangled(g, rest, v);
      } else if Tangled(g, v) {
        TangledNeverPlaced(g, topo, v);
      }
    }
  }

  // ------------------------------------------------------------------------
  // Build
  // ------------------------------------------------------------------------

  method ValidateNodes(nodes: seq<NodeSpec>) returns (errors: seq<GraphError>, seen: set<NodeId>)
    ensures errors == NodeErrors(nodes, {})
    ensures forall x :: x in seen <==> x in IdsOf(nodes) && x != ""
  {
    errors, seen := [], {};
    for i := 0 to |nodes|
      invariant errors + NodeErrors(nodes[i..], seen) == NodeErrors(nodes, {})
      invariant forall x :: x in seen <==> x != "" && exists k :: 0 <= k < i && nodes[k].id == x
    {
      var id := nodes[i].id;
      assert nodes[i..][0] == nodes[i] && nodes[i..][1..] == nodes[i + 1..];
      if id == "" {
        errors := errors + [GraphError(EmptyNodeId, "")];
      } else if id in seen {
        errors := errors + [GraphError(DuplicateNodeId, id)];
      } else {
        seen := seen + {id};
      }
    }
    forall x ensures x in seen <==> x in IdsOf(nodes) && x != "" {
      if x in IdsOf(nodes) {
        var k :| 0 <= k < |nodes| && IdsOf(nodes)[k] == x;
        assert nodes[k].id == x;
      }
    }
  }

  method ValidateEdges(edges: seq<Edge>, known: set<NodeId>) returns (errors: seq<GraphError>)
    ensures errors == EdgeErrors(edges, known, {})
  {
    errors := [];
    var seen: set<Edge> := {};
    for i := 0 to |edges|
      invariant errors + EdgeErrors(edges[i..], known, seen) == EdgeErrors(edges, known, {})
    {
      var e := edges[i];
      assert edges[i..][0] == e && edges[i..][1..] == edges[i + 1..];
      if e.from !in known || e.to !in known {
        errors := errors + [GraphError(MissingEdgeEndpoint, if e.from in known then e.to else e.from)];
      } else if e.from == e.to {
        errors := errors + [GraphError(SelfLoop, e.from)];
      } else if e in seen {
        errors := errors + [GraphError(DuplicateEdge, "")];
      } else {
        seen := seen + {e};
      }
    }
  }

  ghost predicate ListsEdges(order: seq<NodeId>, preds: seq<seq<NodeId>>, succs: seq<seq<NodeId>>, edges: seq<Edge>) {
    && |preds| == |succs| == |order|
    && (forall i :: 0 <= i < |order| ==> Distinct(preds[i]) && Distinct(succs[i]))
    && (forall i, x :: 0 <= i < |order| ==> (x in succs[i] <==> Edge(order[i], x) in edges))
    && (forall i, x :: 0 <= i < |order| ==> (x in preds[i] <==> Edge(x, order[i]) in edges))
  }

  lemma ListsOneMore(order: seq<NodeId>, preds: seq<seq<NodeId>>, succs: seq<seq<NodeId>>, edges: seq<Edge>, e: Edge)
    requires ListsEdges(order, preds, succs, edges) && Distinct(order)
    requires e !in edges && e.from in order && e.to in order
    ensures var f, t := IndexIn(order, e.from), IndexIn(order, e.to);
            ListsEdges(order, preds[t := preds[t] + [e.from]], succs[f := succs[f] + [e.to]], edges + [e])
  {
  }

  lemma NeighboursListed(order: seq<NodeId>, preds: seq<seq<NodeId>>, succs: seq<seq<NodeId>>, edges: seq<Edge>)
    requires ListsEdges(order, preds, succs, edges)
    ensures |preds| == |succs| == |order|
    ensures forall i :: 0 <= i < |order| ==> Distinct(preds[i]) && Distinct(succs[i])
    ensures forall i, x :: 0 <= i < |order| ==> (x in succs[i] <==> Edge(order[i], x) in edges)
    ensures forall i, x :: 0 <= i < |order| ==> (x in preds[i] <==> Edge(x, order[i]) in edges)
  {
  }

  /** The neighbour lists, filled edge by edge and then sorted. */
  method Adjacency(order: seq<NodeId>, edges: seq<Edge>) returns (preds: seq<seq<NodeId>>, succs: seq<seq<NodeId>>)
    requires Distinct(order) && Distinct(edges)
    requires forall e :: e in edges ==> e.from in order && e.to in order
    ensures |preds| == |succs| == |order|
    ensures forall i :: 0 <= i < |order| ==> IsAdjacency(order[i], preds[i], succs[i], edges)
  {
    preds, succs := seq(|order|, _ => []), seq(|order|, _ => []);
    for k := 0 to |edges|
      invariant ListsEdges(order, preds, succs, edges[..k])
    {
      var e := edges[k];
      assert e in edges && e !in edges[..k];
      assert edges[..k + 1] == edges[..k] + [e];
      ListsOneMore(order, preds, succs, edges[..k], e);
      var f, t := IndexIn(order, e.from), IndexIn(order, e.to);
      succs := succs[f := succs[f] + [e.to]];
      preds := preds[t := preds[t] + [e.from]];
    }
    assert edges[..|edges|] == edges;
    hide ListsEdges, Distinct;
    NeighboursListed(order, preds, succs, edges);
    OrdersAreStrict();
    ghost var preds0, succs0 := preds, succs;
    for i := 0 to |order|
      invariant |preds| == |succs| == |order|
      invariant forall j :: i <= j < |order| ==> preds[j] == preds0[j] && succs[j] == succs0[j]
      invariant forall j :: 0 <= j < i ==> IsAdjacency(order[j], preds[j], succs[j], edges)
    {
      AllComparable(preds[i], []);
      AllComparable(succs[i], []);
      preds := preds[i := Sort(Less, preds[i])];
      succs := succs[i := Sort(Less, succs[i])];
    }
  }

  ghost function TangledErrors(order: seq<NodeId>, g: Graph): seq<GraphError> {
    if order == [] then []
    else (if Tangled(g, order[0]) then [GraphError(CycleDetected, order[0])] else []) + TangledErrors(order[1..], g)
  }

  /** The nodes that Kahn's algorithm did not reach, in input order. */
  method CycleErrors(ids: seq<NodeId>, topo: seq<NodeId>, ghost g: Graph) returns (errors: seq<GraphError>)
    requires forall v :: v in ids ==> (v !in topo <==> Tangled(g, v))
    ensures errors == TangledErrors(ids, g)
    ensures errors == [] <==> forall v :: v in ids ==> v in topo
  {
    errors := [];
    assert ids[0..] == ids;
    hide TangledErrors, Tangled;
    for i := 0 to |ids|
      invariant errors + TangledErrors(ids[i..], g) == TangledErrors(ids, g)
      invariant errors == [] <==> forall k :: 0 <= k < i ==> ids[k] in topo
    {
      assert ids[i] in ids;
      TangledErrorsFrom(ids, i, g);
      if ids[i] !in topo {
        errors := errors + [GraphError(CycleDetected, ids[i])];
      }
    }
    TangledErrorsFrom(ids, |ids|, g);
  }

  lemma TangledErrorsFrom(ids: seq<NodeId>, i: nat, g: Graph)
    requires i <= |ids|
    ensures TangledErrors(ids[i..], g) ==
            if i == |ids| then []
            else (if Tangled(g, ids[i]) then [GraphError(CycleDetected, ids[i])] else []) + TangledErrors(ids[i + 1..], g)
  {
    hide Tangled;
    if i < |ids| { assert ids[i..][1..] == ids[i + 1..]; }
  }

  /** Validation collects every structural error; a graph that passes is
    rejected only for its cycles. */
  method Build(nodes: seq<NodeSpec>, edges: seq<Edge>) returns (r: BuildResult)
    ensures r.dag.Some? <==> r.errors == []
    ensures r.errors == [] <==> WellFormed(nodes, edges) && Acyclic(InputGraph(nodes, edges))
    ensures !WellFormed(nodes, edges) ==>
              r.errors == NodeErrors(nodes, {}) + EdgeErrors(edges, Elements(IdsOf(nodes)) - {""}, {})
    ensures WellFormed(nodes, edges) ==> r.errors == TangledErrors(IdsOf(nodes), InputGraph(nodes, edges))
    ensures r.dag.Some? ==>
              && r.dag.value.Valid() && r.dag.value.specs == nodes
              && r.dag.value.G() == InputGraph(nodes, edges)
  {
    var nodeErrors, known := ValidateNodes(nodes);
    var edgeErrors := ValidateEdges(edges, known);
    var ids := IdsOf(nodes);
    assert known == Elements(ids) - {""};
    NodeErrorsExact(nodes, {});
    EdgeErrorsExact(edges, known, {});
    if nodeErrors + edgeErrors != [] {
      return BuildResult(nodeErrors + edgeErrors, None);
    }
    assert nodeErrors == [] && edgeErrors == [];
    assert known == Elements(ids);
    ghost var g := InputGraph(nodes, edges);
    OrdersAreStrict();
    AllComparable([], edges);
    var sorted := Sort(EdgeLess, edges);
    SortedIsDistinct(EdgeLess, sorted);
    assert Elements(sorted) == Elements(edges);
    var preds, succs := Adjacency(ids, sorted);
    forall i | 0 <= i < |ids|
      ensures Distinct(succs[i]) && forall x :: x in succs[i] <==> Edge(ids[i], x) in sorted
    {
      assert IsAdjacency(ids[i], preds[i], succs[i], sorted);
    }
    assert Graph(Elements(ids), Elements(sorted)) == g;
    var topo := Kahn(ids, sorted, succs);
    KahnLeftovers(g, topo);
    var errors := CycleErrors(ids, topo, g);
    CyclesAreInside(g);
    if errors != [] {
      return BuildResult(errors, None);
    }
    assert Elements(topo) == g.nodes;
    TopoImpliesAcyclic(g, topo);
    return BuildResult([], Some(Dag(ids, nodes, sorted, preds, succs, topo)));
  }

  /** A cycle of a closed graph has a member among its nodes. */
  lemma CyclesAreInside(g: Graph)
    requires Closed(g)
    ensures (exists v :: v in g.nodes && Tangled(g, v)) <==> !Acyclic(g)
  {
    if v :| v in g.nodes && Tangled(g, v) {
      var c :| Below(g, c, c) && Reaches(g, c, v);
    }
    if c :| Below(g, c, c) {
      var u := BelowLastStep(g, c, c);
      ReachesSelf(g, c);
      assert c in g.nodes && Tangled(g, c);
    }
  }

  /** The same graph given in any order is executed in the same order: the
    lexicographically least topological order of the graph. */
  lemma TopoOrderCanonical(a: Dag, b: Dag)
    requires a.Valid() && b.Valid() && a.G() == b.G()
    ensures a.topoOrder == b.topoOrder && a.edges == b.edges
    ensures forall id :: a.Successors(id) == b.Successors(id) && a.Predecessors(id) == b.Predecessors(id)
  {
    GreedyIsUnique(a.G(), a.topoOrder, b.topoOrder);
    OrdersAreStrict();
    forall x ensures x in a.edges <==> x in b.edges {
      assert x in a.G().edges <==> x in b.G().edges;
    }
    SortedUnique(EdgeLess, a.edges, b.edges);
    forall id ensures a.Successors(id) == b.Successors(id) && a.Predecessors(id) == b.Predecessors(id) {
      NeighboursAreEdges(a, id);
      NeighboursAreEdges(b, id);
      NeighboursSorted(a, id);
      NeighboursSorted(b, id);
      SortedUnique(Less, a.Successors(id), b.Successors(id));
      SortedUnique(Less, a.Predecessors(id), b.Predecessors(id));
    }
  }

  lemma NeighboursSorted(d: Dag, id: NodeId)
    requires d.Valid()
    ensures StrictlySorted(Less, d.Successors(id)) && StrictlySorted(Less, d.Predecessors(id))
  {
    var i := IndexIn(d.nodeOrder, id);
    if i < |d.nodeOrder| {
      assert IsAdjacency(d.nodeOrder[i], d.preds[i], d.succs[i], d.edges);
    }
  }

  lemma TopoOrderLeast(d: Dag, other: seq<NodeId>)
    requires d.Valid() && IsTopo(d.G(), other)
    ensures LexAtMost(d.topoOrder, other)
  {
    GreedyIsLexLeast(d.G(), d.topoOrder, other);
  }
}
