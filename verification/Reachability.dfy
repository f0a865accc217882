/** Reachability and the scheduler-contract checks (engine/core/src/dag.cpp). */
module Reachability {
  import opened Ids
  import opened Graphs
  import opened Sorting
  import opened Dags

  /** A set that contains start and is closed under successors contains
    everything reachable from start. */
  lemma {:induction false} ClosureCoversPath(g: Graph, s: set<NodeId>, p: seq<NodeId>)
    requires IsPath(g, p) && p[0] in s
    requires forall e :: e in g.edges && e.from in s ==> e.to in s
    ensures p[|p| - 1] in s
    decreases |p|
  {
    if |p| > 1 {
      assert Edge(p[0], p[1]) in g.edges;
      ClosureCoversPath(g, s, p[1..]);
    }
  }

  /** Depth-first search with an explicit stack. */
  method ReachableFrom(d: Dag, start: NodeId) returns (r: seq<NodeId>)
    requires d.Valid()
    ensures StrictlySorted(Less, r)
    ensures forall x :: x in r <==> start in d.nodeOrder && Reaches(d.G(), start, x)
  {
    if d.IndexOf(start) == None {
      return [];
    }
    ghost var g := d.G();
    var visited: set<NodeId> := {};
    var stack := [start];
    ReachesSelf(g, start);
    while stack != []
      invariant forall x :: x in visited || x in stack ==> x in g.nodes && Reaches(g, start, x)
      invariant start in visited || start in stack
      invariant forall e :: e in g.edges && e.from in visited ==> e.to in visited || e.to in stack
      decreases g.nodes - visited, |stack|
    {
      var current, below := stack[|stack| - 1], stack[..|stack| - 1];
      assert forall x :: x in stack <==> x == current || x in below;
      stack := below;
      if current !in visited {
        visited := visited + {current};
        var succs := d.Successors(current);
        NeighboursAreEdges(d, current);
        forall x | x in succs ensures x in g.nodes && Reaches(g, start, x) {
          assert Edge(current, x) in g.edges;
          EdgeIsBelow(g, current, x);
          ReachesTransitive(g, start, current, x);
        }
        stack := below + succs;
        assert forall e :: e in g.edges && e.from == current ==> Edge(current, e.to) in d.edges;
      }
    }
    forall x | Reaches(g, start, x) ensures x in visited {
      var p :| PathBetween(g, p, start, x);
      ClosureCoversPath(g, visited, p);
    }
    r := SortedKeys(visited);
  }

  datatype Problem = WrongTriggerCount(n: nat) | NotReachable(id: NodeId)

  function TriggersOf(specs: seq<NodeSpec>): (t: seq<NodeId>)
    ensures forall x :: x in t <==> exists i :: 0 <= i < |specs| && specs[i].kind.Trigger? && specs[i].id == x
  {
    if specs == [] then []
    else
      var rest := TriggersOf(specs[1..]);
      assert specs == [specs[0]] + specs[1..];
      if specs[0].kind.Trigger? then [specs[0].id] + rest else rest
  }

  /** A workflow is executable exactly when it has one trigger and every node
    is reachable from it; otherwise the problems name what is wrong. */
  method ExecutionProblems(d: Dag) returns (problems: seq<Problem>)
    requires d.Valid()
    ensures |TriggersOf(d.specs)| != 1 ==> problems == [WrongTriggerCount(|TriggersOf(d.specs)|)]
    ensures |TriggersOf(d.specs)| == 1 ==>
              forall p :: p in problems <==>
                p.NotReachable? && p.id in d.nodeOrder && !Reaches(d.G(), TriggersOf(d.specs)[0], p.id)
  {
    var triggers := TriggersOf(d.specs);
    if |triggers| != 1 {
      return [WrongTriggerCount(|triggers|)];
    }
    assert triggers[0] in triggers;
    var reached := ReachableFrom(d, triggers[0]);
    problems := [];
    for i := 0 to |d.nodeOrder|
      invariant forall p :: p in problems <==> p.NotReachable? && p.id in d.nodeOrder[..i] && p.id !in reached
    {
      assert d.nodeOrder[..i + 1] == d.nodeOrder[..i] + [d.nodeOrder[i]];
      if d.nodeOrder[i] !in reached {
        problems := problems + [NotReachable(d.nodeOrder[i])];
      }
    }
    assert d.nodeOrder[..|d.nodeOrder|] == d.nodeOrder;
  }
}
