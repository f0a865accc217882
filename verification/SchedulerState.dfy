/** SchedulerState itself (engine/core/src/state_machine.cpp): the fields the
  C++ class mutates, and methods that compute what StateMachines says. */
module SchedulerStates {
  import opened Ids
  import opened Graphs
  import opened Sorting
  import opened Dags
  import opened StateMachines

  /** A persisted node row, as far as reconstruction reads it. */
  datatype NodeRow = NodeRow(nodeId: NodeId, status: NodeState)

  function LastStatus(rows: seq<NodeRow>, id: NodeId): NodeState {
    if rows == [] then Blocked
    else if rows[|rows| - 1].nodeId == id then Restore(rows[|rows| - 1].status)
    else LastStatus(rows[..|rows| - 1], id)
  }

  ghost function RestoredNodes(g: Graph, rows: seq<NodeRow>): Nodes {
    map v | v in g.nodes :: LastStatus(rows, v)
  }

  ghost function Unfinished(nodes: Nodes): set<NodeId> {
    set v | v in nodes && !nodes[v].Terminal()
  }

  /** What one call of the recursive cancellation does to the node states. */
  ghost predicate CancelEffect(g: Graph, before: Nodes, after: Nodes, id: NodeId) {
    && after.Keys == before.Keys
    && (forall v :: v in before ==>
          after[v] == before[v] || (after[v].Canceled? && CancelTarget(g, before, id, v)))
    && (forall e :: e in g.edges && e.to in before && (e.from == id || NewlyCanceled(before, after, e.from)) ==>
          after[e.to].Terminal())
  }

  ghost predicate NewlyCanceled(before: Nodes, after: Nodes, v: NodeId) {
    v in before && v in after && after[v] != before[v]
  }

  lemma {:induction false} CancelEffectCoversPath(g: Graph, before: Nodes, after: Nodes, id: NodeId, p: seq<NodeId>)
    requires CancelEffect(g, before, after, id)
    requires |p| > 1 && CancelPath(g, before, id, p[|p| - 1], p)
    ensures NewlyCanceled(before, after, p[|p| - 1])
    decreases |p|
  {
    assert Edge(p[|p| - 2], p[|p| - 1]) in g.edges;
    if |p| > 2 {
      var front := p[..|p| - 1];
      assert CancelPath(g, before, id, front[|front| - 1], front);
      CancelEffectCoversPath(g, before, after, id, front);
    }
  }

  /** The recursion cancels exactly the nodes reached through unfinished ones. */
  lemma CancelEffectIsCancelFrom(g: Graph, before: Nodes, after: Nodes, id: NodeId)
    requires CancelEffect(g, before, after, id)
    ensures after == CancelFrom(g, before, id)
  {
    forall v | v in before && CancelTarget(g, before, id, v) ensures after[v].Canceled? {
      var p :| CancelPath(g, before, id, v, p);
      CancelEffectCoversPath(g, before, after, id, p);
    }
  }

  /** What is cancellable from a successor after it was canceled itself was
    cancellable before. */
  lemma CancelTargetWidens(g: Graph, before: Nodes, mid: Nodes, id: NodeId, succ: NodeId, v: NodeId)
    requires Edge(id, succ) in g.edges && succ in before && !before[succ].Terminal()
    requires mid.Keys == before.Keys
    requires forall x :: x in mid && !mid[x].Terminal() ==> mid[x] == before[x]
    requires CancelTarget(g, mid, succ, v)
    ensures CancelTarget(g, before, id, v)
  {
    var p :| CancelPath(g, mid, succ, v, p);
    var q := [id] + p;
    assert CancelPath(g, before, id, v, q);
  }

  /** One successor handled: canceled, and then the recursion below it. */
  lemma CancelEffectStep(g: Graph, before: Nodes, mid: Nodes, after: Nodes, id: NodeId, succ: NodeId)
    requires Edge(id, succ) in g.edges && mid.Keys == before.Keys && succ in mid && !mid[succ].Terminal()
    requires forall v :: v in before ==>
               mid[v] == before[v] || (mid[v].Canceled? && CancelTarget(g, before, id, v))
    requires CancelEffect(g, mid[succ := Canceled], after, succ)
    ensures forall v :: v in before ==>
              after[v] == before[v] || (after[v].Canceled? && CancelTarget(g, before, id, v))
  {
    var mid' := mid[succ := Canceled];
    forall v | v in before && after[v] != before[v] ensures after[v].Canceled? && CancelTarget(g, before, id, v) {
      if after[v] == mid'[v] {
        if v == succ {
          assert CancelPath(g, before, id, succ, [id, succ]);
        }
      } else {
        CancelTargetWidens(g, before, mid', id, succ, v);
      }
    }
  }

  lemma CancelEffectStepTerminal(g: Graph, before: Nodes, mid: Nodes, after: Nodes, succ: NodeId, e: Edge)
    requires mid.Keys == before.Keys && succ in mid && !mid[succ].Terminal()
    requires forall v :: v in before && mid[v] != before[v] ==> mid[v].Canceled?
    requires forall e :: e in g.edges && e.to in before && NewlyCanceled(before, mid, e.from) ==> mid[e.to].Terminal()
    requires CancelEffect(g, mid[succ := Canceled], after, succ)
    requires e in g.edges && e.to in before && NewlyCanceled(before, after, e.from)
    ensures after[e.to].Terminal()
  {
    var mid' := mid[succ := Canceled];
    if e.from != succ && !NewlyCanceled(mid', after, e.from) {
      assert NewlyCanceled(before, mid, e.from);
      assert mid'[e.to].Terminal();
    }
  }

  class SchedulerState {
    const dag: Dag
    var runState: RunState
    var nodeStates: Nodes
    var depCounts: map<NodeId, int>
    var completed: set<NodeId>

    ghost function Value(): Model
      reads this
    {
      Model(runState, nodeStates, depCounts, completed)
    }

    ghost predicate Valid()
      reads this
    {
      && dag.Valid()
      && (runState.RunQueued? ==> Value() == InitialModel(dag.G()))
      && (!runState.RunQueued? ==> Sound(dag.G(), Value()))
    }

    constructor (dag: Dag)
      requires dag.Valid()
      ensures Valid() && this.dag == dag && Value() == InitialModel(dag.G())
    {
      this.dag := dag;
      runState := RunQueued;
      nodeStates, depCounts, completed := map[], map[], {};
      new;
      hide Dag.Valid, Dag.Predecessors;
      DagShape(dag);
      for i := 0 to |dag.nodeOrder|
        invariant runState == RunQueued && completed == {} && this.dag == dag
        invariant forall v :: v in nodeStates <==> v in dag.nodeOrder[..i]
        invariant forall v :: v in depCounts <==> v in dag.nodeOrder[..i]
        invariant forall v :: v in nodeStates ==> nodeStates[v] == Blocked
        invariant forall v :: v in depCounts ==> depCounts[v] == |dag.Predecessors(v)|
      {
        var id := dag.nodeOrder[i];
        assert dag.nodeOrder[..i + 1] == dag.nodeOrder[..i] + [id];
        nodeStates := nodeStates[id := Blocked];
        depCounts := depCounts[id := |dag.Predecessors(id)|];
      }
      assert dag.nodeOrder[..|dag.nodeOrder|] == dag.nodeOrder;
      ghost var g := dag.G();
      forall v ensures |dag.Predecessors(v)| == PendingCount(g, AllBlocked(g), v) {
        PredecessorCount(dag, AllBlocked(g), v);
      }
      assert nodeStates == AllBlocked(dag.G());
      assert depCounts == InitialModel(dag.G()).deps;
    }

    function NodeStateOf(id: NodeId): Option<NodeState>
      reads this
    {
      if id in nodeStates then Some(nodeStates[id]) else None
    }

    /** The nodes a dispatcher may pick, in node order. */
    method ReadyNodes() returns (r: seq<NodeId>)
      requires Valid()
      ensures Distinct(r) && forall v :: v in r <==> v in nodeStates && nodeStates[v].Ready?
    {
      ValidKeys();
      DagDistinct(dag);
      hide Dag.Valid, Sound, InitialModel;
      r := [];
      for i := 0 to |dag.nodeOrder|
        invariant Distinct(r) && forall v :: v in r <==> v in dag.nodeOrder[..i] && nodeStates[v].Ready?
      {
        var id := dag.nodeOrder[i];
        assert id !in dag.nodeOrder[..i] && dag.nodeOrder[..i + 1] == dag.nodeOrder[..i] + [id];
        if nodeStates[id] == Ready {
          r := r + [id];
        }
      }
      assert dag.nodeOrder[..|dag.nodeOrder|] == dag.nodeOrder;
    }

    /** QUEUED to RUNNING: the roots become ready. */
    method StartRun()
      requires Valid()
      modifies this
      ensures Valid()
      ensures Value() == if old(runState).RunQueued? then StartFrom(dag.G(), AllBlocked(dag.G())) else old(Value())
    {
      hide Dag.Valid, Sound, StartFrom, PendingCount;
      if runState != RunQueued {
        return;
      }
      ghost var g, m := dag.G(), InitialModel(dag.G());
      ValidKeys();
      runState := RunRunning;
      for i := 0 to |dag.nodeOrder|
        invariant runState == RunRunning && depCounts == m.deps && completed == {}
        invariant nodeStates.Keys == m.nodes.Keys
        invariant forall v :: v in nodeStates ==>
                    nodeStates[v] == if v in dag.nodeOrder[..i] && depCounts[v] == 0 then Ready else Blocked
      {
        var id := dag.nodeOrder[i];
        assert dag.nodeOrder[..i + 1] == dag.nodeOrder[..i] + [id];
        if depCounts[id] == 0 {
          nodeStates := nodeStates[id := Ready];
        }
      }
      assert dag.nodeOrder[..|dag.nodeOrder|] == dag.nodeOrder;
      StartedFromRoots(g, Value());
      InitialSound(g);
    }

    /** What the four one-node transitions do when node id is in state from. */
    ghost predicate Moved(before: Model, id: NodeId, from: NodeState, to: NodeState)
      reads this
    {
      Value() == if id in before.nodes && before.nodes[id] == from then Move(before, id, to) else before
    }

    /** READY to DISPATCHED. */
    method DispatchNode(id: NodeId)
      requires Valid()
      modifies this
      ensures Valid() && Moved(old(Value()), id, Ready, Dispatched)
    {
      if id !in nodeStates || nodeStates[id] != Ready {
        return;
      }
      MoveKeeps(dag.G(), Value(), id, Dispatched);
      nodeStates := nodeStates[id := Dispatched];
      hide Dag.Valid, Sound;
    }

    /** DISPATCHED to RUNNING. */
    method StartNode(id: NodeId)
      requires Valid()
      modifies this
      ensures Valid() && Moved(old(Value()), id, Dispatched, Running)
    {
      if id !in nodeStates || nodeStates[id] != Dispatched {
        return;
      }
      MoveKeeps(dag.G(), Value(), id, Running);
      nodeStates := nodeStates[id := Running];
      hide Dag.Valid, Sound;
    }

    /** An in-flight node whose lease expired becomes ready again. */
    method AbandonNode(id: NodeId) returns (applied: bool)
      requires Valid()
      modifies this
      ensures Valid() && applied == (id in old(nodeStates) && old(nodeStates)[id].InFlight())
      ensures Value() == if applied then Move(old(Value()), id, Ready) else old(Value())
    {
      if id !in nodeStates || !nodeStates[id].InFlight() {
        return false;
      }
      MoveKeeps(dag.G(), Value(), id, Ready);
      nodeStates := nodeStates[id := Ready];
      hide Dag.Valid, Sound;
      return true;
    }

    /** A running node whose attempt failed is parked for its backoff. */
    method RetryWaitNode(id: NodeId) returns (applied: bool)
      requires Valid()
      modifies this
      ensures Valid() && applied == (id in old(nodeStates) && old(nodeStates)[id].Running?)
      ensures Value() == if applied then Move(old(Value()), id, RetryWait) else old(Value())
    {
      if id !in nodeStates || nodeStates[id] != Running {
        return false;
      }
      MoveKeeps(dag.G(), Value(), id, RetryWait);
      nodeStates := nodeStates[id := RetryWait];
      hide Dag.Valid, Sound;
      return true;
    }

    /** A parked node becomes ready again. */
    method ReadyFromRetry(id: NodeId) returns (applied: bool)
      requires Valid()
      modifies this
      ensures Valid() && applied == (id in old(nodeStates) && old(nodeStates)[id].RetryWait?)
      ensures Value() == if applied then Move(old(Value()), id, Ready) else old(Value())
    {
      if id !in nodeStates || nodeStates[id] != RetryWait {
        return false;
      }
      MoveKeeps(dag.G(), Value(), id, Ready);
      nodeStates := nodeStates[id := Ready];
      hide Dag.Valid, Sound;
      return true;
    }

    method UnlockOne(succ: NodeId) returns (ready: bool)
      requires succ in nodeStates && succ in depCounts && depCounts[succ] > 0
      modifies this`nodeStates, this`depCounts
      ensures depCounts == old(depCounts)[succ := old(depCounts)[succ] - 1]
      ensures ready == (depCounts[succ] == 0 && old(nodeStates)[succ].Blocked?)
      ensures nodeStates == if ready then old(nodeStates)[succ := Ready] else old(nodeStates)
    {
      ready := false;
      if depCounts[succ] > 0 {
        depCounts := depCounts[succ := depCounts[succ] - 1];
      }
      if depCounts[succ] == 0 && nodeStates[succ] == Blocked {
        nodeStates := nodeStates[succ := Ready];
        ready := true;
      }
    }

    /** Successors lose one pending predecessor each; those with none left
      become ready. */
    method UnlockSuccessors(succs: seq<NodeId>) returns (newlyReady: seq<NodeId>)
      requires Distinct(succs) && nodeStates.Keys == depCounts.Keys
      requires forall v :: v in succs ==> v in depCounts && depCounts[v] > 0
      modifies this`nodeStates, this`depCounts
      ensures nodeStates.Keys == depCounts.Keys == old(nodeStates).Keys
      ensures forall v :: v in depCounts ==>
                depCounts[v] == old(depCounts)[v] - (if v in succs then 1 else 0)
      ensures forall v :: v in nodeStates ==>
                nodeStates[v] == if v in succs && old(nodeStates)[v].Blocked? && depCounts[v] == 0
                                 then Ready else old(nodeStates)[v]
      ensures Distinct(newlyReady) && forall v :: v in newlyReady <==> v in nodeStates && nodeStates[v] != old(nodeStates)[v]
    {
      hide Distinct, Elements, Differ;
      ghost var nodes0, deps0, done: set<NodeId> := nodeStates, depCounts, {};
      newlyReady := [];
      ElementsOfNone();
      NoneDiffer(nodes0);
      for i := 0 to |succs|
        invariant nodeStates.Keys == depCounts.Keys == nodes0.Keys
        invariant done == Elements(succs[..i])
        invariant forall v :: v in depCounts ==> depCounts[v] == deps0[v] - (if v in done then 1 else 0)
        invariant forall v :: v in nodeStates ==>
                    nodeStates[v] == if v in done && nodes0[v].Blocked? && depCounts[v] == 0 then Ready else nodes0[v]
        invariant Distinct(newlyReady) && Elements(newlyReady) == Differ(nodes0, nodeStates)
      {
        var succ := succs[i];
        ElementsOfPrefix(succs, i);
        done := done + {succ};
        ghost var nodes := nodeStates;
        var ready := UnlockOne(succ);
        if ready {
          OneMoreDiffers(nodes0, nodes, succ, Ready);
          ElementsAppend(newlyReady, succ);
          newlyReady := newlyReady + [succ];
        }
      }
      assert succs[..|succs|] == succs;
      ElementsOf(succs);
      ElementsOf(newlyReady);
      DifferMeans(nodes0, nodeStates);
    }

    /** Cancels depth first everything below id that is not terminal. */
    method MarkCanceledTransitive(id: NodeId, canceled0: seq<NodeId>) returns (canceled: seq<NodeId>)
      requires dag.Valid() && nodeStates.Keys == dag.G().nodes
      modifies this`nodeStates
      decreases Unfinished(nodeStates)
      ensures CancelEffect(dag.G(), old(nodeStates), nodeStates, id)
      ensures canceled0 <= canceled && (Distinct(canceled0) ==> Distinct(canceled))
      ensures forall v :: v in canceled <==> v in canceled0 || NewlyCanceled(old(nodeStates), nodeStates, v)
    {
      hide Dag.Valid, Dag.Successors, Dag.G, CancelTarget, CancelEffect;
      ghost var g, before := dag.G(), nodeStates;
      canceled := canceled0;
      SuccessorsInGraph(dag, id);
      DagShape(dag);
      var succs := dag.Successors(id);
      for i := 0 to |succs|
        invariant nodeStates.Keys == before.Keys
        invariant forall v :: v in before ==>
                    nodeStates[v] == before[v] || (nodeStates[v].Canceled? && CancelTarget(g, before, id, v))
        invariant forall e :: e in g.edges && e.to in before && NewlyCanceled(before, nodeStates, e.from) ==>
                    nodeStates[e.to].Terminal()
        invariant forall k :: 0 <= k < i ==> nodeStates[succs[k]].Terminal()
        invariant canceled0 <= canceled && (Distinct(canceled0) ==> Distinct(canceled))
        invariant forall v :: v in canceled <==> v in canceled0 || NewlyCanceled(before, nodeStates, v)
      {
        var succ := succs[i];
        if !nodeStates[succ].Terminal() {
          ghost var mid := nodeStates;
          nodeStates := nodeStates[succ := Canceled];
          if succ !in canceled {
            canceled := canceled + [succ];
          }
          assert Unfinished(nodeStates) < Unfinished(mid) by { assert succ in Unfinished(mid); }
          assert Unfinished(mid) <= Unfinished(before);
          canceled := MarkCanceledTransitive(succ, canceled);
          CancelEffectKeeps(g, mid[succ := Canceled], nodeStates, succ);
          CancelEffectStep(g, before, mid, nodeStates, id, succ);
          forall e | e in g.edges && e.to in before && NewlyCanceled(before, nodeStates, e.from)
            ensures nodeStates[e.to].Terminal()
          {
            CancelEffectStepTerminal(g, before, mid, nodeStates, succ, e);
          }
        }
      }
      CancelEffectFromParts(g, before, nodeStates, id, succs);
    }

    /** RUNNING to SUCCEEDED or FAILED. A success unlocks successors and returns
      those that became ready; a failure returns the nodes it canceled. A
      repeated completion changes nothing. */
    method CompleteNode(id: NodeId, succeeded: bool) returns (changed: seq<NodeId>)
      requires Valid()
      modifies this
      ensures Valid()
      ensures var m := old(Value());
              Value() == if id in m.nodes && m.nodes[id].Running?
                         then (if succeeded then Succeed(dag.G(), m, id) else Break(dag.G(), m, id, Failed))
                         else m
      ensures forall v :: v in changed <==>
                v in nodeStates && v != id && nodeStates[v] != old(nodeStates)[v]
      ensures Distinct(changed)
    {
      hide Dag.Valid, Dag.G, Sound, InitialModel, Succeed, CancelEffect, CancelFrom;
      ghost var g, m := dag.G(), Value();
      NotStartedIsBlocked(g, m, id);
      if id in completed || id !in nodeStates || nodeStates[id] != Running {
        CompletedNotRunning(g, m, id);
        return [];
      }
      completed := completed + {id};
      if succeeded {
        SucceedSetup(dag, m, id);
        nodeStates := nodeStates[id := Succeeded];
        changed := UnlockSuccessors(dag.Successors(id));
        SucceedFromCounts(g, m, id, nodeStates, depCounts);
        SucceedKeeps(g, m, id);
      } else {
        SoundKeys(g, m);
        nodeStates := nodeStates[id := Failed];
        changed := MarkCanceledTransitive(id, []);
        CancelEffectIsCancelFrom(g, m.nodes[id := Failed], nodeStates, id);
        CancelEffectKeeps(g, m.nodes[id := Failed], nodeStates, id);
        BreakKeeps(g, m, id, Failed);
      }
    }

    /** What fail_node and dead_letter_node do: a logical success is never
      overwritten, and a second failure changes nothing; any other node, even a
      canceled one, takes the state s. */
    ghost predicate Broken(m: Model, id: NodeId, s: NodeState)
      reads this
    {
      Value() == if id in m.nodes && !m.nodes[id].Succeeded? && id !in m.completed then Break(dag.G(), m, id, s) else m
    }

    /** The common part of both. */
    method BreakNode(id: NodeId, s: NodeState) returns (canceled: seq<NodeId>)
      requires Valid() && HasFailed(s)
      modifies this
      ensures Broken(old(Value()), id, s) && nodeStates.Keys == old(nodeStates.Keys)
      ensures (id in old(nodeStates) ==> old(nodeStates)[id].Live() || id in old(completed)) && !runState.RunQueued? ==> Valid()
      ensures id in old(nodeStates) && old(nodeStates)[id].InFlight() ==>
                Valid() && Value() == Break(dag.G(), old(Value()), id, s)
      ensures forall v :: v in canceled <==>
                v in nodeStates && v != id && nodeStates[v] != old(nodeStates)[v]
      ensures Distinct(canceled)
    {
      hide Dag.Valid, Dag.G, Sound, InitialModel, CancelEffect, CancelFrom;
      ghost var g, m := dag.G(), Value();
      NotStartedIsBlocked(g, m, id);
      ValidKeys();
      KeysInGraph();
      LiveNotCompleted(g, m, id);
      if id !in nodeStates || nodeStates[id] == Succeeded || id in completed {
        return [];
      }
      nodeStates := nodeStates[id := s];
      completed := completed + {id};
      canceled := MarkCanceledTransitive(id, []);
      CancelEffectIsCancelFrom(g, m.nodes[id := s], nodeStates, id);
      CancelEffectKeeps(g, m.nodes[id := s], nodeStates, id);
      if Sound(g, m) && m.nodes[id].Live() { BreakKeeps(g, m, id, s); }
    }

    /** The node fails, and what is below it is canceled. */
    method FailNode(id: NodeId) returns (canceled: seq<NodeId>)
      requires Valid()
      modifies this
      ensures Broken(old(Value()), id, Failed) && nodeStates.Keys == old(nodeStates.Keys)
      ensures (id in old(nodeStates) ==> old(nodeStates)[id].Live() || id in old(completed)) && !runState.RunQueued? ==> Valid()
      ensures id in old(nodeStates) && old(nodeStates)[id].InFlight() ==>
                Valid() && Value() == Break(dag.G(), old(Value()), id, Failed)
      ensures forall v :: v in canceled <==>
                v in nodeStates && v != id && nodeStates[v] != old(nodeStates)[v]
      ensures Distinct(canceled)
    {
      canceled := BreakNode(id, Failed);
    }

    /** The node is dead-lettered, and what is below it is canceled. */
    method DeadLetterNode(id: NodeId) returns (canceled: seq<NodeId>)
      requires Valid()
      modifies this
      ensures Broken(old(Value()), id, DeadLettered) && nodeStates.Keys == old(nodeStates.Keys)
      ensures (id in old(nodeStates) ==> old(nodeStates)[id].Live() || id in old(completed)) && !runState.RunQueued? ==> Valid()
      ensures id in old(nodeStates) && old(nodeStates)[id].InFlight() ==>
                Valid() && Value() == Break(dag.G(), old(Value()), id, DeadLettered)
      ensures forall v :: v in canceled <==>
                v in nodeStates && v != id && nodeStates[v] != old(nodeStates)[v]
      ensures Distinct(canceled)
    {
      canceled := BreakNode(id, DeadLettered);
    }

    /** Every node that is not terminal becomes CANCELED. */
    method CancelRun() returns (canceled: seq<NodeId>)
      requires Valid()
      modifies this
      ensures Valid() && Value() == CancelAll(old(Value()))
      ensures Distinct(canceled) && forall v :: v in canceled <==> v in nodeStates && !old(nodeStates)[v].Terminal()
    {
      hide Dag.Valid, Dag.G, Sound, InitialModel, StrictlySorted;
      CancelAllSound(dag.G(), Value());
      var ids := SortedKeys(nodeStates.Keys);
      IdsDistinct(ids);
      canceled := CancelUnfinished(ids);
      runState := RunCanceled;
      assert nodeStates == CancelAll(old(Value())).nodes;
    }

    method CancelUnfinished(ids: seq<NodeId>) returns (canceled: seq<NodeId>)
      requires Distinct(ids) && forall v :: v in ids <==> v in nodeStates
      modifies this`nodeStates
      ensures nodeStates.Keys == old(nodeStates).Keys
      ensures forall v :: v in nodeStates ==>
                nodeStates[v] == if old(nodeStates)[v].Terminal() then old(nodeStates)[v] else Canceled
      ensures Distinct(canceled) && forall v :: v in canceled <==> v in nodeStates && !old(nodeStates)[v].Terminal()
    {
      ghost var before := nodeStates;
      canceled := [];
      for i := 0 to |ids|
        invariant nodeStates.Keys == before.Keys
        invariant forall v :: v in nodeStates ==>
                    nodeStates[v] == if v in ids[..i] && !before[v].Terminal() then Canceled else before[v]
        invariant Distinct(canceled) && forall v :: v in canceled <==> v in ids[..i] && !before[v].Terminal()
      {
        var id := ids[i];
        assert id in ids && ids[..i + 1] == ids[..i] + [id];
        if !nodeStates[id].Terminal() {
          nodeStates := nodeStates[id := Canceled];
          canceled := canceled + [id];
        }
      }
      assert ids[..|ids|] == ids;
    }

    method AllNodesTerminal() returns (all: bool)
      requires Valid()
      ensures all == AllTerminal(nodeStates)
    {
      hide Dag.Valid, Sound, InitialModel;
      ValidKeys();
      for i := 0 to |dag.nodeOrder|
        invariant forall k :: 0 <= k < i ==> nodeStates[dag.nodeOrder[k]].Terminal()
      {
        assert dag.nodeOrder[i] in nodeStates;
        if !nodeStates[dag.nodeOrder[i]].Terminal() {
          return false;
        }
      }
      return true;
    }

    /** Any failed node makes the run FAILED; otherwise anything not succeeded
      makes it CANCELED. A terminal run keeps its state. */
    method FinalizeRun()
      requires Valid()
      modifies this`runState
      ensures !old(runState).RunQueued? ==> Valid()
      ensures runState == if old(runState).RunRunning? || old(runState).RunQueued? then Verdict(nodeStates) else old(runState)
    {
      hide Dag.Valid, Dag.G, Sound, InitialModel;
      if runState == RunSucceeded || runState == RunFailed || runState == RunCanceled {
        return;
      }
      ghost var g, m := dag.G(), Value();
      ValidKeys();
      var anyFailed, anyOther := false, false;
      for i := 0 to |dag.nodeOrder|
        invariant anyFailed <==> (exists k :: 0 <= k < i && HasFailed(nodeStates[dag.nodeOrder[k]]))
        invariant anyFailed || anyOther <==> (exists k :: 0 <= k < i && !nodeStates[dag.nodeOrder[k]].Succeeded?)
      {
        assert dag.nodeOrder[i] in nodeStates;
        var s := nodeStates[dag.nodeOrder[i]];
        if HasFailed(s) {
          anyFailed := true;
        } else if !s.Succeeded? {
          anyOther := true;
        }
      }
      VerdictInOrder(dag.nodeOrder, nodeStates);
      runState := if anyFailed then RunFailed else if anyOther then RunCanceled else RunSucceeded;
      if Sound(g, m) { SoundForAnyRunState(g, m, runState); }
    }

    /** Rebuilds the state from persisted rows, whatever it was before; only
      the completed set of earlier calls is kept. The returned count is the
      number of nodes still to be driven. */
    method Reconstruct(rows: seq<NodeRow>) returns (nonterminal: nat)
      requires Valid()
      modifies this
      ensures var m := StartFrom(dag.G(), RestoredNodes(dag.G(), rows));
              Value() == m.(completed := old(completed) + m.completed)
      ensures InOrder(dag.G(), RestoredNodes(dag.G(), rows)) && old(completed) == {} ==> Valid()
      ensures nonterminal == |Unfinished(RestoredNodes(dag.G(), rows))|
    {
      ghost var g := dag.G();
      ghost var target := RestoredNodes(g, rows);
      ValidKeys();
      runState := RunRunning;
      RestoreStates(rows);
      CountRemaining();
      nonterminal := ResumeBlocked();
      if InOrder(g, target) && old(completed) == {} {
        assert completed == CompletedIn(target);
        StartFromSound(g, target);
      }
    }

    method RestoreStates(rows: seq<NodeRow>)
      requires dag.Valid() && nodeStates.Keys == Elements(dag.nodeOrder)
      modifies this`nodeStates, this`completed
      ensures nodeStates == RestoredNodes(dag.G(), rows) && completed == old(completed) + CompletedIn(nodeStates)
    {
      hide Dag.Valid;
      var restored: Nodes := map[];
      for i := 0 to |rows|
        invariant nodeStates == old(nodeStates) && completed == old(completed)
        invariant forall v :: LastStatus(rows[..i], v) == if v in restored then restored[v] else Blocked
      {
        assert rows[..i + 1][..i] == rows[..i];
        restored := restored[rows[i].nodeId := Restore(rows[i].status)];
      }
      assert rows[..|rows|] == rows;
      for i := 0 to |dag.nodeOrder|
        invariant nodeStates.Keys == Elements(dag.nodeOrder)
        invariant forall v :: v in dag.nodeOrder[..i] ==> nodeStates[v] == LastStatus(rows, v)
        invariant forall v :: v in completed <==> v in old(completed) || (v in dag.nodeOrder[..i] && IsCompletion(nodeStates[v]))
      {
        var id := dag.nodeOrder[i];
        assert dag.nodeOrder[..i + 1] == dag.nodeOrder[..i] + [id];
        var st := if id in restored then restored[id] else Blocked;
        nodeStates := nodeStates[id := st];
        if IsCompletion(st) {
          completed := completed + {id};
        }
      }
      assert dag.nodeOrder[..|dag.nodeOrder|] == dag.nodeOrder;
    }

    /** Dependency counters re-derived from the restored predecessor states. */
    method CountRemaining()
      requires dag.Valid() && nodeStates.Keys == depCounts.Keys == Elements(dag.nodeOrder)
      modifies this`depCounts
      ensures depCounts == CountDeps(dag.G(), nodeStates)
    {
      ghost var g, done: set<NodeId> := dag.G(), {};
      DagDistinct(dag);
      ElementsOfNone();
      hide Dag.Valid, Dag.G, Elements, Distinct, PendingCount, CountDeps;
      for i := 0 to |dag.nodeOrder|
        invariant depCounts.Keys == nodeStates.Keys && done == Elements(dag.nodeOrder[..i])
        invariant forall v :: v in done && v in depCounts ==> depCounts[v] == PendingCount(g, nodeStates, v)
      {
        var id := dag.nodeOrder[i];
        ElementsOf(dag.nodeOrder);
        ElementsOfPrefix(dag.nodeOrder, i);
        var remaining := RemainingDeps(id);
        depCounts := depCounts[id := remaining];
        done := done + {id};
      }
      assert dag.nodeOrder[..|dag.nodeOrder|] == dag.nodeOrder;
      AllCounted(g, nodeStates, depCounts);
    }

    method RemainingDeps(id: NodeId) returns (remaining: int)
      requires dag.Valid() && nodeStates.Keys == Elements(dag.nodeOrder)
      ensures remaining == PendingCount(dag.G(), nodeStates, id)
    {
      hide Dag.Valid, Dag.Predecessors;
      PredecessorsInGraph(dag, id);
      DagShape(dag);
      var preds := dag.Predecessors(id);
      ghost var pending: set<NodeId> := {};
      remaining := 0;
      for i := 0 to |preds|
        invariant remaining == |pending|
        invariant forall u :: u in pending <==> u in preds[..i] && !nodeStates[u].Succeeded?
      {
        assert preds[i] in preds && preds[i] !in preds[..i] && preds[..i + 1] == preds[..i] + [preds[i]];
        if nodeStates[preds[i]] != Succeeded {
          pending := pending + {preds[i]};
          remaining := remaining + 1;
        }
      }
      assert preds[..|preds|] == preds;
      assert pending == Pending(dag.G(), nodeStates, id);
    }

    /** Blocked nodes whose predecessors are all satisfied become ready. */
    method ResumeBlocked() returns (nonterminal: nat)
      requires dag.Valid() && nodeStates.Keys == depCounts.Keys == Elements(dag.nodeOrder)
      requires depCounts == CountDeps(dag.G(), nodeStates)
      modifies this`nodeStates
      ensures nodeStates == Unblock(dag.G(), old(nodeStates))
      ensures nonterminal == |Unfinished(old(nodeStates))|
    {
      hide Dag.Valid, Dag.G, PendingCount, CountDeps, Unblock, Elements, Distinct, OpenAmong;
      ghost var before, done: set<NodeId> := nodeStates, {};
      DagDistinct(dag);
      ElementsOfNone();
      NoneOpen(before);
      nonterminal := 0;
      for i := 0 to |dag.nodeOrder|
        invariant nodeStates.Keys == before.Keys && done == Elements(dag.nodeOrder[..i])
        invariant forall v :: v in nodeStates ==>
                    nodeStates[v] == if v in done && before[v].Blocked? && depCounts[v] == 0 then Ready else before[v]
        invariant nonterminal == |OpenAmong(before, done)|
      {
        var id := dag.nodeOrder[i];
        ElementsOf(dag.nodeOrder);
        ElementsOfPrefix(dag.nodeOrder, i);
        OneMoreOpen(before, done, id);
        if !nodeStates[id].Terminal() {
          nonterminal := nonterminal + 1;
        }
        if nodeStates[id] == Blocked && depCounts[id] == 0 {
          nodeStates := nodeStates[id := Ready];
        }
        done := done + {id};
      }
      assert dag.nodeOrder[..|dag.nodeOrder|] == dag.nodeOrder;
      AllOpen(before);
      UnblockFromCounts(dag.G(), before, nodeStates);
    }

    lemma KeysInGraph()
      requires Valid()
      ensures nodeStates.Keys == dag.G().nodes && dag.Valid()
    {
    }

    lemma ValidKeys()
      requires Valid()
      ensures nodeStates.Keys == depCounts.Keys == Elements(dag.nodeOrder)
    {
    }
  }

  ghost function Differ(before: Nodes, after: Nodes): set<NodeId> {
    set v | v in after && v in before && after[v] != before[v]
  }

  lemma NoneDiffer(nodes: Nodes)
    ensures Differ(nodes, nodes) == {}
  {
  }

  lemma OneMoreDiffers(before: Nodes, after: Nodes, v: NodeId, s: NodeState)
    requires v in before && v in after && after[v] == before[v] && s != before[v]
    ensures v !in Differ(before, after) && Differ(before, after[v := s]) == Differ(before, after) + {v}
  {
  }

  lemma DifferMeans(before: Nodes, after: Nodes)
    requires after.Keys == before.Keys
    ensures forall v :: v in Differ(before, after) <==> v in after && after[v] != before[v]
  {
  }

  lemma AllCounted(g: Graph, nodes: Nodes, deps: map<NodeId, int>)
    requires deps.Keys == nodes.Keys && forall v :: v in deps ==> deps[v] == PendingCount(g, nodes, v)
    ensures deps == CountDeps(g, nodes)
  {
    hide PendingCount;
  }

  ghost function OpenAmong(nodes: Nodes, s: set<NodeId>): set<NodeId> {
    set v | v in s && v in nodes && !nodes[v].Terminal()
  }

  lemma NoneOpen(nodes: Nodes)
    ensures OpenAmong(nodes, {}) == {}
  {
  }

  lemma AllOpen(nodes: Nodes)
    ensures OpenAmong(nodes, nodes.Keys) == Unfinished(nodes)
  {
  }

  lemma OneMoreOpen(nodes: Nodes, s: set<NodeId>, id: NodeId)
    requires id !in s && id in nodes
    ensures |OpenAmong(nodes, s + {id})| == |OpenAmong(nodes, s)| + if nodes[id].Terminal() then 0 else 1
  {
    assert OpenAmong(nodes, s + {id}) == OpenAmong(nodes, s) + if nodes[id].Terminal() then {} else {id};
  }

  lemma ElementsOf(s: seq<NodeId>)
    ensures forall v :: v in Elements(s) <==> v in s
  {
  }

  lemma ElementsOfNone()
    ensures Elements<NodeId>([]) == {} && Distinct<NodeId>([])
  {
  }

  lemma ElementsOfPrefix(s: seq<NodeId>, i: nat)
    requires Distinct(s) && i < |s|
    ensures s[i] in s && s[i] !in Elements(s[..i])
    ensures Elements(s[..i + 1]) == Elements(s[..i]) + {s[i]}
  {
    assert s[..i + 1] == s[..i] + [s[i]];
  }

  lemma ElementsAppend(s: seq<NodeId>, x: NodeId)
    requires Distinct(s) && x !in Elements(s)
    ensures Distinct(s + [x]) && Elements(s + [x]) == Elements(s) + {x}
  {
  }

  lemma DagShape(d: Dag)
    requires d.Valid()
    ensures |d.preds| == |d.succs| == |d.specs| == |d.nodeOrder|
  {
  }

  lemma DagDistinct(d: Dag)
    requires d.Valid()
    ensures Distinct(d.nodeOrder)
  {
  }

  lemma PredecessorsInGraph(d: Dag, id: NodeId)
    requires d.Valid()
    ensures Distinct(d.Predecessors(id))
    ensures forall v :: v in d.Predecessors(id) <==> Edge(v, id) in d.G().edges
    ensures forall v :: v in d.Predecessors(id) ==> v in d.nodeOrder
  {
    NeighboursAreEdges(d, id);
    forall v ensures v in d.Predecessors(id) <==> Edge(v, id) in d.G().edges {
      assert Edge(v, id) in d.edges <==> Edge(v, id) in d.G().edges;
    }
  }

  lemma CompletedNotRunning(g: Graph, m: Model, id: NodeId)
    ensures Sound(g, m) && id in m.completed ==> id in m.nodes && !m.nodes[id].InFlight()
  {
  }

  /** An open node has not been completed. */
  lemma LiveNotCompleted(g: Graph, m: Model, id: NodeId)
    ensures Sound(g, m) && id in m.nodes && m.nodes[id].Live() ==> id !in m.completed
    ensures m == InitialModel(g) && id in m.nodes ==> !m.nodes[id].Live()
  {
  }

  lemma NotStartedIsBlocked(g: Graph, m: Model, id: NodeId)
    ensures m == InitialModel(g) && id in m.nodes ==> m.nodes[id].Blocked? && id !in m.completed
  {
  }

  /** What completing a running node relies on: its successors are counted. */
  lemma SucceedSetup(d: Dag, m: Model, id: NodeId)
    requires d.Valid() && Sound(d.G(), m) && id in m.nodes && m.nodes[id].Running?
    ensures |d.succs| == |d.nodeOrder|
    ensures m.nodes.Keys == m.deps.Keys && Distinct(d.Successors(id))
    ensures forall v :: v in d.Successors(id) <==> Edge(id, v) in d.G().edges
    ensures forall v :: v in d.Successors(id) ==> v in m.deps && m.deps[v] > 0
  {
    SuccessorsInGraph(d, id);
    NeighboursAreEdges(d, id);
    DagShape(d);
    hide Dag.Valid;
    forall v | v in d.Successors(id) ensures v in m.deps && m.deps[v] > 0 {
      assert NodeSound(d.G(), m, v);
      NothingPending(d.G(), m.nodes, v);
    }
  }

  /** Decrementing the successors' counters recounts what is pending. */
  lemma SucceedFromCounts(g: Graph, m: Model, id: NodeId, nodes: Nodes, deps: map<NodeId, int>)
    requires Sound(g, m) && id in m.nodes && m.nodes[id].Running?
    requires nodes.Keys == deps.Keys == m.nodes.Keys
    requires forall v :: v in deps ==> deps[v] == m.deps[v] - (if Edge(id, v) in g.edges then 1 else 0)
    requires forall v :: v in nodes ==>
               nodes[v] == if Edge(id, v) in g.edges && m.nodes[id := Succeeded][v].Blocked? && deps[v] == 0
                           then Ready else m.nodes[id := Succeeded][v]
    ensures Model(m.run, nodes, deps, m.completed + {id}) == Succeed(g, m, id)
  {
    hide PendingCount;
    var after := m.nodes[id := Succeeded];
    forall v | v in nodes
      ensures deps[v] == PendingCount(g, after, v)
      ensures after[v].Blocked? && Edge(id, v) !in g.edges ==> deps[v] > 0
    {
      assert NodeSound(g, m, v);
      SucceedPending(g, m.nodes, id, v);
    }
    hide Sound;
    assert deps == CountDeps(g, after);
    assert nodes == Unblock(g, after);
  }

  /** Canceling everything is sound even before the run was started. */
  lemma CancelAllSound(g: Graph, m: Model)
    requires Sound(g, m) || m == InitialModel(g)
    ensures Sound(g, CancelAll(m))
  {
    if Sound(g, m) {
      CancelAllKeeps(g, m);
    } else {
      var m' := CancelAll(m);
      SameSucceeded(g, m.nodes, m'.nodes);
      assert CompletedIn(m'.nodes) == {};
      hide PendingCount;
      forall v | v in g.nodes ensures NodeSound(g, m', v) { }
    }
  }

  lemma IdsDistinct(ids: seq<NodeId>)
    requires StrictlySorted(Less, ids)
    ensures Distinct(ids)
  {
    forall x, y | Less(x, y) ensures x != y { LessAsymmetric(x, y); }
  }

  lemma VerdictInOrder(order: seq<NodeId>, nodes: Nodes)
    requires nodes.Keys == Elements(order)
    ensures (exists v :: v in nodes && HasFailed(nodes[v])) <==>
            exists k :: 0 <= k < |order| && HasFailed(nodes[order[k]])
    ensures (exists v :: v in nodes && !nodes[v].Succeeded?) <==>
            exists k :: 0 <= k < |order| && !nodes[order[k]].Succeeded?
  {
    if v :| v in nodes && !nodes[v].Succeeded? {
      var k :| 0 <= k < |order| && order[k] == v;
    }
    if v :| v in nodes && HasFailed(nodes[v]) {
      var k :| 0 <= k < |order| && order[k] == v;
    }
  }

  lemma SuccessorsInGraph(d: Dag, id: NodeId)
    requires d.Valid()
    ensures forall v :: v in d.Successors(id) <==> Edge(id, v) in d.G().edges
    ensures forall v :: v in d.Successors(id) ==> v in d.G().nodes
  {
    NeighboursAreEdges(d, id);
    forall v ensures v in d.Successors(id) <==> Edge(id, v) in d.G().edges {
      assert Edge(id, v) in d.edges <==> Edge(id, v) in d.G().edges;
    }
  }

  /** Readying the nodes without predecessors is the first unblocking. */
  lemma StartedFromRoots(g: Graph, m: Model)
    requires m.run == RunRunning && m.deps == InitialModel(g).deps && m.completed == {} && m.nodes.Keys == g.nodes
    requires forall v :: v in m.nodes ==> m.nodes[v] == if m.deps[v] == 0 then Ready else Blocked
    ensures m == StartFrom(g, AllBlocked(g))
  {
    hide PendingCount;
    assert m.nodes == Unblock(g, AllBlocked(g));
  }

  lemma InitialSound(g: Graph)
    ensures Sound(g, StartFrom(g, AllBlocked(g)))
  {
    StartFromSound(g, AllBlocked(g));
  }

  lemma UnblockFromCounts(g: Graph, before: Nodes, after: Nodes)
    requires after.Keys == before.Keys
    requires forall v :: v in after ==>
               after[v] == if before[v].Blocked? && CountDeps(g, before)[v] == 0 then Ready else before[v]
    ensures after == Unblock(g, before)
  {
    hide PendingCount;
  }

  lemma CancelEffectKeeps(g: Graph, before: Nodes, after: Nodes, id: NodeId)
    requires CancelEffect(g, before, after, id)
    ensures after.Keys == before.Keys
    ensures forall v :: v in before && before[v].Terminal() ==> after[v] == before[v]
    ensures forall v :: v in before && after[v] != before[v] ==> after[v].Canceled?
  {
    CancelTargetsAreUnfinished(g, before, id);
  }

  lemma CancelEffectFromParts(g: Graph, before: Nodes, after: Nodes, id: NodeId, succs: seq<NodeId>)
    requires after.Keys == before.Keys
    requires forall v :: v in before ==>
               after[v] == before[v] || (after[v].Canceled? && CancelTarget(g, before, id, v))
    requires forall e :: e in g.edges && e.to in before && NewlyCanceled(before, after, e.from) ==> after[e.to].Terminal()
    requires forall v :: v in succs <==> Edge(id, v) in g.edges
    requires forall v :: v in succs ==> v in after && after[v].Terminal()
    ensures CancelEffect(g, before, after, id)
  {
    hide CancelTarget;
    forall e | e in g.edges && e.from == id ensures e.to in succs {
      assert e == Edge(id, e.to);
    }
  }

  /** Predecessors that have not succeeded, counted in the adjacency list. */
  lemma PredecessorCount(d: Dag, nodes: Nodes, v: NodeId)
    requires d.Valid() && forall u :: u in nodes ==> !nodes[u].Succeeded?
    ensures |d.Predecessors(v)| == PendingCount(d.G(), nodes, v)
  {
    NeighboursAreEdges(d, v);
    DistinctSize(d.Predecessors(v));
    forall u ensures u in Elements(d.Predecessors(v)) <==> u in Pending(d.G(), nodes, v) {
      if Edge(u, v) in d.edges {
        assert Edge(u, v) in d.G().edges;
      }
    }
    assert Elements(d.Predecessors(v)) == Pending(d.G(), nodes, v);
  }
}
