/** The per-run state machine: node states, dependency counters, cancellation
  downstream of a failure, and reconstruction
  (engine/core/src/state_machine.cpp).

  Model is the value of a SchedulerState; the functions on Model say what each
  operation means in terms of the graph. The class SchedulerStates.SchedulerState
  shows that the counters, the in-place updates and the recursive cancellation
  compute it.
*/
module StateMachines {
  import opened Ids
  import opened Graphs
  import opened Dags

  datatype RunState = RunQueued | RunRunning | RunSucceeded | RunFailed | RunCanceled

  datatype NodeState =
    | Blocked
    | Ready
    | Dispatched
    | Running
    | Succeeded
    | RetryWait
    | Failed
    | DeadLettered
    | Canceled
  {
    predicate Terminal() {
      Succeeded? || Failed? || DeadLettered? || Canceled?
    }

    predicate InFlight() {
      Dispatched? || Running?
    }

    /** Waiting for a dispatcher, a worker or a timer. */
    predicate Live() {
      Ready? || Dispatched? || Running? || RetryWait?
    }

    predicate Broken() {
      Failed? || DeadLettered? || Canceled?
    }

    /** Reached only once all predecessors have succeeded. */
    predicate Unlocked() {
      !Blocked? && !Canceled?
    }
  }

  type Nodes = map<NodeId, NodeState>

  /** The logical state of a persisted status: an attempt that was in flight is
    taken to be running still. */
  function Restore(status: NodeState): NodeState {
    if status.Dispatched? then Running else status
  }

  ghost function Restored(nodes: Nodes): Nodes {
    map v | v in nodes :: Restore(nodes[v])
  }

  /** Nodes without a row start blocked. */
  ghost function Filled(g: Graph, nodes: Nodes): Nodes {
    map v | v in g.nodes :: if v in nodes then nodes[v] else Blocked
  }

  lemma FilledIsSame(g: Graph, nodes: Nodes)
    requires nodes.Keys == g.nodes
    ensures Filled(g, nodes) == nodes
  {
  }

  datatype Model = Model(run: RunState, nodes: Nodes, deps: map<NodeId, int>, completed: set<NodeId>)

  // ------------------------------------------------------------------------
  // Invariants
  // ------------------------------------------------------------------------

  predicate HasSucceeded(nodes: Nodes, u: NodeId) {
    u in nodes && nodes[u].Succeeded?
  }

  /** The predecessors of v that have not succeeded. */
  ghost function Pending(g: Graph, nodes: Nodes, v: NodeId): set<NodeId> {
    set u | u in g.nodes && Edge(u, v) in g.edges && !HasSucceeded(nodes, u)
  }

  ghost function PendingCount(g: Graph, nodes: Nodes, v: NodeId): nat {
    |Pending(g, nodes, v)|
  }

  ghost predicate Keyed(g: Graph, m: Model) {
    m.nodes.Keys == m.deps.Keys == g.nodes && m.completed == CompletedIn(m.nodes)
  }

  predicate HasFailed(s: NodeState) {
    s.Failed? || s.DeadLettered?
  }

  predicate IsCompletion(s: NodeState) {
    s.Succeeded? || HasFailed(s)
  }

  ghost function CompletedIn(nodes: Nodes): set<NodeId> {
    set v | v in nodes && IsCompletion(nodes[v])
  }

  /** The counter of v counts its pending predecessors; v moves only when none
    is left, and does not stay blocked then. */
  ghost predicate NodeSound(g: Graph, m: Model, v: NodeId) {
    && v in m.nodes && v in m.deps
    && m.deps[v] == PendingCount(g, m.nodes, v)
    && (m.nodes[v].Unlocked() ==> m.deps[v] == 0)
    && (m.nodes[v].Blocked? ==> m.deps[v] > 0)
  }

  /** Holds in every started run, crashes included. */
  ghost predicate Sound(g: Graph, m: Model) {
    Keyed(g, m) && forall v {:trigger NodeSound(g, m, v)} :: v in g.nodes ==> NodeSound(g, m, v)
  }

  /** Everything directly below a broken node is canceled. */
  ghost predicate CancelClosed(g: Graph, nodes: Nodes) {
    forall e :: e in g.edges && e.from in nodes && e.to in nodes && nodes[e.from].Broken() ==> nodes[e.to].Canceled?
  }

  /** Every canceled node is directly below a broken one. */
  ghost predicate Justified(g: Graph, nodes: Nodes) {
    forall v :: v in nodes && nodes[v].Canceled? ==> BrokenPred(g, nodes, v)
  }

  ghost predicate BrokenPred(g: Graph, nodes: Nodes, v: NodeId) {
    exists u :: u in nodes && Edge(u, v) in g.edges && nodes[u].Broken()
  }

  ghost predicate Tight(g: Graph, m: Model)
  {
    Sound(g, m) && CancelClosed(g, m.nodes)
  }

  lemma NothingPending(g: Graph, nodes: Nodes, v: NodeId)
    ensures PendingCount(g, nodes, v) == 0 <==>
            forall u :: u in g.nodes && Edge(u, v) in g.edges ==> HasSucceeded(nodes, u)
  {
    if PendingCount(g, nodes, v) == 0 {
      assert Pending(g, nodes, v) == {};
      forall u | u in g.nodes && Edge(u, v) in g.edges ensures HasSucceeded(nodes, u) {
        assert HasSucceeded(nodes, u) || u in Pending(g, nodes, v);
      }
    } else {
      var u :| u in Pending(g, nodes, v);
    }
  }

  /** Nothing pending changes while the set of succeeded nodes stays the same. */
  lemma SameSucceeded(g: Graph, nodes: Nodes, nodes': Nodes)
    requires forall u :: u in g.nodes ==> (HasSucceeded(nodes, u) <==> HasSucceeded(nodes', u))
    ensures forall v :: PendingCount(g, nodes', v) == PendingCount(g, nodes, v)
  {
    forall v ensures PendingCount(g, nodes', v) == PendingCount(g, nodes, v) {
      assert Pending(g, nodes', v) == Pending(g, nodes, v);
    }
  }

  /** A success takes the node off the counts of its successors. */
  lemma SucceedPending(g: Graph, nodes: Nodes, id: NodeId, v: NodeId)
    requires id in g.nodes && !HasSucceeded(nodes, id)
    ensures PendingCount(g, nodes[id := Succeeded], v) ==
            PendingCount(g, nodes, v) - (if Edge(id, v) in g.edges then 1 else 0)
  {
    var after := nodes[id := Succeeded];
    assert Pending(g, after, v) == Pending(g, nodes, v) - {id};
  }

  // ------------------------------------------------------------------------
  // What the operations mean
  // ------------------------------------------------------------------------

  ghost function AllBlocked(g: Graph): Nodes {
    map v | v in g.nodes :: Blocked
  }

  ghost function InitialModel(g: Graph): Model {
    Model(RunQueued, AllBlocked(g), CountDeps(g, AllBlocked(g)), {})
  }

  /** Blocked nodes with nothing pending become ready. */
  ghost function Unblock(g: Graph, nodes: Nodes): Nodes {
    map v | v in nodes :: if nodes[v].Blocked? && PendingCount(g, nodes, v) == 0 then Ready else nodes[v]
  }

  ghost function CountDeps(g: Graph, nodes: Nodes): map<NodeId, int> {
    map v | v in nodes :: PendingCount(g, nodes, v)
  }

  /** The started model that has exactly these node states once unblocked. */
  ghost function StartFrom(g: Graph, nodes: Nodes): Model {
    Model(RunRunning, Unblock(g, nodes), CountDeps(g, nodes), CompletedIn(nodes))
  }

  ghost function Move(m: Model, id: NodeId, s: NodeState): Model {
    m.(nodes := m.nodes[id := s])
  }

  ghost function Succeed(g: Graph, m: Model, id: NodeId): Model
  {
    var nodes := m.nodes[id := Succeeded];
    Model(m.run, Unblock(g, nodes), CountDeps(g, nodes), m.completed + {id})
  }

  /** v is reached from id through nodes none of which is terminal. */
  ghost predicate CancelPath(g: Graph, nodes: Nodes, id: NodeId, v: NodeId, p: seq<NodeId>) {
    && |p| > 1 && PathBetween(g, p, id, v)
    && forall i :: 1 <= i < |p| ==> p[i] in nodes && !nodes[p[i]].Terminal()
  }

  ghost predicate CancelTarget(g: Graph, nodes: Nodes, id: NodeId, v: NodeId) {
    exists p :: CancelPath(g, nodes, id, v, p)
  }

  ghost function CancelFrom(g: Graph, nodes: Nodes, id: NodeId): Nodes {
    map v | v in nodes :: if CancelTarget(g, nodes, id, v) then Canceled else nodes[v]
  }

  /** A failure or dead letter of id. */
  ghost function Break(g: Graph, m: Model, id: NodeId, s: NodeState): Model {
    m.(nodes := CancelFrom(g, m.nodes[id := s], id), completed := m.completed + {id})
  }

  ghost function CancelAll(m: Model): Model {
    m.(run := RunCanceled, nodes := map v | v in m.nodes :: if m.nodes[v].Terminal() then m.nodes[v] else Canceled)
  }

  ghost function Verdict(nodes: Nodes): RunState {
    if exists v :: v in nodes && HasFailed(nodes[v]) then RunFailed
    else if exists v :: v in nodes && !nodes[v].Succeeded? then RunCanceled
    else RunSucceeded
  }

  // ------------------------------------------------------------------------
  // Every operation keeps the invariants
  // ------------------------------------------------------------------------

  /** Justification survives as long as nothing broken recovers and nothing
    else is canceled. */
  lemma JustifiedStays(g: Graph, nodes: Nodes, nodes': Nodes)
    requires Justified(g, nodes) && nodes'.Keys == nodes.Keys
    requires forall v :: v in nodes && nodes[v].Broken() ==> nodes'[v].Broken()
    requires forall v :: v in nodes && nodes'[v].Canceled? ==> nodes[v].Canceled?
    ensures Justified(g, nodes')
  {
    forall v | v in nodes' && nodes'[v].Canceled? ensures BrokenPred(g, nodes', v) {
      assert BrokenPred(g, nodes, v);
      var u :| u in nodes && Edge(u, v) in g.edges && nodes[u].Broken();
      assert nodes'[u].Broken();
    }
  }

  /** Soundness survives a change of states that neither succeeds, unlocks nor
    blocks any node. */
  lemma SoundStays(g: Graph, m: Model, m': Model)
    requires Sound(g, m) && m'.nodes.Keys == m.nodes.Keys && m'.deps == m.deps
    requires m'.completed == CompletedIn(m'.nodes)
    requires forall v :: v in m.nodes ==> (m.nodes[v].Succeeded? <==> m'.nodes[v].Succeeded?)
    requires forall v :: v in m.nodes && m'.nodes[v].Unlocked() ==> m.nodes[v].Unlocked()
    requires forall v :: v in m.nodes && m'.nodes[v].Blocked? ==> m.nodes[v].Blocked?
    ensures Sound(g, m')
  {
    SameSucceeded(g, m.nodes, m'.nodes);
    forall v | v in g.nodes ensures NodeSound(g, m', v) {
      assert NodeSound(g, m, v);
    }
  }

  /** No node moved before its predecessors succeeded. */
  ghost predicate InOrder(g: Graph, nodes: Nodes) {
    forall v :: v in nodes && nodes[v].Unlocked() ==> PendingCount(g, nodes, v) == 0
  }

  lemma StartFromSound(g: Graph, nodes: Nodes)
    requires nodes.Keys == g.nodes && InOrder(g, nodes)
    ensures Sound(g, StartFrom(g, nodes))
  {
    var m := StartFrom(g, nodes);
    SameSucceeded(g, nodes, m.nodes);
    hide PendingCount;
    assert CompletedIn(m.nodes) == CompletedIn(nodes);
    forall v | v in g.nodes ensures NodeSound(g, m, v) { }
  }

  lemma StartFromCancels(g: Graph, nodes: Nodes)
    ensures CancelClosed(g, nodes) ==> CancelClosed(g, StartFrom(g, nodes).nodes)
    ensures Justified(g, nodes) ==> Justified(g, StartFrom(g, nodes).nodes)
  {
    hide PendingCount;
    if Justified(g, nodes) { JustifiedStays(g, nodes, StartFrom(g, nodes).nodes); }
  }

  lemma SoundIsInOrder(g: Graph, m: Model)
    requires Sound(g, m)
    ensures m.nodes.Keys == g.nodes && InOrder(g, m.nodes)
  {
    hide PendingCount;
    forall v | v in m.nodes && m.nodes[v].Unlocked() ensures PendingCount(g, m.nodes, v) == 0 {
      assert NodeSound(g, m, v);
    }
  }

  lemma MoveKeeps(g: Graph, m: Model, id: NodeId, s: NodeState)
    requires Sound(g, m) && id in m.nodes && m.nodes[id].Live() && s.Live()
    ensures Sound(g, Move(m, id, s))
  {
    var m' := Move(m, id, s);
    assert CompletedIn(m'.nodes) == CompletedIn(m.nodes);
    SoundStays(g, m, m');
  }

  lemma MoveKeepsCancels(g: Graph, m: Model, id: NodeId, s: NodeState)
    requires id in m.nodes && m.nodes[id].Live() && s.Live()
    ensures CancelClosed(g, m.nodes) ==> CancelClosed(g, Move(m, id, s).nodes)
    ensures Justified(g, m.nodes) ==> Justified(g, Move(m, id, s).nodes)
  {
    if Justified(g, m.nodes) { JustifiedStays(g, m.nodes, Move(m, id, s).nodes); }
  }

  lemma SucceedKeeps(g: Graph, m: Model, id: NodeId)
    requires Sound(g, m) && id in m.nodes && m.nodes[id].Live()
    ensures Sound(g, Succeed(g, m, id))
  {
    var nodes := m.nodes[id := Succeeded];
    forall v | v in nodes && nodes[v].Unlocked() ensures PendingCount(g, nodes, v) == 0 {
      assert NodeSound(g, m, v);
      SucceedPending(g, m.nodes, id, v);
    }
    hide PendingCount, NodeSound;
    assert CompletedIn(nodes) == m.completed + {id};
    StartFromSound(g, nodes);
    SoundForAnyRunState(g, StartFrom(g, nodes), m.run);
    assert Succeed(g, m, id) == StartFrom(g, nodes).(run := m.run);
  }

  lemma SoundForAnyRunState(g: Graph, m: Model, r: RunState)
    requires Sound(g, m)
    ensures Sound(g, m.(run := r))
  {
    forall v | v in g.nodes ensures NodeSound(g, m.(run := r), v) {
      assert NodeSound(g, m, v);
    }
  }

  lemma SucceedKeepsCancels(g: Graph, m: Model, id: NodeId)
    requires id in m.nodes && m.nodes[id].Live()
    ensures CancelClosed(g, m.nodes) ==> CancelClosed(g, Succeed(g, m, id).nodes)
    ensures Justified(g, m.nodes) ==> Justified(g, Succeed(g, m, id).nodes)
  {
    hide PendingCount;
    if Justified(g, m.nodes) { JustifiedStays(g, m.nodes, Succeed(g, m, id).nodes); }
  }

  /** The last step of a cancellation path comes from the failed node or from
    another node that is canceled with it. */
  lemma CancelTargetPred(g: Graph, nodes: Nodes, id: NodeId, v: NodeId) returns (u: NodeId)
    requires CancelTarget(g, nodes, id, v)
    ensures Edge(u, v) in g.edges && v in nodes && !nodes[v].Terminal()
    ensures u == id || CancelTarget(g, nodes, id, u)
  {
    var p :| CancelPath(g, nodes, id, v, p);
    u := p[|p| - 2];
    assert Edge(u, v) in g.edges;
    if |p| > 2 {
      assert CancelPath(g, nodes, id, u, p[..|p| - 1]);
    }
  }

  lemma CancelTargetStep(g: Graph, nodes: Nodes, id: NodeId, u: NodeId, v: NodeId)
    requires u == id || CancelTarget(g, nodes, id, u)
    requires Edge(u, v) in g.edges && v in nodes && !nodes[v].Terminal()
    ensures CancelTarget(g, nodes, id, v)
  {
    if u == id {
      assert CancelPath(g, nodes, id, v, [id, v]);
    } else {
      var p :| CancelPath(g, nodes, id, u, p);
      assert CancelPath(g, nodes, id, v, p + [v]);
    }
  }

  lemma CancelTargetsAreUnfinished(g: Graph, nodes: Nodes, id: NodeId)
    ensures forall v :: CancelTarget(g, nodes, id, v) ==> v in nodes && !nodes[v].Terminal()
  {
    forall v | CancelTarget(g, nodes, id, v) ensures v in nodes && !nodes[v].Terminal() {
      var u := CancelTargetPred(g, nodes, id, v);
    }
  }

  lemma BreakKeeps(g: Graph, m: Model, id: NodeId, s: NodeState)
    requires Sound(g, m) && id in m.nodes && m.nodes[id].Live() && HasFailed(s)
    ensures Sound(g, Break(g, m, id, s))
  {
    var m' := Break(g, m, id, s);
    CancelTargetsAreUnfinished(g, m.nodes[id := s], id);
    hide CancelTarget;
    assert CompletedIn(m'.nodes) == CompletedIn(m.nodes) + {id};
    SoundStays(g, m, m');
  }

  lemma BreakKeepsClosed(g: Graph, m: Model, id: NodeId, s: NodeState)
    requires Closed(g) && Sound(g, m) && id in m.nodes && m.nodes[id].Live() && HasFailed(s)
    requires CancelClosed(g, m.nodes)
    ensures CancelClosed(g, Break(g, m, id, s).nodes)
  {
    hide Sound, Break;
    var m' := Break(g, m, id, s);
    forall e | e in g.edges && e.from in m'.nodes && e.to in m'.nodes && m'.nodes[e.from].Broken()
      ensures m'.nodes[e.to].Canceled?
    {
      BreakKeepsNodes(g, m, id, s);
      BreakClosedAt(g, m, id, s, e);
    }
  }

  lemma BreakKeepsNodes(g: Graph, m: Model, id: NodeId, s: NodeState)
    requires id in m.nodes
    ensures Break(g, m, id, s).nodes.Keys == m.nodes.Keys
  {
  }

  lemma BreakKeepsJustified(g: Graph, m: Model, id: NodeId, s: NodeState)
    requires Closed(g) && m.nodes.Keys == g.nodes && id in m.nodes && m.nodes[id].Live()
    requires Justified(g, m.nodes) && HasFailed(s)
    ensures Justified(g, Break(g, m, id, s).nodes)
  {
    var nodes, nodes' := m.nodes[id := s], Break(g, m, id, s).nodes;
    hide Justified, BrokenPred, CancelTarget;
    forall v | v in nodes' && nodes'[v].Canceled? ensures BrokenPred(g, nodes', v) {
      BreakJustifiedAt(g, m, id, s, v);
    }
    BrokenPredsJustify(g, nodes');
  }

  lemma BrokenPredsJustify(g: Graph, nodes: Nodes)
    requires forall v :: v in nodes && nodes[v].Canceled? ==> BrokenPred(g, nodes, v)
    ensures Justified(g, nodes)
  {
  }

  lemma BreakJustifiedAt(g: Graph, m: Model, id: NodeId, s: NodeState, v: NodeId)
    requires Closed(g) && m.nodes.Keys == g.nodes && id in m.nodes && m.nodes[id].Live()
    requires Justified(g, m.nodes) && HasFailed(s)
    requires v in m.nodes && Break(g, m, id, s).nodes[v].Canceled?
    ensures BrokenPred(g, Break(g, m, id, s).nodes, v)
  {
    var nodes, nodes' := m.nodes[id := s], Break(g, m, id, s).nodes;
    var u: NodeId;
    CancelTargetsAreUnfinished(g, nodes, id);
    if CancelTarget(g, nodes, id, v) {
      u := CancelTargetPred(g, nodes, id, v);
      assert Edge(u, v) in g.edges;
    } else {
      assert BrokenPred(g, m.nodes, v);
      u :| u in m.nodes && Edge(u, v) in g.edges && m.nodes[u].Broken();
    }
    assert nodes'[u].Broken();
  }

  lemma BreakClosedAt(g: Graph, m: Model, id: NodeId, s: NodeState, e: Edge)
    requires Closed(g) && Sound(g, m) && id in m.nodes && m.nodes[id].Live() && HasFailed(s)
    requires CancelClosed(g, m.nodes)
    requires e in g.edges && e.from in m.nodes && e.to in m.nodes && Break(g, m, id, s).nodes[e.from].Broken()
    ensures Break(g, m, id, s).nodes[e.to].Canceled?
  {
    var nodes := m.nodes[id := s];
    if e.from == id || CancelTarget(g, nodes, id, e.from) {
      // e.from has not succeeded, so e.to is blocked or already canceled
      if e.from != id { var _ := CancelTargetPred(g, nodes, id, e.from); }
      UnlockedPred(g, m, e);
      assert e == Edge(e.from, e.to);
      if m.nodes[e.to].Blocked? {
        CancelTargetStep(g, nodes, id, e.from, e.to);
      }
    } else {
      assert m.nodes[e.from].Broken();
    }
  }

  lemma CancelAllKeeps(g: Graph, m: Model)
    requires Sound(g, m)
    ensures Sound(g, CancelAll(m))
  {
    var m' := CancelAll(m);
    assert CompletedIn(m'.nodes) == CompletedIn(m.nodes);
    SoundStays(g, m, m');
  }

  lemma CancelAllCloses(g: Graph, m: Model)
    requires Closed(g) && Sound(g, m)
    ensures CancelClosed(g, CancelAll(m).nodes)
  {
    var m' := CancelAll(m);
    forall e | e in g.edges && e.from in m'.nodes && e.to in m'.nodes && m'.nodes[e.from].Broken()
      ensures m'.nodes[e.to].Canceled?
    {
      UnlockedPred(g, m, e);
    }
  }

  /** The source of an edge into a node that has moved has succeeded. */
  lemma UnlockedPred(g: Graph, m: Model, e: Edge)
    requires Closed(g) && Sound(g, m) && e in g.edges
    ensures e.from in m.nodes && e.to in m.nodes
    ensures m.nodes[e.to].Unlocked() ==> m.nodes[e.from].Succeeded?
  {
    assert NodeSound(g, m, e.to);
    NothingPending(g, m.nodes, e.to);
    assert e == Edge(e.from, e.to);
  }

  // ------------------------------------------------------------------------
  // Consequences for every started run
  // ------------------------------------------------------------------------

  /** After a failure every non-terminal strict descendant is canceled, and
    nothing else is, although the recursion stops at terminal nodes. */
  lemma BreakCancelsExactlyBelow(g: Graph, m: Model, id: NodeId, s: NodeState, v: NodeId)
    requires Closed(g) && Tight(g, m) && id in m.nodes && m.nodes[id].Live() && HasFailed(s)
    requires v in m.nodes && v != id
    ensures Break(g, m, id, s).nodes[v] ==
            if Below(g, id, v) then Canceled else m.nodes[v]
  {
    var nodes := m.nodes[id := s];
    var m' := Break(g, m, id, s);
    BreakKeepsClosed(g, m, id, s);
    hide Sound, CancelClosed;
    if CancelTarget(g, nodes, id, v) {
      var p :| CancelPath(g, nodes, id, v, p);
      assert Below(g, id, v);
    } else if Below(g, id, v) {
      BrokenSpreads(g, m'.nodes, id, v);
    }
  }

  /** Everything strictly below a broken node is canceled. */
  lemma BrokenSpreads(g: Graph, nodes: Nodes, a: NodeId, v: NodeId)
    requires Closed(g) && nodes.Keys == g.nodes && CancelClosed(g, nodes)
    requires a in nodes && nodes[a].Broken() && Below(g, a, v)
    ensures v in nodes && nodes[v].Canceled?
  {
    var p :| |p| > 1 && PathBetween(g, p, a, v);
    BrokenSpreadsPath(g, nodes, p);
  }

  lemma {:induction false} BrokenSpreadsPath(g: Graph, nodes: Nodes, p: seq<NodeId>)
    requires Closed(g) && nodes.Keys == g.nodes && CancelClosed(g, nodes)
    requires |p| > 1 && IsPath(g, p) && p[0] in nodes && nodes[p[0]].Broken()
    ensures p[|p| - 1] in nodes && nodes[p[|p| - 1]].Canceled?
    decreases |p|
  {
    assert Edge(p[0], p[1]) in g.edges;
    if |p| > 2 {
      BrokenSpreadsPath(g, nodes, p[1..]);
    }
  }

  ghost predicate AllTerminal(nodes: Nodes) {
    forall v :: v in nodes ==> nodes[v].Terminal()
  }

  /** A run that has not finished can always make progress. */
  lemma NeverStuck(g: Graph, t: seq<NodeId>, m: Model)
    requires Closed(g) && IsTopo(g, t) && Tight(g, m) && !AllTerminal(m.nodes)
    ensures exists v :: v in m.nodes && m.nodes[v].Live()
  {
    SoundKeys(g, m);
    hide Sound, CancelClosed, IndexIn;
    var unfinished := set x | x in m.nodes && !m.nodes[x].Terminal();
    var some :| some in m.nodes && !m.nodes[some].Terminal();
    assert some in unfinished;
    var v := FirstInTopo(g, t, unfinished);
    if m.nodes[v].Blocked? {
      var u := BlockedByUnfinished(g, m, v);
      assert u in unfinished;
      TopoEdgeForward(g, t, Edge(u, v));
    }
  }

  /** A blocked node waits for a predecessor that is itself not terminal. */
  lemma BlockedByUnfinished(g: Graph, m: Model, v: NodeId) returns (u: NodeId)
    requires Tight(g, m) && v in m.nodes && m.nodes[v].Blocked?
    ensures u in m.nodes && Edge(u, v) in g.edges && !m.nodes[u].Terminal()
  {
    assert NodeSound(g, m, v);
    NothingPending(g, m.nodes, v);
    u :| u in g.nodes && Edge(u, v) in g.edges && !HasSucceeded(m.nodes, u);
    var e := Edge(u, v);
    assert e in g.edges && m.nodes[e.to].Blocked?;
  }

  lemma FirstInTopo(g: Graph, t: seq<NodeId>, s: set<NodeId>) returns (v: NodeId)
    requires IsTopo(g, t) && s != {} && s <= g.nodes
    ensures v in s
    ensures forall u :: u in s ==> IndexIn(t, v) <= IndexIn(t, u)
  {
    v :| v in s;
    var i := IndexIn(t, v);
    while exists u :: u in s && IndexIn(t, u) < i
      invariant v in s && i == IndexIn(t, v)
      decreases i
    {
      v :| v in s && IndexIn(t, v) < i;
      i := IndexIn(t, v);
    }
  }

  // ------------------------------------------------------------------------
  // Schedule independence
  // ------------------------------------------------------------------------

  /** What each node does when it is finally run. */
  type Outcomes = map<NodeId, NodeState>

  ghost predicate IsOutcomes(g: Graph, out: Outcomes) {
    out.Keys == g.nodes
    && forall v :: v in out ==> out[v].Succeeded? || out[v].Failed? || out[v].DeadLettered?
  }

  /** One transition of a run that nobody cancels. */
  ghost predicate Step(g: Graph, out: Outcomes, m: Model, m': Model)
    requires IsOutcomes(g, out)
  {
    exists id :: id in m.nodes && id in out && StepOf(g, out, m, m', id)
  }

  ghost predicate StepOf(g: Graph, out: Outcomes, m: Model, m': Model, id: NodeId)
    requires id in m.nodes && id in out
  {
    || (m.nodes[id].Ready? && m' == Move(m, id, Dispatched))
    || (m.nodes[id].Dispatched? && m' == Move(m, id, Running))
    || (m.nodes[id].InFlight() && m' == Move(m, id, Ready))
    || (m.nodes[id].Running? && m' == Move(m, id, RetryWait))
    || (m.nodes[id].RetryWait? && m' == Move(m, id, Ready))
    || (m.nodes[id].Running? && out[id].Succeeded? && m' == Succeed(g, m, id))
    || (m.nodes[id].Running? && !out[id].Succeeded? && m' == Break(g, m, id, out[id]))
  }

  ghost predicate IsRun(g: Graph, out: Outcomes, ms: seq<Model>)
    requires IsOutcomes(g, out)
  {
    && ms != [] && ms[0] == StartFrom(g, AllBlocked(g))
    && forall i :: 0 <= i < |ms| - 1 ==> Step(g, out, ms[i], ms[i + 1])
  }

  /** No terminal node disagrees with its outcome. */
  ghost predicate Agrees(nodes: Nodes, out: Outcomes) {
    forall v :: v in nodes && v in out && nodes[v].Terminal() && !nodes[v].Canceled? ==> nodes[v] == out[v]
  }

  lemma StepKeeps(g: Graph, out: Outcomes, m: Model, m': Model)
    requires Closed(g) && IsOutcomes(g, out) && Step(g, out, m, m')
    requires Tight(g, m) && Justified(g, m.nodes) && Agrees(m.nodes, out)
    ensures Tight(g, m') && Justified(g, m'.nodes) && Agrees(m'.nodes, out)
  {
    var id :| id in m.nodes && id in out && StepOf(g, out, m, m', id);
    StepOfKeeps(g, out, m, m', id);
  }

  lemma StepOfKeeps(g: Graph, out: Outcomes, m: Model, m': Model, id: NodeId)
    requires Closed(g) && IsOutcomes(g, out) && id in m.nodes && id in out && StepOf(g, out, m, m', id)
    requires Tight(g, m) && Justified(g, m.nodes) && Agrees(m.nodes, out)
    ensures Tight(g, m') && Justified(g, m'.nodes) && Agrees(m'.nodes, out)
  {
    StepOfAgrees(g, out, m, m', id);
    SoundKeys(g, m);
    hide Sound, CancelClosed, Justified, Agrees, Break, Succeed;
    if m.nodes[id].Running? && out[id].Succeeded? && m' == Succeed(g, m, id) {
      SucceedKeeps(g, m, id);
      SucceedKeepsCancels(g, m, id);
    } else if m.nodes[id].Running? && !out[id].Succeeded? && m' == Break(g, m, id, out[id]) {
      BreakKeeps(g, m, id, out[id]);
      BreakKeepsClosed(g, m, id, out[id]);
      BreakKeepsJustified(g, m, id, out[id]);
    } else {
      MoveKeeps(g, m, id, m'.nodes[id]);
      MoveKeepsCancels(g, m, id, m'.nodes[id]);
    }
  }

  lemma SoundKeys(g: Graph, m: Model)
    requires Sound(g, m)
    ensures m.nodes.Keys == g.nodes
  {
  }

  lemma StepOfAgrees(g: Graph, out: Outcomes, m: Model, m': Model, id: NodeId)
    requires id in m.nodes && id in out && StepOf(g, out, m, m', id)
    requires Agrees(m.nodes, out)
    ensures Agrees(m'.nodes, out)
  {
    hide PendingCount, CancelTarget;
  }

  lemma StartKeeps(g: Graph, out: Outcomes)
    requires Closed(g)
    ensures var m := StartFrom(g, AllBlocked(g)); Tight(g, m) && Justified(g, m.nodes) && Agrees(m.nodes, out)
  {
    StartFromSound(g, AllBlocked(g));
    StartFromCancels(g, AllBlocked(g));
  }

  lemma {:induction false} RunInvariant(g: Graph, out: Outcomes, ms: seq<Model>)
    requires Closed(g) && IsOutcomes(g, out) && IsRun(g, out, ms)
    ensures var m := ms[|ms| - 1]; Tight(g, m) && Justified(g, m.nodes) && Agrees(m.nodes, out)
    decreases |ms|
  {
    hide Step, StepOf, Sound, CancelClosed, Justified, Agrees;
    if |ms| == 1 {
      StartKeeps(g, out);
    } else {
      RunInvariant(g, out, ms[..|ms| - 1]);
      StepKeeps(g, out, ms[|ms| - 2], ms[|ms| - 1]);
    }
  }

  /** Some strict ancestor of v does not succeed. */
  ghost predicate Doomed(g: Graph, out: Outcomes, v: NodeId) {
    exists a :: a in out && !out[a].Succeeded? && Below(g, a, v)
  }

  ghost function FinalState(g: Graph, out: Outcomes, v: NodeId): NodeState
    requires v in out
  {
    if Doomed(g, out, v) then Canceled else out[v]
  }

  lemma {:induction false} FinalStates(g: Graph, t: seq<NodeId>, out: Outcomes, m: Model, v: NodeId)
    requires Closed(g) && IsTopo(g, t) && IsOutcomes(g, out) && v in m.nodes
    requires Sound(g, m) && Justified(g, m.nodes) && Agrees(m.nodes, out) && AllTerminal(m.nodes)
    ensures m.nodes[v] == FinalState(g, out, v)
    decreases IndexIn(t, v)
  {
    hide Sound, Justified, IndexIn;
    SoundKeys(g, m);
    if m.nodes[v].Canceled? {
      var u := CanceledBy(g, m.nodes, v);
      TopoStep(g, t, u, v);
      if m.nodes[u].Canceled? {
        FinalStates(g, t, out, m, u);
        DoomSpreads(g, out, u, v);
      } else {
        EdgeIsBelow(g, u, v);
      }
    } else if Doomed(g, out, v) {
      var a :| a in out && !out[a].Succeeded? && Below(g, a, v);
      var u := BelowLastStep(g, a, v);
      TopoStep(g, t, u, v);
      UnlockedPred(g, m, Edge(u, v));
      ReachesSplits(g, a, u);
      FinalStates(g, t, out, m, u);
    }
  }

  lemma TopoStep(g: Graph, t: seq<NodeId>, u: NodeId, v: NodeId)
    requires Closed(g) && IsTopo(g, t) && Edge(u, v) in g.edges
    ensures u in g.nodes && IndexIn(t, u) < IndexIn(t, v)
  {
    assert v in Elements(t);
    TopoEdgeForward(g, t, Edge(u, v));
  }

  lemma CanceledBy(g: Graph, nodes: Nodes, v: NodeId) returns (u: NodeId)
    requires Justified(g, nodes) && v in nodes && nodes[v].Canceled?
    ensures u in nodes && Edge(u, v) in g.edges && nodes[u].Broken()
  {
    assert BrokenPred(g, nodes, v);
    u :| u in nodes && Edge(u, v) in g.edges && nodes[u].Broken();
  }

  lemma DoomSpreads(g: Graph, out: Outcomes, u: NodeId, v: NodeId)
    requires Doomed(g, out, u) && Edge(u, v) in g.edges
    ensures Doomed(g, out, v)
  {
    var a :| a in out && !out[a].Succeeded? && Below(g, a, u);
    EdgeIsBelow(g, u, v);
    ReachesTransitive(g, a, u, v);
  }

  /** Every complete order of steps of a run ends in the same state. */
  lemma ScheduleIndependence(g: Graph, t: seq<NodeId>, out: Outcomes, ms: seq<Model>)
    requires Closed(g) && IsTopo(g, t) && IsOutcomes(g, out) && IsRun(g, out, ms) && AllTerminal(ms[|ms| - 1].nodes)
    ensures ms[|ms| - 1].nodes == map v | v in out :: FinalState(g, out, v)
    ensures Verdict(ms[|ms| - 1].nodes) ==
            if exists v :: v in out && !out[v].Succeeded? then RunFailed else RunSucceeded
  {
    var m := ms[|ms| - 1];
    RunInvariant(g, out, ms);
    SoundKeys(g, m);
    hide Sound, CancelClosed, Justified, Step, IndexIn, FinalState;
    forall v | v in m.nodes ensures m.nodes[v] == FinalState(g, out, v) {
      FinalStates(g, t, out, m, v);
    }
    RunVerdict(g, t, out);
  }

  lemma RunVerdict(g: Graph, t: seq<NodeId>, out: Outcomes)
    requires Closed(g) && IsTopo(g, t) && IsOutcomes(g, out)
    ensures Verdict(map v | v in out :: FinalState(g, out, v)) ==
            if exists v :: v in out && !out[v].Succeeded? then RunFailed else RunSucceeded
  {
    hide IndexIn;
    var nodes := map v | v in out :: FinalState(g, out, v);
    if v :| v in out && !out[v].Succeeded? {
      var bad := set x | x in out && !out[x].Succeeded?;
      assert v in bad;
      var first := FirstInTopo(g, t, bad);
      if Doomed(g, out, first) {
        var a :| a in out && !out[a].Succeeded? && Below(g, a, first);
        assert first in Elements(t) && a in bad;
        TopoBelowForward(g, t, a, first);
      }
      assert first in nodes && nodes[first] == out[first];
    } else {
      assert forall x :: x in nodes ==> nodes[x].Succeeded?;
    }
  }
}
