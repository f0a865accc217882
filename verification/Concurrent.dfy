/** The in-process concurrent scheduler (engine/core/src/concurrent_scheduler.cpp)
  as a step system: the dispatcher and the pool's workers interleave freely,
  one shared access at a time. */
module Concurrency {
  import opened Ids
  import opened Graphs
  import opened Dags
  import opened StateMachines
  import opened ExecutionPolicies
  import opened Schedulers

  /** How far the worker task of a node is. Completed carries the nodes that
    complete_node returned and that are yet to be queued. */
  datatype Phase =
    | Idle
    | Submitted
    | Started
    | Logged
    | Released
    | Completed(changed: seq<NodeId>)
    | Pushed
    | Finished
  {
    predicate Holding() { Submitted? || Started? || Logged? }
    predicate Active() { !Idle? && !Finished? }
    predicate InLog() { !Idle? && !Submitted? && !Started? }

    function Rank(): nat {
      match this
      case Idle => 0
      case Submitted => 1
      case Started => 2
      case Logged => 3
      case Released => 4
      case Completed(_) => 5
      case Pushed => 6
      case Finished => 7
    }
  }

  type Phases = map<NodeId, Phase>

  datatype Sched = Sched(model: Model, queue: seq<NodeId>, blocked: seq<NodeId>, usage: map<string, int>,
                         inFlight: int, phase: Phases, log: RunLog)

  datatype Op =
    | Pop
    | Retry(index: nat)
    | Start(node: NodeId)
    | Record(node: NodeId)
    | Release(node: NodeId)
    | Complete(node: NodeId, changed: seq<NodeId>)
    | Push(node: NodeId)
    | Finish(node: NodeId)

  function Used(usage: map<string, int>, key: string): int {
    if key in usage then usage[key] else 0
  }

  predicate HasRoom(j: Job, usage: map<string, int>, v: NodeId) {
    Used(usage, j.Need(v).key) < j.Need(v).capacity
  }

  predicate InState(m: Model, v: NodeId, st: NodeState) {
    v in m.nodes && m.nodes[v] == st
  }

  // ------------------------------------------------------------------------
  // Steps
  // ------------------------------------------------------------------------

  /** Takes a slot and hands v to the pool; v is not looked at again. */
  ghost function Dispatch(j: Job, s: Sched, v: NodeId): Sched {
    s.(model := if InState(s.model, v, Ready) then Move(s.model, v, Dispatched) else s.model,
       usage := s.usage[j.Need(v).key := Used(s.usage, j.Need(v).key) + 1],
       inFlight := s.inFlight + 1,
       phase := s.phase[v := Submitted])
  }

  ghost function CompleteModel(j: Job, m: Model, v: NodeId): Model {
    if !InState(m, v, Running) then m
    else if j.Result(v).completed then Succeed(j.dag.G(), m, v)
    else Break(j.dag.G(), m, v, Failed)
  }

  ghost predicate IsChanged(before: Nodes, after: Nodes, v: NodeId, changed: seq<NodeId>) {
    Distinct(changed)
    && forall x :: x in changed <==> x in after && x in before && x != v && after[x] != before[x]
  }

  ghost function Freed(usage: map<string, int>, key: string): map<string, int> {
    if Used(usage, key) > 0 then usage[key := usage[key] - 1] else usage
  }

  predicate At(s: Sched, v: NodeId, p: Phase) {
    v in s.phase && s.phase[v] == p
  }

  ghost predicate Enabled(j: Job, s: Sched, op: Op) {
    match op
    case Pop => s.queue != []
    case Retry(i) => i < |s.blocked| && HasRoom(j, s.usage, s.blocked[i])
    case Start(v) => At(s, v, Submitted)
    case Record(v) => At(s, v, Started)
    case Release(v) => At(s, v, Logged)
    case Complete(v, changed) =>
      At(s, v, Released) && IsChanged(s.model.nodes, CompleteModel(j, s.model, v).nodes, v, changed)
    case Push(v) => v in s.phase && s.phase[v].Completed?
    case Finish(v) => At(s, v, Pushed)
  }

  ghost function AfterPop(j: Job, s: Sched): Sched
    requires s.queue != []
  {
    var v, rest := s.queue[0], s.(queue := s.queue[1..]);
    if !InState(s.model, v, Ready) then rest
    else if !HasRoom(j, s.usage, v) then rest.(blocked := s.blocked + [v])
    else Dispatch(j, rest, v)
  }

  ghost function Next(j: Job, s: Sched, op: Op): Sched
    requires Enabled(j, s, op)
  {
    match op
    case Pop => AfterPop(j, s)
    case Retry(i) => Dispatch(j, s.(blocked := s.blocked[..i] + s.blocked[i + 1..]), s.blocked[i])
    case Start(v) =>
      s.(model := if InState(s.model, v, Dispatched) then Move(s.model, v, Running) else s.model,
         phase := s.phase[v := Started])
    case Record(v) => s.(log := s.log + [Entry(v, j.Result(v))], phase := s.phase[v := Logged])
    case Release(v) => s.(usage := Freed(s.usage, j.Need(v).key), phase := s.phase[v := Released])
    case Complete(v, changed) => s.(model := CompleteModel(j, s.model, v), phase := s.phase[v := Completed(changed)])
    case Push(v) => s.(queue := s.queue + s.phase[v].changed, phase := s.phase[v := Pushed])
    case Finish(v) => s.(inFlight := s.inFlight - 1, phase := s.phase[v := Finished])
  }

  /** run() has started the state machine and queued the ready nodes. */
  ghost predicate Initial(j: Job, s: Sched) {
    var g := j.dag.G();
    && s.model == StartFrom(g, AllBlocked(g))
    && Distinct(s.queue) && (forall v :: v in s.queue <==> InState(s.model, v, Ready))
    && s.blocked == [] && s.usage == map[] && s.inFlight == 0 && s.log == []
    && s.phase.Keys == g.nodes && forall v :: v in s.phase ==> s.phase[v].Idle?
  }

  /** The dispatcher's exit test. */
  predicate Returned(s: Sched) {
    s.inFlight == 0 && s.queue == [] && s.blocked == []
  }

  ghost predicate IsExecution(j: Job, ss: seq<Sched>, ops: seq<Op>) {
    && |ss| == |ops| + 1 && Initial(j, ss[0])
    && forall i {:trigger ops[i]} :: 0 <= i < |ops| ==> Enabled(j, ss[i], ops[i]) && ss[i + 1] == Next(j, ss[i], ops[i])
  }

  // ------------------------------------------------------------------------
  // Invariants
  // ------------------------------------------------------------------------

  predicate Matches(p: Phase, st: NodeState) {
    match p
    case Idle => st.Blocked? || st.Ready? || st.Canceled?
    case Submitted => st.Dispatched?
    case Started => st.Running?
    case Logged => st.Running?
    case Released => st.Running?
    case Completed(_) => st.Succeeded? || st.Failed?
    case Pushed => st.Succeeded? || st.Failed?
    case Finished => st.Succeeded? || st.Failed?
  }

  /** Each worker task is where its node's state says. */
  ghost predicate InStep(s: Sched) {
    s.phase.Keys == s.model.nodes.Keys
    && forall v {:trigger s.phase[v]} {:trigger s.model.nodes[v]} :: v in s.phase ==> Matches(s.phase[v], s.model.nodes[v])
  }

  ghost predicate ModelInv(j: Job, m: Model) {
    Tight(j.dag.G(), m) && Justified(j.dag.G(), m.nodes) && Agrees(m.nodes, j.Outcome())
  }

  /** Where a node waits to be looked at. */
  datatype Place = Nowhere | Queued | Deferred | With(worker: NodeId)

  type Places = map<NodeId, Place>

  predicate Is(place: Places, v: NodeId, p: Place) {
    v in place && place[v] == p
  }

  ghost predicate Lists(place: Places, list: seq<NodeId>, p: Place) {
    Distinct(list) && forall v :: v in list <==> Is(place, v, p)
  }

  function ChangedBy(s: Sched, u: NodeId): seq<NodeId> {
    if u in s.phase && s.phase[u].Completed? then s.phase[u].changed else []
  }

  /** No node is listed twice; every ready node is listed, and only ready and
    canceled nodes are, the deferred ones ready. */
  ghost predicate Placed(s: Sched, place: Places) {
    && place.Keys == s.model.nodes.Keys
    && Lists(place, s.queue, Queued) && Lists(place, s.blocked, Deferred)
    && (forall u {:trigger ChangedBy(s, u)} :: Lists(place, ChangedBy(s, u), With(u)))
    && (forall v {:trigger place[v]} {:trigger s.model.nodes[v]} :: v in place ==> PlaceFits(place[v], s.model.nodes[v]))
  }

  predicate PlaceFits(p: Place, st: NodeState) {
    && (st.Ready? ==> !p.Nowhere?)
    && (!p.Nowhere? ==> st.Ready? || st.Canceled?)
    && (p.Deferred? ==> st.Ready?)
  }

  ghost predicate AllPlaced(s: Sched) {
    exists place :: Placed(s, place)
  }

  function NodesIn(log: RunLog): (nodes: seq<NodeId>)
    ensures |nodes| == |log| && forall i :: 0 <= i < |log| ==> nodes[i] == log[i].node
  {
    seq(|log|, i requires 0 <= i < |log| => log[i].node)
  }

  /** The log has each node that ran once, below its predecessors. */
  ghost predicate LogInv(j: Job, s: Sched) {
    && Distinct(NodesIn(s.log))
    && (forall v :: v in NodesIn(s.log) <==> v in s.phase && s.phase[v].InLog())
    && (forall i :: 0 <= i < |s.log| ==> s.log[i].result == j.Result(s.log[i].node))
    && PredsFirst(j.dag.G(), NodesIn(s.log))
  }

  ghost function Holders(j: Job, phase: Phases, key: string): set<NodeId> {
    set v | v in phase && phase[v].Holding() && j.Need(v).key == key
  }

  ghost function Crowd(j: Job, phase: Phases, m: NodeId): set<NodeId> {
    set v | v in phase && phase[v].Holding() && j.Need(v).key == j.Need(m).key
            && j.Need(v).capacity <= j.Need(m).capacity
  }

  ghost predicate Fits(j: Job, phase: Phases, m: NodeId) {
    m in phase && phase[m].Holding() ==> |Crowd(j, phase, m)| <= j.Need(m).capacity
  }

  ghost predicate UsageInv(j: Job, s: Sched) {
    && (forall key {:trigger Used(s.usage, key)} :: Used(s.usage, key) == |Holders(j, s.phase, key)|)
    && (forall m {:trigger Fits(j, s.phase, m)} :: Fits(j, s.phase, m))
  }

  ghost function ActiveNodes(phase: Phases): set<NodeId> {
    set v | v in phase && phase[v].Active()
  }

  ghost predicate Inv(j: Job, s: Sched) {
    && ModelInv(j, s.model) && InStep(s) && AllPlaced(s) && LogInv(j, s) && UsageInv(j, s)
    && s.inFlight == |ActiveNodes(s.phase)|
  }

  // ------------------------------------------------------------------------
  // What a completion does to other nodes
  // ------------------------------------------------------------------------

  /** Completing v settles it; any other node it touches was blocked and becomes
    ready or canceled. */
  ghost predicate Settles(before: Nodes, after: Nodes, v: NodeId) {
    && after.Keys == before.Keys && v in after && (after[v].Succeeded? || after[v].Failed?)
    && forall x :: x in before && x != v ==>
         after[x] == before[x] || (before[x].Blocked? && (after[x].Ready? || after[x].Canceled?))
  }

  lemma BreakSettles(g: Graph, m: Model, v: NodeId)
    requires Closed(g) && Sound(g, m) && v in m.nodes && m.nodes[v].Running?
    ensures Settles(m.nodes, Break(g, m, v, Failed).nodes, v)
  {
    var nodes, after := m.nodes[v := Failed], Break(g, m, v, Failed).nodes;
    hide Sound;
    CancelTargetsAreUnfinished(g, nodes, v);
    forall x | x in m.nodes && x != v && after[x] != m.nodes[x] ensures m.nodes[x].Blocked? {
      var u := CancelTargetPred(g, nodes, v, x);
      if u != v { var _ := CancelTargetPred(g, nodes, v, u); }
      UnlockedPred(g, m, Edge(u, x));
    }
  }

  lemma CompleteSettles(j: Job, m: Model, v: NodeId)
    requires j.dag.Valid() && ModelInv(j, m) && InState(m, v, Running)
    ensures Settles(m.nodes, CompleteModel(j, m, v).nodes, v)
  {
    hide Sound, PendingCount, CancelFrom, Job.Result, Dag.Valid;
    TopoOrderIsTopo(j.dag);
    BreakSettles(j.dag.G(), m, v);
  }

  /** The node that a step is about. */
  function Handled(s: Sched, op: Op): NodeId {
    match op
    case Pop => if s.queue != [] then s.queue[0] else ""
    case Retry(i) => if i < |s.blocked| then s.blocked[i] else ""
    case Start(v) => v
    case Record(v) => v
    case Release(v) => v
    case Complete(v, _) => v
    case Push(v) => v
    case Finish(v) => v
  }

  /** Every model change is a step of the state machine. */
  lemma ModelMoves(j: Job, s: Sched, op: Op)
    requires j.dag.Valid() && Enabled(j, s, op) && s.model.nodes.Keys == j.dag.G().nodes
    ensures var m, m' := s.model, Next(j, s, op).model;
            m' == m || Step(j.dag.G(), j.Outcome(), m, m')
  {
    hide Sound, CancelFrom, Unblock, CountDeps, Job.Result, Dag.Valid;
    var g, out, m, m' := j.dag.G(), j.Outcome(), s.model, Next(j, s, op).model;
    if m' != m {
      var v := Handled(s, op);
      assert v in m.nodes && v in out && StepOf(g, out, m, m', v);
    }
  }

  lemma ModelKept(j: Job, s: Sched, op: Op)
    requires j.dag.Valid() && ModelInv(j, s.model) && Enabled(j, s, op)
    ensures ModelInv(j, Next(j, s, op).model)
  {
    hide Sound, Step, Justified, Agrees, CancelClosed, Next, Enabled, Dag.Valid, Job.Result;
    var g, out := j.dag.G(), j.Outcome();
    TopoOrderIsTopo(j.dag);
    SoundKeys(g, s.model);
    ModelMoves(j, s, op);
    if Next(j, s, op).model != s.model {
      StepKeeps(g, out, s.model, Next(j, s, op).model);
    }
  }

  // ------------------------------------------------------------------------
  // Every step keeps the invariants
  // ------------------------------------------------------------------------

  /** The node whose worker task this step moves on. */
  function Mover(j: Job, s: Sched, op: Op): Option<NodeId> {
    var v := Handled(s, op);
    if op.Pop? && !(InState(s.model, v, Ready) && HasRoom(j, s.usage, v)) then None else Some(v)
  }

  lemma DeferredIsReady(s: Sched, i: nat)
    requires AllPlaced(s) && i < |s.blocked|
    ensures InState(s.model, s.blocked[i], Ready)
  {
    var place :| Placed(s, place);
    assert s.blocked[i] in s.blocked;
  }

  /** A task moves on by one phase at a time, and nothing else moves with it. */
  lemma PhaseAdvances(j: Job, s: Sched, op: Op)
    requires Enabled(j, s, op) && InStep(s) && AllPlaced(s)
    ensures var s' := Next(j, s, op);
            match Mover(j, s, op)
            case None => s'.phase == s.phase && s'.usage == s.usage && s'.inFlight == s.inFlight
            case Some(v) => v in s.phase && v in s'.phase && s'.phase == s.phase[v := s'.phase[v]]
                            && s'.phase[v].Rank() == s.phase[v].Rank() + 1
  {
    hide AllPlaced, CompleteModel, IsChanged, Job.Need, Job.Result;
    if op.Retry? { DeferredIsReady(s, op.index); }
  }

  lemma InStepKept(j: Job, s: Sched, op: Op)
    requires j.dag.Valid() && Enabled(j, s, op) && ModelInv(j, s.model) && InStep(s) && AllPlaced(s)
    ensures InStep(Next(j, s, op))
  {
    hide AllPlaced, ModelInv, CompleteModel, IsChanged, Job.Need, Job.Result, Dag.Valid;
    if op.Retry? { DeferredIsReady(s, op.index); }
    if op.Complete? { CompleteInStep(j, s, op.node, op.changed); }
  }

  lemma CompleteInStep(j: Job, s: Sched, v: NodeId, changed: seq<NodeId>)
    requires j.dag.Valid() && ModelInv(j, s.model) && InStep(s) && At(s, v, Released)
    ensures InStep(s.(model := CompleteModel(j, s.model, v), phase := s.phase[v := Completed(changed)]))
  {
    hide ModelInv, CompleteModel, Dag.Valid;
    CompleteSettles(j, s.model, v);
  }

  lemma InFlightKept(j: Job, s: Sched, op: Op)
    requires Enabled(j, s, op) && InStep(s) && AllPlaced(s) && s.inFlight == |ActiveNodes(s.phase)|
    ensures var s' := Next(j, s, op); s'.inFlight == |ActiveNodes(s'.phase)|
  {
    hide Next, Enabled, InStep, AllPlaced, Job.Need, Job.Result;
    var s' := Next(j, s, op);
    PhaseAdvances(j, s, op);
    InFlightFollows(j, s, op);
    match Mover(j, s, op)
    case None =>
    case Some(v) =>
      ActiveChange(s.phase, v, s'.phase[v]);
  }

  lemma InFlightFollows(j: Job, s: Sched, op: Op)
    requires Enabled(j, s, op) && InStep(s) && AllPlaced(s)
    ensures var s' := Next(j, s, op);
            match Mover(j, s, op)
            case None => s'.inFlight == s.inFlight
            case Some(v) => v in s'.phase
                            && s'.inFlight == s.inFlight + (if s'.phase[v].Submitted? then 1 else 0)
                                                         - (if s'.phase[v].Finished? then 1 else 0)
  {
    hide AllPlaced, InStep, CompleteModel, IsChanged, Job.Need, Job.Result;
  }

  lemma UsageKept(j: Job, s: Sched, op: Op)
    requires Enabled(j, s, op) && InStep(s) && AllPlaced(s) && UsageInv(j, s)
    ensures UsageInv(j, Next(j, s, op))
  {
    var s' := Next(j, s, op);
    PhaseAdvances(j, s, op);
    match Mover(j, s, op)
    case None =>
    case Some(v) =>
      UsageCounts(j, s, op, v);
      TakenWithRoom(j, s, op, v);
      hide AllPlaced, InStep, Next, Enabled, Fits, Holders, Job.Need;
      assert Used(s.usage, j.Need(v).key) == |Holders(j, s.phase, j.Need(v).key)|;
      forall m ensures Fits(j, s'.phase, m) {
        assert Fits(j, s.phase, m);
        FitsChange(j, s.phase, v, s'.phase[v], m);
      }
  }

  lemma UsageCounts(j: Job, s: Sched, op: Op, v: NodeId)
    requires Enabled(j, s, op) && InStep(s) && AllPlaced(s) && Mover(j, s, op) == Some(v)
    requires forall key {:trigger Used(s.usage, key)} :: Used(s.usage, key) == |Holders(j, s.phase, key)|
    ensures var s' := Next(j, s, op);
            forall key {:trigger Used(s'.usage, key)} :: Used(s'.usage, key) == |Holders(j, s'.phase, key)|
  {
    var s' := Next(j, s, op);
    PhaseAdvances(j, s, op);
    hide AllPlaced, InStep, IsChanged, CompleteModel, Job.Need, Job.Result;
    forall key ensures Used(s'.usage, key) == |Holders(j, s'.phase, key)| {
      assert Used(s.usage, key) == |Holders(j, s.phase, key)|;
      HoldersChange(j, s.phase, v, s'.phase[v], key);
    }
  }

  lemma HoldersChange(j: Job, phase: Phases, v: NodeId, p: Phase, key: string)
    requires v in phase
    ensures |Holders(j, phase[v := p], key)| == |Holders(j, phase, key)|
              + (if p.Holding() && j.Need(v).key == key then 1 else 0)
              - (if phase[v].Holding() && j.Need(v).key == key then 1 else 0)
  {
    hide Job.Need;
    var before, after := Holders(j, phase, key), Holders(j, phase[v := p], key);
    assert before - {v} == after - {v};
    assert v in before <==> phase[v].Holding() && j.Need(v).key == key;
    assert v in after <==> p.Holding() && j.Need(v).key == key;
    hide Holders;
    Without(before, v);
    Without(after, v);
  }

  lemma Without(s: set<NodeId>, v: NodeId)
    ensures |s| == |s - {v}| + if v in s then 1 else 0
  {
  }

  lemma ActiveChange(phase: Phases, v: NodeId, p: Phase)
    requires v in phase
    ensures |ActiveNodes(phase[v := p])| == |ActiveNodes(phase)|
              + (if p.Active() then 1 else 0) - (if phase[v].Active() then 1 else 0)
  {
    var before, after := ActiveNodes(phase), ActiveNodes(phase[v := p]);
    assert before - {v} == after - {v};
    assert (v in before <==> phase[v].Active()) && (v in after <==> p.Active());
    hide ActiveNodes;
    Without(before, v);
    Without(after, v);
  }

  lemma FitsChange(j: Job, phase: Phases, v: NodeId, p: Phase, m: NodeId)
    requires v in phase && Fits(j, phase, m)
    requires p.Holding() && !phase[v].Holding() ==> |Holders(j, phase, j.Need(v).key)| < j.Need(v).capacity
    ensures Fits(j, phase[v := p], m)
  {
    hide Job.Need;
    if m in phase && phase[v := p][m].Holding() {
      var crowd, crowd' := Crowd(j, phase, m), Crowd(j, phase[v := p], m);
      if !phase[v].Holding() && v in crowd' {
        var key := j.Need(v).key;
        assert crowd' <= Holders(j, phase, key) + {v};
        SubsetSize(crowd', Holders(j, phase, key) + {v});
      } else {
        assert crowd' <= crowd;
        SubsetSize(crowd', crowd);
      }
    }
  }

  /** A task gets hold of its resource only where there is room. */
  lemma TakenWithRoom(j: Job, s: Sched, op: Op, v: NodeId)
    requires Enabled(j, s, op) && InStep(s) && AllPlaced(s) && Mover(j, s, op) == Some(v)
    ensures v in s.phase && v in Next(j, s, op).phase
    ensures Next(j, s, op).phase[v].Holding() && !s.phase[v].Holding() ==> HasRoom(j, s.usage, v)
  {
    PhaseAdvances(j, s, op);
    hide AllPlaced, InStep, IsChanged, CompleteModel, HasRoom, Job.Need, Job.Result;
  }

  lemma LogKept(j: Job, s: Sched, op: Op)
    requires j.dag.Valid() && Enabled(j, s, op) && ModelInv(j, s.model) && InStep(s) && AllPlaced(s) && LogInv(j, s)
    ensures LogInv(j, Next(j, s, op))
  {
    hide AllPlaced, ModelInv, Dag.Valid;
    if op.Record? {
      RecordKeepsLog(j, s, op.node);
    } else {
      PhaseAdvances(j, s, op);
      hide InStep, IsChanged, CompleteModel, Job.Need, Job.Result, PredsFirst, Distinct, NodesIn;
      assert Next(j, s, op).log == s.log;
    }
  }

  lemma RecordKeepsLog(j: Job, s: Sched, v: NodeId)
    requires j.dag.Valid() && ModelInv(j, s.model) && InStep(s) && LogInv(j, s) && At(s, v, Started)
    ensures LogInv(j, s.(log := s.log + [Entry(v, j.Result(v))], phase := s.phase[v := Logged]))
  {
    hide Dag.Valid, ModelInv, InStep, Job.Result;
    PredsLogged(j, s, v);
    var nodes := NodesIn(s.log);
    assert NodesIn(s.log + [Entry(v, j.Result(v))]) == nodes + [v];
    PredsFirstAppend(j.dag.G(), nodes, v);
    DistinctGrows(nodes, v);
    hide PredsFirst, Distinct;
  }

  lemma DistinctGrows(t: seq<NodeId>, v: NodeId)
    requires Distinct(t) && v !in t
    ensures Distinct(t + [v])
  {
  }

  lemma PredsFirstAppend(g: Graph, t: seq<NodeId>, v: NodeId)
    requires PredsFirst(g, t) && forall e :: e in g.edges && e.to == v ==> e.from in t
    ensures PredsFirst(g, t + [v])
  {
    forall i, e | 0 <= i < |t| + 1 && e in g.edges && e.to == (t + [v])[i] ensures e.from in (t + [v])[..i] {
      assert (t + [v])[..i] == t[..i];
    }
  }

  /** A node runs only after its predecessors are logged. */
  lemma PredsLogged(j: Job, s: Sched, v: NodeId)
    requires j.dag.Valid() && ModelInv(j, s.model) && InStep(s) && LogInv(j, s) && At(s, v, Started)
    ensures forall e :: e in j.dag.G().edges && e.to == v ==> e.from in NodesIn(s.log)
  {
    hide ModelInv, Dag.Valid, Distinct, PredsFirst, NodesIn, Job.Result;
    forall e | e in j.dag.G().edges && e.to == v ensures e.from in NodesIn(s.log) {
      PredSucceeded(j, s.model, e);
    }
  }

  lemma PredSucceeded(j: Job, m: Model, e: Edge)
    requires j.dag.Valid() && ModelInv(j, m) && e in j.dag.G().edges
    ensures e.from in m.nodes && e.to in m.nodes
    ensures m.nodes[e.to].Unlocked() ==> m.nodes[e.from].Succeeded?
  {
    hide Sound, Dag.Valid;
    TopoOrderIsTopo(j.dag);
    UnlockedPred(j.dag.G(), m, e);
  }

  // ------------------------------------------------------------------------
  // No node is lost or listed twice
  // ------------------------------------------------------------------------

  ghost function Moved(place: Places, xs: seq<NodeId>, p: Place): Places {
    map x | x in place :: if x in xs then p else place[x]
  }

  lemma ListsStay(place: Places, list: seq<NodeId>, p: Place, xs: seq<NodeId>, q: Place)
    requires Lists(place, list, p) && p != q && forall x :: x in xs ==> !Is(place, x, p)
    ensures Lists(Moved(place, xs, q), list, p)
  {
    hide Distinct;
  }

  lemma ListsGain(place: Places, list: seq<NodeId>, p: Place, xs: seq<NodeId>)
    requires Lists(place, list, p) && Distinct(xs) && forall x :: x in xs ==> x in place && place[x] != p
    ensures Lists(Moved(place, xs, p), list + xs, p)
  {
    forall i, k | 0 <= i < |list| && 0 <= k < |xs| ensures list[i] != xs[k] {
      assert list[i] in list && xs[k] in xs;
    }
  }

  lemma ListsLose(place: Places, list: seq<NodeId>, p: Place, i: nat, q: Place)
    requires Lists(place, list, p) && i < |list| && p != q
    ensures Lists(Moved(place, [list[i]], q), list[..i] + list[i + 1..], p)
  {
    var rest := list[..i] + list[i + 1..];
    forall v ensures v in rest <==> v in list && v != list[i] {
      if v in list && v != list[i] {
        var k :| 0 <= k < |list| && list[k] == v;
        assert v == if k < i then rest[k] else rest[k - 1];
      }
    }
    assert forall k :: 0 <= k < |rest| ==> rest[k] == if k < i then list[k] else list[k + 1];
  }

  lemma ListsEmpty(place: Places, list: seq<NodeId>, p: Place, q: Place)
    requires Lists(place, list, p) && p != q
    ensures Lists(Moved(place, list, q), [], p)
  {
  }

  /** The nodes a step moves from one list to another, from where, and where
    to. */
  ghost function Moving(s: Sched, op: Op): seq<NodeId> {
    match op
    case Pop => if s.queue != [] then [s.queue[0]] else []
    case Retry(i) => if i < |s.blocked| then [s.blocked[i]] else []
    case Complete(_, changed) => changed
    case Push(v) => ChangedBy(s, v)
    case _ => []
  }

  function Source(op: Op): Place {
    match op
    case Pop => Queued
    case Retry(_) => Deferred
    case Push(v) => With(v)
    case _ => Nowhere
  }

  function Target(j: Job, s: Sched, op: Op): Place {
    match op
    case Pop =>
      if s.queue != [] && InState(s.model, s.queue[0], Ready) && !HasRoom(j, s.usage, s.queue[0]) then Deferred
      else Nowhere
    case Complete(v, _) => With(v)
    case Push(_) => Queued
    case _ => Nowhere
  }

  ghost function PlacesAfter(j: Job, s: Sched, op: Op, place: Places): Places {
    Moved(place, Moving(s, op), Target(j, s, op))
  }

  lemma BeforeMoving(j: Job, s: Sched, op: Op, place: Places)
    requires j.dag.Valid() && Enabled(j, s, op) && ModelInv(j, s.model) && InStep(s) && Placed(s, place)
    ensures Distinct(Moving(s, op)) && forall x :: x in Moving(s, op) ==> Is(place, x, Source(op))
  {
    hide ModelInv, CompleteModel, Dag.Valid;
    if op.Complete? {
      CompleteSettles(j, s.model, op.node);
    } else if op.Push? {
      assert Lists(place, ChangedBy(s, op.node), With(op.node));
    }
  }

  lemma QueuePlaced(j: Job, s: Sched, op: Op, place: Places)
    requires Enabled(j, s, op) && Placed(s, place)
    requires Distinct(Moving(s, op)) && forall x :: x in Moving(s, op) ==> Is(place, x, Source(op))
    ensures Lists(PlacesAfter(j, s, op, place), Next(j, s, op).queue, Queued)
  {
    hide IsChanged, CompleteModel, Placed, Moved, Lists, Distinct;
    ListedPlaces(s, place);
    var xs, to := Moving(s, op), Target(j, s, op);
    if op.Pop? {
      ListsLose(place, s.queue, Queued, 0, to);
      assert s.queue[1..] == [] + s.queue[1..];
    } else if op.Push? {
      ListsGain(place, s.queue, Queued, xs);
    } else {
      ListsStay(place, s.queue, Queued, xs, to);
    }
  }

  lemma BlockedPlaced(j: Job, s: Sched, op: Op, place: Places)
    requires Enabled(j, s, op) && Placed(s, place)
    requires Distinct(Moving(s, op)) && forall x :: x in Moving(s, op) ==> Is(place, x, Source(op))
    ensures Lists(PlacesAfter(j, s, op, place), Next(j, s, op).blocked, Deferred)
  {
    hide IsChanged, CompleteModel, Placed, Moved, Lists, Distinct;
    ListedPlaces(s, place);
    var xs, to := Moving(s, op), Target(j, s, op);
    if op.Retry? {
      ListsLose(place, s.blocked, Deferred, op.index, to);
    } else if to.Deferred? {
      ListsGain(place, s.blocked, Deferred, xs);
    } else {
      ListsStay(place, s.blocked, Deferred, xs, to);
    }
  }

  lemma ChangedPlaced(j: Job, s: Sched, op: Op, place: Places, u: NodeId)
    requires Enabled(j, s, op) && Placed(s, place) && InStep(s) && AllPlaced(s)
    requires Distinct(Moving(s, op)) && forall x :: x in Moving(s, op) ==> Is(place, x, Source(op))
    ensures Lists(PlacesAfter(j, s, op, place), ChangedBy(Next(j, s, op), u), With(u))
  {
    ListedPlaces(s, place);
    ChangedByAfter(j, s, op, u);
    hide Enabled, Next, ChangedBy, Placed, Moved, Lists, Distinct, InStep, AllPlaced, InState, HasRoom;
    var xs, to := Moving(s, op), Target(j, s, op);
    if op == Push(u) {
      ListsEmpty(place, xs, With(u), to);
    } else if op.Complete? && op.node == u {
      ListsGain(place, [], With(u), xs);
      assert [] + xs == xs;
    } else {
      ListsStay(place, ChangedBy(s, u), With(u), xs, to);
    }
  }

  lemma ChangedByAfter(j: Job, s: Sched, op: Op, u: NodeId)
    requires Enabled(j, s, op) && InStep(s) && AllPlaced(s)
    ensures ChangedBy(Next(j, s, op), u) ==
            if op == Push(u) then [] else if op.Complete? && op.node == u then op.changed else ChangedBy(s, u)
    ensures op.Complete? && op.node == u ==> ChangedBy(s, u) == []
  {
    PhaseAdvances(j, s, op);
    hide IsChanged, CompleteModel, InStep, AllPlaced, Job.Need, HasRoom, Job.Result;
  }

  lemma ListedPlaces(s: Sched, place: Places)
    requires Placed(s, place)
    ensures Lists(place, s.queue, Queued) && Lists(place, s.blocked, Deferred)
    ensures forall u {:trigger ChangedBy(s, u)} :: Lists(place, ChangedBy(s, u), With(u))
    ensures place.Keys == s.model.nodes.Keys
  {
  }

  /** A step never leaves a ready node unlisted, nor lists any node that is not
    ready or canceled. */
  lemma PlacesFit(j: Job, s: Sched, op: Op, place: Places, v: NodeId)
    requires j.dag.Valid() && Enabled(j, s, op) && ModelInv(j, s.model) && InStep(s) && Placed(s, place)
    requires forall x :: x in Moving(s, op) ==> Is(place, x, Source(op))
    requires v in place
    ensures v in Next(j, s, op).model.nodes
    ensures PlaceFits(PlacesAfter(j, s, op, place)[v], Next(j, s, op).model.nodes[v])
  {
    hide ModelInv, CompleteModel, Dag.Valid, Lists, Job.Need, Job.Result, HasRoom;
    assert PlaceFits(place[v], s.model.nodes[v]);
    if op.Complete? {
      CompleteSettles(j, s.model, op.node);
    } 
  }

  lemma PlacedNext(j: Job, s: Sched, op: Op, place: Places)
    requires j.dag.Valid() && Enabled(j, s, op) && ModelInv(j, s.model) && InStep(s) && AllPlaced(s) && Placed(s, place)
    ensures Placed(Next(j, s, op), PlacesAfter(j, s, op, place))
  {
    hide Placed, Next, Enabled, ModelInv, InStep, Dag.Valid, Lists;
    var s', place' := Next(j, s, op), PlacesAfter(j, s, op, place);
    BeforeMoving(j, s, op, place);
    hide Distinct, Is, AllPlaced;
    QueuePlaced(j, s, op, place);
    BlockedPlaced(j, s, op, place);
    ListedPlaces(s, place);
    KeysKept(j, s, op);
    forall u ensures Lists(place', ChangedBy(s', u), With(u)) {
      ChangedPlaced(j, s, op, place, u);
    }
    forall v | v in place' ensures PlaceFits(place'[v], s'.model.nodes[v]) {
      PlacesFit(j, s, op, place, v);
    }
    PlacedFromParts(s', place');
  }

  lemma PlacedKept(j: Job, s: Sched, op: Op)
    requires j.dag.Valid() && Enabled(j, s, op) && ModelInv(j, s.model) && InStep(s) && AllPlaced(s)
    ensures AllPlaced(Next(j, s, op))
  {
    hide Placed, Next, Enabled, ModelInv, InStep, Dag.Valid;
    var place :| Placed(s, place);
    PlacedNext(j, s, op, place);
  }

  lemma KeysKept(j: Job, s: Sched, op: Op)
    requires Enabled(j, s, op) && InStep(s)
    ensures Next(j, s, op).model.nodes.Keys == s.model.nodes.Keys
  {
  }

  lemma PlacedFromParts(s: Sched, place: Places)
    requires place.Keys == s.model.nodes.Keys
    requires Lists(place, s.queue, Queued) && Lists(place, s.blocked, Deferred)
    requires forall u {:trigger ChangedBy(s, u)} :: Lists(place, ChangedBy(s, u), With(u))
    requires forall v :: v in place ==> PlaceFits(place[v], s.model.nodes[v])
    ensures Placed(s, place)
  {
  }

  // ------------------------------------------------------------------------
  // Every state of every interleaving
  // ------------------------------------------------------------------------

  lemma NextKeeps(j: Job, s: Sched, op: Op)
    requires j.dag.Valid() && Inv(j, s) && Enabled(j, s, op)
    ensures Inv(j, Next(j, s, op))
  {
    hide ModelInv, InStep, AllPlaced, LogInv, UsageInv, Next, Enabled, Dag.Valid;
    ModelKept(j, s, op);
    InStepKept(j, s, op);
    PlacedKept(j, s, op);
    LogKept(j, s, op);
    UsageKept(j, s, op);
    InFlightKept(j, s, op);
  }

  lemma InitialInv(j: Job, s: Sched)
    requires j.dag.Valid() && Initial(j, s)
    ensures Inv(j, s)
  {
    hide Dag.Valid, Job.Result, ModelInv, StartFrom, InStep, LogInv, AllPlaced, UsageInv;
    InitialModelInv(j);
    InitialStates(j.dag.G());
    InitialPlaced(s);
    InitialLists(j, s);
  }

  lemma InitialModelInv(j: Job)
    requires j.dag.Valid()
    ensures ModelInv(j, StartFrom(j.dag.G(), AllBlocked(j.dag.G())))
  {
    TopoOrderIsTopo(j.dag);
    StartKeeps(j.dag.G(), j.Outcome());
  }

  lemma InitialStates(g: Graph)
    ensures var nodes := StartFrom(g, AllBlocked(g)).nodes;
            nodes.Keys == g.nodes && forall v :: v in nodes ==> nodes[v].Blocked? || nodes[v].Ready?
  {
  }

  lemma InitialPlaced(s: Sched)
    requires Distinct(s.queue) && (forall v :: v in s.queue <==> InState(s.model, v, Ready)) && s.blocked == []
    requires forall v :: v in s.phase ==> s.phase[v].Idle?
    ensures AllPlaced(s)
  {
    var place: Places := map v | v in s.model.nodes :: if s.model.nodes[v].Ready? then Queued else Nowhere;
    hide Distinct;
    NothingRepeats();
    assert Placed(s, place);
  }

  lemma NothingRepeats()
    ensures Distinct<NodeId>([])
  {
  }

  lemma InitialLists(j: Job, s: Sched)
    requires s.phase.Keys == s.model.nodes.Keys && s.usage == map[] && s.log == []
    requires forall v :: v in s.phase ==> s.phase[v].Idle? && Matches(Idle, s.model.nodes[v])
    ensures InStep(s) && UsageInv(j, s) && LogInv(j, s) && ActiveNodes(s.phase) == {}
  {
    hide Job.Result, Job.Need, Distinct;
    NothingRepeats();
    forall key ensures Used(s.usage, key) == |Holders(j, s.phase, key)| {
      assert Holders(j, s.phase, key) == {};
    }
  }

  lemma {:induction false} EveryStateKeeps(j: Job, ss: seq<Sched>, ops: seq<Op>, k: nat)
    requires j.dag.Valid() && IsExecution(j, ss, ops) && k <= |ops|
    ensures Inv(j, ss[k])
  {
    hide Initial, Inv, Enabled, Next, Dag.Valid;
    if k == 0 {
      InitialInv(j, ss[0]);
    } else {
      EveryStateKeeps(j, ss, ops, k - 1);
      assert Enabled(j, ss[k - 1], ops[k - 1]);
      NextKeeps(j, ss[k - 1], ops[k - 1]);
    }
  }

  lemma {:induction false} RankRises(j: Job, ss: seq<Sched>, ops: seq<Op>, a: nat, b: nat, v: NodeId)
    requires j.dag.Valid() && IsExecution(j, ss, ops) && a <= b <= |ops|
    requires v in ss[a].phase
    ensures v in ss[b].phase && ss[a].phase[v].Rank() <= ss[b].phase[v].Rank()
    decreases b - a
  {
    hide IsExecution, Enabled, Next, Inv, Dag.Valid;
    ExecutionLength(j, ss, ops);
    if a < b {
      StepAt(j, ss, ops, a);
      PhaseOf(j, ss[a], ops[a], v);
      RankRises(j, ss, ops, a + 1, b, v);
    }
  }

  lemma ExecutionLength(j: Job, ss: seq<Sched>, ops: seq<Op>)
    requires IsExecution(j, ss, ops)
    ensures |ss| == |ops| + 1
  {
  }

  lemma StepAt(j: Job, ss: seq<Sched>, ops: seq<Op>, k: nat)
    requires j.dag.Valid() && IsExecution(j, ss, ops) && k < |ops|
    ensures Inv(j, ss[k]) && Enabled(j, ss[k], ops[k]) && ss[k + 1] == Next(j, ss[k], ops[k])
  {
    hide Initial, Inv, Enabled, Next, Dag.Valid;
    EveryStateKeeps(j, ss, ops, k);
    assert Enabled(j, ss[k], ops[k]);
  }

  lemma PhaseOf(j: Job, s: Sched, op: Op, v: NodeId)
    requires Inv(j, s) && Enabled(j, s, op) && v in s.phase
    ensures v in Next(j, s, op).phase && s.phase[v].Rank() <= Next(j, s, op).phase[v].Rank()
  {
    PhaseAdvances(j, s, op);
    hide Inv, Enabled, Next;
  }

  /** No task is run twice. */
  lemma StartedOnce(j: Job, ss: seq<Sched>, ops: seq<Op>, a: nat, b: nat, v: NodeId)
    requires j.dag.Valid() && IsExecution(j, ss, ops) && a < b < |ops| && ops[a] == Start(v)
    ensures ops[b] != Start(v)
  {
    hide IsExecution, Inv, Dag.Valid;
    ExecutionLength(j, ss, ops);
    StepAt(j, ss, ops, a);
    StepAt(j, ss, ops, b);
    RankRises(j, ss, ops, a + 1, b, v);
  }

  /** Nodes that share a resource of one capacity never exceed it. */
  lemma WithinCapacity(j: Job, ss: seq<Sched>, ops: seq<Op>, k: nat, key: string, capacity: nat)
    requires j.dag.Valid() && IsExecution(j, ss, ops) && k <= |ops|
    requires forall v :: v in j.dag.G().nodes && j.Need(v).key == key ==> j.Need(v).capacity == capacity
    ensures |Holders(j, ss[k].phase, key)| <= capacity
  {
    hide IsExecution, Dag.Valid, Job.Need, ModelInv, InStep, LogInv, AllPlaced, UsageInv;
    ExecutionLength(j, ss, ops);
    EveryStateKeeps(j, ss, ops, k);
    PhaseKeys(j, ss[k]);
    if m :| m in Holders(j, ss[k].phase, key) {
      FitsAt(j, ss[k], m);
      assert Crowd(j, ss[k].phase, m) == Holders(j, ss[k].phase, key);
    } else {
      assert Holders(j, ss[k].phase, key) == {};
    }
  }

  lemma FitsAt(j: Job, s: Sched, m: NodeId)
    requires UsageInv(j, s) && m in s.phase && s.phase[m].Holding()
    ensures |Crowd(j, s.phase, m)| <= j.Need(m).capacity
  {
    hide Job.Need;
    assert Fits(j, s.phase, m);
  }

  lemma PhaseKeys(j: Job, s: Sched)
    requires ModelInv(j, s.model) && InStep(s)
    ensures s.phase.Keys == s.model.nodes.Keys == j.dag.G().nodes
  {
  }

  /** The dispatcher looks at a node and dispatches it in two steps of its own:
    a worker in between leaves a ready node ready. */
  lemma WorkersKeepReady(j: Job, s: Sched, op: Op, v: NodeId)
    requires j.dag.Valid() && Inv(j, s) && Enabled(j, s, op) && !op.Pop? && !op.Retry?
    requires InState(s.model, v, Ready)
    ensures InState(Next(j, s, op).model, v, Ready)
  {
    hide ModelInv, LogInv, UsageInv, AllPlaced, CompleteModel, Dag.Valid, IsChanged, Job.Need, Job.Result;
    if op.Complete? {
      assert Matches(s.phase[op.node], s.model.nodes[op.node]);
      CompleteSettles(j, s.model, op.node);
    }
  }

  // ------------------------------------------------------------------------
  // When run returns
  // ------------------------------------------------------------------------

  /** The exit test holds only once every node is terminal and every task has
    been logged. */
  lemma ReturnedIsDone(j: Job, s: Sched)
    requires j.dag.Valid() && Inv(j, s) && Returned(s)
    ensures AllTerminal(s.model.nodes)
    ensures forall v :: v in s.model.nodes ==> (v in NodesIn(s.log) <==> !s.model.nodes[v].Canceled?)
  {
    hide ModelInv, UsageInv, AllPlaced, Dag.Valid, InStep, LogInv, ActiveNodes, AllTerminal;
    NothingActive(s.phase);
    NothingReady(s);
    SettledIsTerminal(j, s);
    DoneAreLogged(j, s);
  }

  lemma DoneAreLogged(j: Job, s: Sched)
    requires InStep(s) && LogInv(j, s) && AllTerminal(s.model.nodes)
    requires forall v :: v in s.phase ==> s.phase[v].Idle? || s.phase[v].Finished?
    ensures forall v :: v in s.model.nodes ==> (v in NodesIn(s.log) <==> !s.model.nodes[v].Canceled?)
  {
    hide NodesIn, Distinct, PredsFirst, Job.Result;
    forall v | v in s.model.nodes ensures v in NodesIn(s.log) <==> !s.model.nodes[v].Canceled? {
      assert Matches(s.phase[v], s.model.nodes[v]);
    }
  }

  lemma NothingActive(phase: Phases)
    requires |ActiveNodes(phase)| == 0
    ensures forall v :: v in phase ==> phase[v].Idle? || phase[v].Finished?
  {
    forall v | v in phase ensures !phase[v].Active() {
      assert phase[v].Active() ==> v in ActiveNodes(phase);
    }
  }

  lemma NothingReady(s: Sched)
    requires AllPlaced(s) && s.queue == [] && s.blocked == []
    requires forall v :: v in s.phase ==> s.phase[v].Idle? || s.phase[v].Finished?
    ensures forall v :: v in s.model.nodes ==> !s.model.nodes[v].Ready?
  {
    var place :| Placed(s, place);
    forall v | v in s.model.nodes ensures !s.model.nodes[v].Ready? {
      assert PlaceFits(place[v], s.model.nodes[v]);
      assert !Is(place, v, Queued) && !Is(place, v, Deferred);
      forall u ensures !Is(place, v, With(u)) {
        assert Lists(place, ChangedBy(s, u), With(u));
      }
      assert Is(place, v, place[v]);
    }
  }

  lemma SettledIsTerminal(j: Job, s: Sched)
    requires j.dag.Valid() && ModelInv(j, s.model) && InStep(s)
    requires forall v :: v in s.phase ==> s.phase[v].Idle? || s.phase[v].Finished?
    requires forall v :: v in s.model.nodes ==> !s.model.nodes[v].Ready?
    ensures AllTerminal(s.model.nodes)
  {
    hide Sound, CancelClosed, Justified, Agrees, Dag.Valid;
    TopoOrderIsTopo(j.dag);
    forall v | v in s.model.nodes ensures !s.model.nodes[v].Live() {
      assert Matches(s.phase[v], s.model.nodes[v]);
    }
    if !AllTerminal(s.model.nodes) {
      NeverStuck(j.dag.G(), j.dag.topoOrder, s.model);
    }
  }

  /** Every interleaving that returns ends in the states the tasks' outcomes
    dictate, having logged exactly the nodes below no failure, each after its
    predecessors. */
  lemma EveryReturnAgrees(j: Job, ss: seq<Sched>, ops: seq<Op>)
    requires j.dag.Valid() && IsExecution(j, ss, ops) && Returned(ss[|ops|])
    ensures var s := ss[|ops|];
            && s.model.nodes == (map v | v in j.Outcome() :: FinalState(j.dag.G(), j.Outcome(), v))
            && Distinct(NodesIn(s.log)) && PredsFirst(j.dag.G(), NodesIn(s.log))
            && (forall v :: v in NodesIn(s.log) <==> v in j.dag.G().nodes && !Doomed(j.dag.G(), j.Outcome(), v))
            && (forall i :: 0 <= i < |s.log| ==> s.log[i].result == j.Result(s.log[i].node))
  {
    hide IsExecution, Returned, ModelInv, InStep, AllPlaced, UsageInv, Dag.Valid, Doomed, Distinct, PredsFirst, NodesIn,
      Job.Result, AllTerminal, ActiveNodes;
    ExecutionLength(j, ss, ops);
    var g, out, s := j.dag.G(), j.Outcome(), ss[|ops|];
    EveryStateKeeps(j, ss, ops, |ops|);
    ReturnedIsDone(j, s);
    ReturnedStates(j, s);
    PhaseKeys(j, s);
    forall v | v in g.nodes ensures s.model.nodes[v].Canceled? <==> Doomed(g, out, v) {
      assert s.model.nodes[v] == FinalState(g, out, v);
    }
  }

  lemma ReturnedStates(j: Job, s: Sched)
    requires j.dag.Valid() && ModelInv(j, s.model) && AllTerminal(s.model.nodes)
    ensures s.model.nodes == map v | v in j.Outcome() :: FinalState(j.dag.G(), j.Outcome(), v)
  {
    hide Sound, Justified, Agrees, CancelClosed, Dag.Valid, FinalState, Job.Result, AllTerminal;
    TopoOrderIsTopo(j.dag);
    SoundKeys(j.dag.G(), s.model);
    forall v | v in s.model.nodes ensures s.model.nodes[v] == FinalState(j.dag.G(), j.Outcome(), v) {
      FinalStates(j.dag.G(), j.dag.topoOrder, j.Outcome(), s.model, v);
    }
  }

  /** When all tasks succeed, the log is a linear extension of the DAG with the
    entries of the sequential log. */
  lemma AllSucceedIsSequential(j: Job, ss: seq<Sched>, ops: seq<Op>, sequential: RunLog)
    requires j.dag.Valid() && IsExecution(j, ss, ops) && Returned(ss[|ops|])
    requires forall v :: v in j.dag.G().nodes ==> j.Result(v).completed
    requires IsSequentialLog(j, sequential)
    ensures IsTopo(j.dag.G(), NodesIn(ss[|ops|].log))
    ensures forall e :: e in ss[|ops|].log <==> e in sequential
    ensures |ss[|ops|].log| == |sequential|
  {
    var g, log := j.dag.G(), ss[|ops|].log;
    EveryReturnAgrees(j, ss, ops);
    TopoOrderIsTopo(j.dag);
    hide IsExecution, Returned, Dag.Valid, Job.Result, IsTopo, PredsFirst, Distinct, NodesIn;
    assert forall v :: !Doomed(g, j.Outcome(), v);
    assert Elements(NodesIn(log)) == g.nodes;
    TopoFromParts(g, NodesIn(log));
    SequentialCovers(j, sequential);
    TopoSize(g, NodesIn(log));
    TopoSize(g, j.dag.topoOrder);
    SameEntries(j, log, sequential);
  }

  lemma TopoFromParts(g: Graph, t: seq<NodeId>)
    requires Distinct(t) && PredsFirst(g, t) && Elements(t) == g.nodes
    ensures IsTopo(g, t)
  {
  }

  lemma TopoSize(g: Graph, t: seq<NodeId>)
    requires IsTopo(g, t)
    ensures |t| == |g.nodes|
  {
    DistinctSize(t);
  }

  lemma SequentialCovers(j: Job, log: RunLog)
    requires j.dag.Valid() && IsSequentialLog(j, log)
    requires forall v :: v in j.dag.G().nodes ==> j.Result(v).completed
    ensures NodesIn(log) == j.dag.topoOrder
  {
    TopoOrderIsTopo(j.dag);
    hide Dag.Valid, Job.Result;
    assert forall i :: 0 <= i < |j.dag.topoOrder| ==> j.dag.topoOrder[i] in Elements(j.dag.topoOrder);
  }

  /** Logs whose entries carry the tasks' results agree if their nodes do. */
  lemma SameEntries(j: Job, log: RunLog, log': RunLog)
    requires forall i :: 0 <= i < |log| ==> log[i].result == j.Result(log[i].node)
    requires forall i :: 0 <= i < |log'| ==> log'[i].result == j.Result(log'[i].node)
    requires forall v :: v in NodesIn(log) <==> v in NodesIn(log')
    ensures forall e :: e in log <==> e in log'
  {
    EntriesWithin(j, log, log');
    EntriesWithin(j, log', log);
  }

  lemma EntriesWithin(j: Job, log: RunLog, log': RunLog)
    requires forall i :: 0 <= i < |log| ==> log[i].result == j.Result(log[i].node)
    requires forall i :: 0 <= i < |log'| ==> log'[i].result == j.Result(log'[i].node)
    requires forall v :: v in NodesIn(log) ==> v in NodesIn(log')
    ensures forall e :: e in log ==> e in log'
  {
    hide Job.Result;
    forall e | e in log ensures e in log' {
      var i :| 0 <= i < |log| && log[i] == e;
      assert NodesIn(log)[i] in NodesIn(log');
      var k :| 0 <= k < |log'| && NodesIn(log')[k] == e.node;
    }
  }

  /** Whatever fails, the sequential log is part of every concurrent one, and
    both report success or failure alike. */
  lemma SequentialIsWithin(j: Job, ss: seq<Sched>, ops: seq<Op>, sequential: RunLog)
    requires j.dag.Valid() && IsExecution(j, ss, ops) && Returned(ss[|ops|])
    requires IsSequentialLog(j, sequential)
    ensures forall e :: e in sequential ==> e in ss[|ops|].log
    ensures AllOk(ss[|ops|].log) <==> AllOk(sequential)
  {
    var log := ss[|ops|].log;
    EveryReturnAgrees(j, ss, ops);
    hide IsExecution, Returned, Dag.Valid, Job.Result, PredsFirst, Distinct;
    forall v | v in NodesIn(sequential) ensures v in NodesIn(log) {
      var i :| 0 <= i < |sequential| && sequential[i].node == v;
      SequentialRunsUndoomed(j, sequential, i);
    }
    EntriesWithin(j, sequential, log);
    if AllOk(sequential) {
      SequentialOkMeans(j, sequential);
      assert sequential[0] in log;
      forall i | 0 <= i < |log| ensures log[i].result.completed {
        assert NodesIn(log)[i] in NodesIn(log);
      }
    }
    if AllOk(log) {
      hide Doomed, Job.Outcome, IsSequentialLog;
      SequentialStarts(j, sequential, log[0].node);
      forall i | 0 <= i < |sequential| ensures sequential[i].result.completed {
        assert sequential[i] in log;
      }
    }
  }

  /** A sequential run that succeeds has run every node. */
  lemma SequentialOkMeans(j: Job, log: RunLog)
    requires j.dag.Valid() && IsSequentialLog(j, log) && AllOk(log)
    ensures forall v :: v in j.dag.G().nodes ==> j.Result(v).completed
  {
    TopoOrderIsTopo(j.dag);
    hide Dag.Valid, Job.Result;
    forall v | v in j.dag.G().nodes ensures j.Result(v).completed {
      assert v in Elements(j.dag.topoOrder);
      var i :| 0 <= i < |j.dag.topoOrder| && j.dag.topoOrder[i] == v;
      assert log[i].result.completed;
    }
  }

  lemma SequentialStarts(j: Job, log: RunLog, v: NodeId)
    requires j.dag.Valid() && IsSequentialLog(j, log) && v in j.dag.G().nodes
    ensures log != []
  {
    TopoOrderIsTopo(j.dag);
    assert v in Elements(j.dag.topoOrder);
  }

  /** Where every capacity is positive, some step is possible until the exit
    test holds. */
  lemma NoDeadlock(j: Job, s: Sched)
    requires j.dag.Valid() && Inv(j, s) && !Returned(s)
    requires forall v :: v in j.dag.G().nodes ==> j.Need(v).capacity > 0
    ensures exists op :: Enabled(j, s, op)
  {
    hide ModelInv, InStep, LogInv, AllPlaced, Dag.Valid, Job.Need;
    if s.queue != [] {
      assert Enabled(j, s, Pop);
    } else if v :| v in s.phase && s.phase[v].Active() {
      ActiveMoves(j, s, v);
    } else {
      assert ActiveNodes(s.phase) == {};
      DeferredIsReady(s, 0);
      PhaseKeys(j, s);
      var v := s.blocked[0];
      assert Holders(j, s.phase, j.Need(v).key) == {};
      assert Used(s.usage, j.Need(v).key) == 0;
      assert Enabled(j, s, Retry(0));
    }
  }

  lemma ActiveMoves(j: Job, s: Sched, v: NodeId)
    requires v in s.phase && s.phase[v].Active()
    ensures exists op :: Enabled(j, s, op)
  {
    match s.phase[v]
    case Submitted => assert Enabled(j, s, Start(v));
    case Started => assert Enabled(j, s, Record(v));
    case Logged => assert Enabled(j, s, Release(v));
    case Released =>
      var changed := ListOf(j, s, v);
      assert Enabled(j, s, Complete(v, changed));
    case Completed(_) => assert Enabled(j, s, Push(v));
    case Pushed => assert Enabled(j, s, Finish(v));
  }

  lemma ListOf(j: Job, s: Sched, v: NodeId) returns (changed: seq<NodeId>)
    ensures IsChanged(s.model.nodes, CompleteModel(j, s.model, v).nodes, v, changed)
  {
    var after := CompleteModel(j, s.model, v).nodes;
    var left := set x | x in after && x in s.model.nodes && x != v && after[x] != s.model.nodes[x];
    changed := [];
    ghost var all := left;
    while left != {}
      invariant Distinct(changed) && left <= all
      invariant forall x :: x in changed <==> x in all && x !in left
    {
      var x :| x in left;
      changed, left := changed + [x], left - {x};
    }
  }
}
