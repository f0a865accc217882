/** Every interleaving of the concurrent scheduler ends, and where every
  capacity is positive it ends by returning. */
module ConcurrentEnds {
  import opened Ids
  import opened Graphs
  import opened Dags
  import opened StateMachines
  import opened Schedulers
  import opened Concurrency

  /** How far a node has come: listed, queued, looked at, and then one point for
    each phase of its task. */
  function Progress(p: Phase, st: NodeState, place: Place): nat {
    if !p.Idle? then 3 + p.Rank()
    else
      match place
      case Nowhere => if st.Canceled? then 3 else 0
      case With(_) => 1
      case Queued => 2
      case Deferred => 3
  }

  function ProgressOf(s: Sched, place: Places, v: NodeId): nat {
    if v in s.phase && v in s.model.nodes && v in place then Progress(s.phase[v], s.model.nodes[v], place[v]) else 0
  }

  const MARKS: set<nat> := {0, 1, 2, 3, 4, 5, 6, 7, 8, 9}

  /** One credit for each point of progress of each node. */
  ghost function Credits(s: Sched, place: Places): set<(NodeId, nat)> {
    set v, k | v in place && k in MARKS && k < ProgressOf(s, place, v) :: (v, k)
  }

  ghost function Pairs(vs: set<NodeId>): set<(NodeId, nat)> {
    set v, k | v in vs && k in MARKS :: (v, k)
  }

  lemma {:induction false} PairsSize(vs: set<NodeId>)
    ensures |Pairs(vs)| == 10 * |vs|
  {
    if vs == {} {
      assert Pairs(vs) == {};
    } else {
      var v :| v in vs;
      var row := set k | k in MARKS :: (v, k);
      PairsSize(vs - {v});
      assert Pairs(vs) == Pairs(vs - {v}) + row;
      RowSize(v);
    }
  }

  lemma RowSize(v: NodeId)
    ensures |set k | k in MARKS :: (v, k)| == 10
  {
    assert (set k | k in MARKS :: (v, k)) ==
           {(v, 0), (v, 1), (v, 2), (v, 3), (v, 4), (v, 5), (v, 6), (v, 7), (v, 8), (v, 9)};
  }

  /** A step moves the state of the node whose task it moves on, and of those
    it takes off the waiting side of a completion. */
  lemma StatesStay(j: Job, s: Sched, op: Op, v: NodeId)
    requires Enabled(j, s, op) && InStep(s) && v in s.model.nodes
    requires Mover(j, s, op) != Some(v) && (op.Complete? ==> v !in op.changed)
    ensures v in Next(j, s, op).model.nodes && Next(j, s, op).model.nodes[v] == s.model.nodes[v]
  {
    hide Job.Need, Job.Result, HasRoom;
    KeysKept(j, s, op);
  }

  /** A node that is listed by a completion was blocked before it. */
  lemma ChangedWasBlocked(j: Job, s: Sched, op: Op, v: NodeId)
    requires j.dag.Valid() && Enabled(j, s, op) && ModelInv(j, s.model) && InStep(s) && op.Complete? && v in op.changed
    ensures v in s.model.nodes && s.model.nodes[v].Blocked?
  {
    hide ModelInv, CompleteModel, Dag.Valid;
    CompleteSettles(j, s.model, op.node);
  }

  /** What Next does to one node, as far as progress is concerned. */
  lemma OneNodeMoves(j: Job, s: Sched, op: Op, place: Places, v: NodeId)
    requires j.dag.Valid() && Enabled(j, s, op) && ModelInv(j, s.model) && InStep(s) && AllPlaced(s) && Placed(s, place)
    requires v in place
    ensures var s' := Next(j, s, op);
      && v in s.phase && v in s.model.nodes && v in s'.phase && v in s'.model.nodes
      && (if Mover(j, s, op) == Some(v) then s'.phase[v].Rank() == s.phase[v].Rank() + 1 else s'.phase[v] == s.phase[v])
      && (Mover(j, s, op) == Some(v) || s'.model.nodes[v] == s.model.nodes[v] || s.model.nodes[v].Blocked?)
  {
    hide ModelInv, Enabled, Next, Dag.Valid, AllPlaced;
    PhaseAdvances(j, s, op);
    KeysKept(j, s, op);
    ListedPlaces(s, place);
    hide Placed, InStep;
    if Mover(j, s, op) != Some(v) {
      if op.Complete? && v in op.changed { ChangedWasBlocked(j, s, op, v); } else { StatesStay(j, s, op, v); }
    }
  }

  /** From one list to the next, and only forwards. */
  predicate Onwards(st: NodeState, from: Place, to: Place) {
    match from
    case Queued => to.Deferred? || (to.Nowhere? && !st.Ready?)
    case With(_) => to.Queued?
    case Nowhere => to.With? && st.Blocked?
    case Deferred => false
  }

  lemma MovedOnwards(j: Job, s: Sched, op: Op, place: Places, v: NodeId)
    requires j.dag.Valid() && Enabled(j, s, op) && ModelInv(j, s.model) && InStep(s) && v in s.model.nodes
    requires v in Moving(s, op) && Mover(j, s, op) != Some(v)
    ensures Onwards(s.model.nodes[v], Source(op), Target(j, s, op))
  {
    hide ModelInv, InStep, Enabled, Dag.Valid, Job.Need, HasRoom;
    match op {
      case Complete(_, _) => ChangedWasBlocked(j, s, op, v);
      case _ =>
    }
  }

  lemma ProgressGrows(p: Phase, st: NodeState, from: Place, p': Phase, st': NodeState, to: Place)
    requires PlaceFits(from, st)
    ensures p'.Rank() == p.Rank() + 1 ==> Progress(p, st, from) < Progress(p', st', to)
    ensures p' == p && (st' == st || st.Blocked?) && to == from ==> Progress(p, st, from) <= Progress(p', st', to)
    ensures p' == p && st' == st && Onwards(st, from, to) ==> Progress(p, st, from) <= Progress(p', st', to)
    ensures p' == p && st.Blocked? && Onwards(st, from, to) ==> Progress(p, st, from) <= Progress(p', st', to)
    ensures p' == p && p.Idle? && st' == st && Onwards(st, from, to) && from.Queued? ==> Progress(p, st, from) < Progress(p', st', to)
  {
  }

  /** No step takes any node back, and each takes some node on. */
  lemma NeverBack(j: Job, s: Sched, op: Op, place: Places, v: NodeId)
    requires j.dag.Valid() && Enabled(j, s, op) && ModelInv(j, s.model) && InStep(s) && AllPlaced(s) && Placed(s, place)
    requires v in place
    ensures ProgressOf(s, place, v) <= ProgressOf(Next(j, s, op), PlacesAfter(j, s, op, place), v)
  {
    var s', place' := Next(j, s, op), PlacesAfter(j, s, op, place);
    OneNodeMoves(j, s, op, place, v);
    BeforeMoving(j, s, op, place);
    PlaceOfOne(s, place, v);
    hide ModelInv, InStep, AllPlaced, Placed, Next, Enabled, Dag.Valid, Progress, Moving, Source, Target, Mover, PlaceFits;
    ProgressGrows(s.phase[v], s.model.nodes[v], place[v], s'.phase[v], s'.model.nodes[v], place'[v]);
    if v in Moving(s, op) && Mover(j, s, op) != Some(v) { MovedOnwards(j, s, op, place, v); }
  }

  /** The node a step is about comes on. */
  lemma OneForward(j: Job, s: Sched, op: Op, place: Places)
    requires j.dag.Valid() && Enabled(j, s, op) && ModelInv(j, s.model) && InStep(s) && AllPlaced(s) && Placed(s, place)
    ensures var v := Handled(s, op);
            v in place && ProgressOf(s, place, v) < ProgressOf(Next(j, s, op), PlacesAfter(j, s, op, place), v)
  {
    var v, s', place' := Handled(s, op), Next(j, s, op), PlacesAfter(j, s, op, place);
    HandledIsKnown(j, s, op, place);
    OneNodeMoves(j, s, op, place, v);
    BeforeMoving(j, s, op, place);
    PlaceOfOne(s, place, v);
    if Mover(j, s, op) == None {
      MovedOnwards(j, s, op, place, v);
      QueuedIsIdle(s, place, v);
    }
    hide ModelInv, InStep, AllPlaced, Placed, Next, Enabled, Dag.Valid, Progress, Moving, Source, Target, PlaceFits;
    ProgressGrows(s.phase[v], s.model.nodes[v], place[v], s'.phase[v], s'.model.nodes[v], place'[v]);
  }

  lemma HandledIsKnown(j: Job, s: Sched, op: Op, place: Places)
    requires j.dag.Valid() && Enabled(j, s, op) && ModelInv(j, s.model) && InStep(s) && AllPlaced(s) && Placed(s, place)
    ensures Handled(s, op) in place
    ensures Mover(j, s, op) == None ==> op.Pop? && Is(place, Handled(s, op), Queued) && Handled(s, op) in Moving(s, op)
  {
    BeforeMoving(j, s, op, place);
    PhaseAdvances(j, s, op);
    hide ModelInv, Next, Dag.Valid, AllPlaced, Job.Need, Job.Result;
    ListedPlaces(s, place);
    assert op.Pop? ==> s.queue[0] in s.queue;
    assert op.Retry? ==> s.blocked[op.index] in s.blocked;
  }

  lemma QueuedIsIdle(s: Sched, place: Places, v: NodeId)
    requires InStep(s) && Placed(s, place) && Is(place, v, Queued)
    ensures v in s.phase && s.phase[v].Idle?
  {
    assert PlaceFits(place[v], s.model.nodes[v]) && Matches(s.phase[v], s.model.nodes[v]);
  }

  lemma PlaceOfOne(s: Sched, place: Places, v: NodeId)
    requires Placed(s, place) && v in place
    ensures v in s.model.nodes && PlaceFits(place[v], s.model.nodes[v])
  {
  }

  /** A step earns at least one credit and loses none. */
  lemma CreditsGrow(j: Job, s: Sched, op: Op, place: Places)
    requires j.dag.Valid() && Inv(j, s) && Enabled(j, s, op) && Placed(s, place)
    ensures |Credits(s, place)| < |Credits(Next(j, s, op), PlacesAfter(j, s, op, place))|
  {
    hide ModelInv, InStep, AllPlaced, LogInv, UsageInv, ActiveNodes, Placed, Next, Enabled, Dag.Valid, ProgressOf, Moving,
      Target, Credits, Handled;
    var s', place' := Next(j, s, op), PlacesAfter(j, s, op, place);
    forall x | x in place ensures ProgressOf(s, place, x) <= ProgressOf(s', place', x) {
      NeverBack(j, s, op, place, x);
    }
    OneForward(j, s, op, place);
    MoreCredits(s, place, s', place', Handled(s, op));
  }

  lemma MoreCredits(s: Sched, place: Places, s': Sched, place': Places, v: NodeId)
    requires place'.Keys == place.Keys && v in place
    requires forall x :: x in place ==> ProgressOf(s, place, x) <= ProgressOf(s', place', x)
    requires ProgressOf(s, place, v) < ProgressOf(s', place', v)
    ensures |Credits(s, place)| < |Credits(s', place')|
  {
    ProgressBound(s', place', v);
    var before, after, mark := Credits(s, place), Credits(s', place'), (v, ProgressOf(s, place, v));
    hide ProgressOf;
    assert mark in after && mark !in before;
    assert before + {mark} <= after;
    SubsetSize(before + {mark}, after);
  }

  lemma ProgressBound(s: Sched, place: Places, v: NodeId)
    ensures ProgressOf(s, place, v) <= 10 && forall k: nat :: k < ProgressOf(s, place, v) ==> k in MARKS
  {
  }

  /** After k steps at least k credits have been earned. */
  lemma {:induction false} StepsEarn(j: Job, ss: seq<Sched>, ops: seq<Op>, k: nat) returns (place: Places)
    requires j.dag.Valid() && IsExecution(j, ss, ops) && k <= |ops|
    ensures Placed(ss[k], place) && |Credits(ss[k], place)| >= k
  {
    hide IsExecution, Inv, Enabled, Next, Placed, Credits, Dag.Valid, PlacesAfter;
    ExecutionLength(j, ss, ops);
    if k == 0 {
      EveryStateKeeps(j, ss, ops, 0);
      place := SomePlaces(j, ss[0]);
    } else {
      var earlier := StepsEarn(j, ss, ops, k - 1);
      StepAt(j, ss, ops, k - 1);
      CreditsGrow(j, ss[k - 1], ops[k - 1], earlier);
      place := PlacesAfter(j, ss[k - 1], ops[k - 1], earlier);
      PlacesFollow(j, ss[k - 1], ops[k - 1], earlier);
    }
  }

  lemma SomePlaces(j: Job, s: Sched) returns (place: Places)
    requires Inv(j, s)
    ensures Placed(s, place)
  {
    hide ModelInv, InStep, LogInv, UsageInv, Placed;
    place :| Placed(s, place);
  }

  lemma PlacesFollow(j: Job, s: Sched, op: Op, place: Places)
    requires j.dag.Valid() && Inv(j, s) && Enabled(j, s, op) && Placed(s, place)
    ensures Placed(Next(j, s, op), PlacesAfter(j, s, op, place))
  {
    hide ModelInv, LogInv, UsageInv, InStep, AllPlaced, Placed, Enabled, Next, Dag.Valid;
    PlacedNext(j, s, op, place);
  }

  /** No interleaving goes on for more than ten steps a node. */
  lemma EveryExecutionEnds(j: Job, ss: seq<Sched>, ops: seq<Op>)
    requires j.dag.Valid() && IsExecution(j, ss, ops)
    ensures |ops| <= 10 * |j.dag.G().nodes|
  {
    hide IsExecution, Enabled, Next, Dag.Valid, ModelInv, InStep, LogInv, UsageInv, AllPlaced, Placed;
    ExecutionLength(j, ss, ops);
    var place := StepsEarn(j, ss, ops, |ops|);
    EveryStateKeeps(j, ss, ops, |ops|);
    PhaseKeys(j, ss[|ops|]);
    ListedPlaces(ss[|ops|], place);
    CreditsBound(ss[|ops|], place);
  }

  lemma CreditsBound(s: Sched, place: Places)
    ensures |Credits(s, place)| <= 10 * |place.Keys|
  {
    PairsSize(place.Keys);
    SubsetSize(Credits(s, place), Pairs(place.Keys));
  }

  /** Where every capacity is positive, every interleaving can be continued to
    one that returns, and so none gets stuck on the way. */
  lemma {:induction false} EveryExecutionCanReturn(j: Job, ss: seq<Sched>, ops: seq<Op>) returns (ss': seq<Sched>, ops': seq<Op>)
    requires j.dag.Valid() && IsExecution(j, ss, ops)
    requires forall v :: v in j.dag.G().nodes ==> j.Need(v).capacity > 0
    ensures IsExecution(j, ss', ops') && ops <= ops' && ss <= ss' && Returned(ss'[|ops'|])
    decreases 10 * |j.dag.G().nodes| - |ops|
  {
    hide IsExecution, Enabled, Next, Inv, Dag.Valid, Job.Need, Returned;
    EveryExecutionEnds(j, ss, ops);
    ExecutionLength(j, ss, ops);
    EveryStateKeeps(j, ss, ops, |ops|);
    if Returned(ss[|ops|]) {
      ss', ops' := ss, ops;
    } else {
      NoDeadlock(j, ss[|ops|]);
      var op :| Enabled(j, ss[|ops|], op);
      OneStepMore(j, ss, ops, op);
      EveryExecutionEnds(j, ss + [Next(j, ss[|ops|], op)], ops + [op]);
      ss', ops' := EveryExecutionCanReturn(j, ss + [Next(j, ss[|ops|], op)], ops + [op]);
    }
  }

  lemma OneStepMore(j: Job, ss: seq<Sched>, ops: seq<Op>, op: Op)
    requires IsExecution(j, ss, ops) && Enabled(j, ss[|ops|], op)
    ensures IsExecution(j, ss + [Next(j, ss[|ops|], op)], ops + [op])
  {
    hide Initial, Enabled, Next;
    var ss1, ops1 := ss + [Next(j, ss[|ops|], op)], ops + [op];
    forall i {:trigger ops1[i]} | 0 <= i < |ops1|
      ensures Enabled(j, ss1[i], ops1[i]) && ss1[i + 1] == Next(j, ss1[i], ops1[i]) {
      assert i < |ops| ==> ops1[i] == ops[i];
    }
  }
}
