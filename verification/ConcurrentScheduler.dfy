/** The critical sections of ConcurrentScheduler
  (engine/core/src/concurrent_scheduler.cpp), each a sequence of steps of
  Concurrency. */
module ConcurrentSchedulers {
  import opened Ids
  import opened Graphs
  import opened Dags
  import opened StateMachines
  import opened SchedulerStates
  import opened Schedulers
  import opened Concurrency

  /** The steps ops lead from s to s'. */
  ghost predicate Leads(j: Job, s: Sched, ops: seq<Op>, s': Sched) {
    if ops == [] then s' == s
    else
      var front, op := ops[..|ops| - 1], ops[|ops| - 1];
      exists mid :: Leads(j, s, front, mid) && IsStep(j, mid, op, s')
  }

  ghost predicate IsStep(j: Job, s: Sched, op: Op, s': Sched) {
    Enabled(j, s, op) && s' == Next(j, s, op)
  }

  lemma OneMore(j: Job, s: Sched, ops: seq<Op>, mid: Sched, op: Op)
    requires Leads(j, s, ops, mid) && Enabled(j, mid, op)
    ensures Leads(j, s, ops + [op], Next(j, mid, op))
  {
    assert (ops + [op])[..|ops|] == ops;
  }

  lemma {:induction false} LeadsKeeps(j: Job, s: Sched, ops: seq<Op>, s': Sched)
    requires j.dag.Valid() && Inv(j, s) && Leads(j, s, ops, s')
    ensures Inv(j, s')
  {
    hide Inv, Enabled, Next, Dag.Valid;
    if ops != [] {
      var op := ops[|ops| - 1];
      var mid :| Leads(j, s, ops[..|ops| - 1], mid) && Enabled(j, mid, op) && s' == Next(j, mid, op);
      LeadsKeeps(j, s, ops[..|ops| - 1], mid);
      NextKeeps(j, mid, op);
    }
  }

  lemma {:induction false} LeadsOn(j: Job, s: Sched, ops: seq<Op>, mid: Sched, more: seq<Op>, s': Sched)
    requires Leads(j, s, ops, mid) && Leads(j, mid, more, s')
    ensures Leads(j, s, ops + more, s')
  {
    hide Enabled, Next;
    if more == [] {
      assert ops + more == ops;
    } else {
      var op, rest := more[|more| - 1], more[..|more| - 1];
      var near :| Leads(j, mid, rest, near) && Enabled(j, near, op) && s' == Next(j, near, op);
      LeadsOn(j, s, ops, mid, rest, near);
      OneMore(j, s, ops + rest, near, op);
      assert ops + more == ops + rest + [op];
    }
  }

  /** Whatever the threads do in whatever order is one execution. */
  lemma {:induction false} LeadsIsExecution(j: Job, s: Sched, ops: seq<Op>, s': Sched) returns (ss: seq<Sched>)
    requires Initial(j, s) && Leads(j, s, ops, s')
    ensures IsExecution(j, ss, ops) && ss[0] == s && ss[|ops|] == s'
  {
    hide Initial, Enabled, Next;
    if ops == [] {
      ss := [s];
    } else {
      var op, front := ops[|ops| - 1], ops[..|ops| - 1];
      var mid :| Leads(j, s, front, mid) && Enabled(j, mid, op) && s' == Next(j, mid, op);
      var ss' := LeadsIsExecution(j, s, front, mid);
      ss := ss' + [s'];
      forall i {:trigger ops[i]} | 0 <= i < |ops| ensures Enabled(j, ss[i], ops[i]) && ss[i + 1] == Next(j, ss[i], ops[i]) {
        if i < |front| { assert front[i] == ops[i]; }
      }
    }
  }

  class ConcurrentScheduler {
    const job: Job
    const state: SchedulerState
    var readyQueue: seq<NodeId>
    var resourceBlocked: seq<NodeId>
    var resourceUsage: map<string, int>
    var inFlight: int
    var log: RunLog
    /** Where each node's worker task is. */
    ghost var phase: Phases

    ghost function Value(): Sched
      reads this, state
    {
      Sched(state.Value(), readyQueue, resourceBlocked, resourceUsage, inFlight, phase, log)
    }

    ghost predicate Formed()
      reads this, state
    {
      job.dag.Valid() && state.dag == job.dag && state.Valid()
    }

    ghost predicate Valid()
      reads this, state
    {
      Formed() && Inv(job, Value())
    }

    constructor (job: Job)
      requires job.dag.Valid()
      ensures this.job == job && fresh(state) && Formed() && state.runState.RunQueued?
      ensures readyQueue == [] && resourceBlocked == [] && resourceUsage == map[] && inFlight == 0 && log == []
    {
      this.job := job;
      state := new SchedulerState(job.dag);
      readyQueue, resourceBlocked, resourceUsage, inFlight, log := [], [], map[], 0, [];
      phase := map[];
    }

    /** The start of run: the state machine starts and its ready nodes are
      queued. */
    method Begin()
      requires Formed() && state.runState.RunQueued?
      requires readyQueue == [] && resourceBlocked == [] && resourceUsage == map[] && inFlight == 0 && log == []
      modifies this, state
      ensures Valid() && Initial(job, Value())
    {
      hide Dag.Valid, StartFrom, Inv;
      state.StartRun();
      var ready := state.ReadyNodes();
      readyQueue := ready;
      phase := map v | v in state.nodeStates :: Idle;
      InitialKeys(job.dag.G());
      InitialInv(job, Value());
    }

    /** Takes a slot and hands id to the pool. */
    method Submit(id: NodeId)
      requires Formed()
      modifies this, state
      ensures Formed() && Value() == Dispatch(job, old(Value()), id)
    {
      hide Dag.Valid, Job.Need;
      resourceUsage := resourceUsage[job.Need(id).key := Used(resourceUsage, job.Need(id).key) + 1];
      state.DispatchNode(id);
      inFlight := inFlight + 1;
      phase := phase[id := Submitted];
    }

    /** Deferred nodes whose resource has room again are dispatched, in order;
      the others stay. */
    method DrainResourceBlocked() returns (ghost ops: seq<Op>)
      requires Formed()
      modifies this, state
      ensures Formed() && Leads(job, old(Value()), ops, Value())
      ensures forall v :: v in resourceBlocked ==> !HasRoom(job, resourceUsage, v)
      ensures readyQueue == old(readyQueue) && log == old(log)
    {
      hide Dag.Valid, Job.Need;
      ops := [];
      var i := 0;
      while i < |resourceBlocked|
        invariant i <= |resourceBlocked| && Formed() && Leads(job, old(Value()), ops, Value())
        invariant forall k :: 0 <= k < i ==> !HasRoom(job, resourceUsage, resourceBlocked[k])
        invariant readyQueue == old(readyQueue) && log == old(log)
        decreases |resourceBlocked| - i
      {
        if HasRoom(job, resourceUsage, resourceBlocked[i]) {
          ghost var before := Value();
          var id := resourceBlocked[i];
          resourceBlocked := resourceBlocked[..i] + resourceBlocked[i + 1..];
          Submit(id);
          OneMore(job, old(Value()), ops, before, Retry(i));
          ops := ops + [Retry(i)];
        } else {
          i := i + 1;
        }
      }
    }

    /** Takes one node from the queue: skipped unless ready, deferred without
      room, and else dispatched. */
    method PopReady()
      requires Formed() && readyQueue != []
      modifies this, state
      ensures Formed() && IsStep(job, old(Value()), Pop, Value())
      ensures readyQueue == old(readyQueue)[1..] && log == old(log)
      ensures (forall v :: v in old(resourceBlocked) ==> !HasRoom(job, old(resourceUsage), v)) ==>
                forall v :: v in resourceBlocked ==> !HasRoom(job, resourceUsage, v)
    {
      hide Dag.Valid, Job.Need;
      var id := readyQueue[0];
      readyQueue := readyQueue[1..];
      var st := state.NodeStateOf(id);
      if st == Some(Ready) {
        if HasRoom(job, resourceUsage, id) {
          Submit(id);
        } else {
          resourceBlocked := resourceBlocked + [id];
        }
      }
    }

    /** One round of the dispatcher, under its lock: deferred nodes first, then
      the whole queue. True when run may return. */
    method DispatchPass() returns (done: bool, ghost ops: seq<Op>)
      requires Valid()
      modifies this, state
      ensures Valid() && Leads(job, old(Value()), ops, Value())
      ensures readyQueue == [] && log == old(log) && done == Returned(Value())
      ensures forall v :: v in resourceBlocked ==> !HasRoom(job, resourceUsage, v)
    {
      hide Dag.Valid, Inv, HasRoom, Enabled, Next;
      ops := DrainResourceBlocked();
      while readyQueue != []
        invariant Formed() && Leads(job, old(Value()), ops, Value()) && log == old(log)
        invariant forall v :: v in resourceBlocked ==> !HasRoom(job, resourceUsage, v)
        decreases |readyQueue|
      {
        ghost var before := Value();
        PopReady();
        OneMore(job, old(Value()), ops, before, Pop);
        ops := ops + [Pop];
      }
      LeadsKeeps(job, old(Value()), ops, Value());
      done := inFlight == 0 && |readyQueue| == 0 && resourceBlocked == [];
    }

    // The worker task of one node, one critical section after another.

    method StartTask(id: NodeId)
      requires Valid() && At(Value(), id, Submitted)
      modifies this, state
      ensures Valid() && IsStep(job, old(Value()), Start(id), Value())
    {
      hide Dag.Valid, Inv;
      NextKeeps(job, Value(), Start(id));
      state.StartNode(id);
      phase := phase[id := Started];
    }

    /** Runs the task and appends its entry. */
    method RunTask(id: NodeId) returns (result: TaskResult)
      requires Valid() && At(Value(), id, Started)
      modifies this
      ensures Valid() && IsStep(job, old(Value()), Record(id), Value())
      ensures result == job.Result(id)
    {
      hide Dag.Valid, Inv, Job.Result;
      NextKeeps(job, Value(), Record(id));
      result := job.Result(id);
      log := log + [Entry(id, result)];
      phase := phase[id := Logged];
    }

    /** Gives the slot back and retries what was deferred. */
    method ReleaseResource(id: NodeId) returns (ghost ops: seq<Op>)
      requires Valid() && At(Value(), id, Logged)
      modifies this, state
      ensures Valid() && Leads(job, old(Value()), [Release(id)] + ops, Value())
      ensures forall v :: v in resourceBlocked ==> !HasRoom(job, resourceUsage, v)
    {
      hide Dag.Valid, Inv, Job.Need;
      ghost var before := Value();
      var key := job.Need(id).key;
      if key in resourceUsage && resourceUsage[key] > 0 {
        resourceUsage := resourceUsage[key := resourceUsage[key] - 1];
      }
      phase := phase[id := Released];
      OneMore(job, before, [], before, Release(id));
      assert [] + [Release(id)] == [Release(id)];
      ghost var mid := Value();
      ops := DrainResourceBlocked();
      LeadsOn(job, before, [Release(id)], mid, ops, Value());
      LeadsKeeps(job, before, [Release(id)] + ops, Value());
    }

    /** Settles the node and returns the nodes that changed with it. */
    method CompleteTask(id: NodeId, result: TaskResult) returns (changed: seq<NodeId>)
      requires Valid() && At(Value(), id, Released) && result == job.Result(id)
      modifies this, state
      ensures Valid() && IsStep(job, old(Value()), Complete(id, changed), Value())
    {
      hide Dag.Valid, Inv, Job.Result, Succeed, Break;
      ghost var before := Value();
      changed := state.CompleteNode(id, result.completed);
      phase := phase[id := Completed(changed)];
      assert state.Value() == CompleteModel(job, before.model, id);
      NextKeeps(job, before, Complete(id, changed));
    }

    method QueueChanged(id: NodeId, changed: seq<NodeId>)
      requires Valid() && At(Value(), id, Completed(changed))
      modifies this
      ensures Valid() && IsStep(job, old(Value()), Push(id), Value())
    {
      hide Dag.Valid, Inv;
      NextKeeps(job, Value(), Push(id));
      ghost var before := readyQueue;
      for i := 0 to |changed|
        invariant readyQueue == before + changed[..i]
        invariant unchanged(this`resourceBlocked, this`resourceUsage, this`inFlight, this`log, this`phase)
      {
        readyQueue := readyQueue + [changed[i]];
        assert changed[..i + 1] == changed[..i] + [changed[i]];
      }
      assert changed[..|changed|] == changed;
      phase := phase[id := Pushed];
    }

    method FinishTask(id: NodeId)
      requires Valid() && At(Value(), id, Pushed)
      modifies this
      ensures Valid() && IsStep(job, old(Value()), Finish(id), Value())
    {
      hide Dag.Valid, Inv;
      NextKeeps(job, Value(), Finish(id));
      inFlight := inFlight - 1;
      phase := phase[id := Finished];
    }

    /** The end of run. */
    method FinalizeAndCollect() returns (collected: RunLog)
      requires Valid() && Returned(Value()) && state.runState.RunRunning?
      modifies state
      ensures collected == log && Distinct(NodesIn(log)) && PredsFirst(job.dag.G(), NodesIn(log))
      ensures state.nodeStates == old(state.nodeStates)
      ensures state.nodeStates == map v | v in job.Outcome() :: FinalState(job.dag.G(), job.Outcome(), v)
      ensures state.runState ==
              if exists v :: v in job.Outcome() && !job.Outcome()[v].Succeeded? then RunFailed else RunSucceeded
    {
      hide Dag.Valid, FinalState, Verdict, Job.Outcome, IsTopo, Distinct, PredsFirst, NodesIn, InStep, AllPlaced, UsageInv, ModelInv;
      TopoOrderIsTopo(job.dag);
      OutcomesAreOutcomes(job);
      ReturnedIsDone(job, Value());
      ReturnedStates(job, Value());
      RunVerdict(job.dag.G(), job.dag.topoOrder, job.Outcome());
      state.FinalizeRun();
      collected := log;
    }
  }

  lemma OutcomesAreOutcomes(j: Job)
    ensures IsOutcomes(j.dag.G(), j.Outcome())
  {
  }

  lemma InitialKeys(g: Graph)
    ensures StartFrom(g, AllBlocked(g)).nodes.Keys == g.nodes
  {
  }
}
