/** Jobs, their tasks, and the sequential reference scheduler
  (engine/core/src/scheduler.cpp). */
module Schedulers {
  import opened Ids
  import opened Graphs
  import opened Dags
  import opened StateMachines
  import opened ExecutionPolicies

  datatype TaskResult = TaskResult(completed: bool, output: string)

  type Tasks = map<string, NodeSpec -> TaskResult>

  /** What both schedulers are given. The policy is the one in force during the
    run; a task's result depends on its node only. */
  datatype Job = Job(dag: Dag, tasks: Tasks, policy: NodeSpec -> ResourcePolicy) {
    function Spec(v: NodeId): Option<NodeSpec> {
      var i := IndexIn(dag.nodeOrder, v);
      if i < |dag.specs| then Some(dag.specs[i]) else None
    }

    function Result(v: NodeId): TaskResult {
      match Spec(v)
      case None => TaskResult(false, "unknown node")
      case Some(spec) =>
        if spec.typ in tasks then tasks[spec.typ](spec)
        else TaskResult(false, "unregistered task type: " + spec.typ)
    }

    function Need(v: NodeId): ResourcePolicy {
      match Spec(v)
      case None => ResourcePolicy(Internal, "", UNBOUNDED)
      case Some(spec) => policy(spec)
    }

    /** How each node ends once it is run. */
    ghost function Outcome(): Outcomes {
      map v | v in dag.G().nodes :: if Result(v).completed then Succeeded else Failed
    }
  }

  /** One entry of a run log; its sequence number is its position. */
  datatype Entry = Entry(node: NodeId, result: TaskResult)

  type RunLog = seq<Entry>

  /** RunLog::all_ok: an empty log is not a success. */
  predicate AllOk(log: RunLog) {
    log != [] && forall i :: 0 <= i < |log| ==> log[i].result.completed
  }

  /** Nodes in topological order, up to and including the first failure. */
  ghost predicate IsSequentialLog(j: Job, log: RunLog) {
    var order := j.dag.topoOrder;
    && |log| <= |order|
    && (forall i :: 0 <= i < |log| ==> log[i] == Entry(order[i], j.Result(order[i])))
    && (forall i :: 0 <= i < |log| - 1 ==> log[i].result.completed)
    && (|log| < |order| ==> log != [] && !log[|log| - 1].result.completed)
  }

  method RunSequential(j: Job) returns (log: RunLog)
    requires j.dag.Valid()
    ensures IsSequentialLog(j, log)
  {
    hide Dag.Valid, Job.Result;
    log := [];
    for i := 0 to |j.dag.topoOrder|
      invariant |log| == i
      invariant forall k :: 0 <= k < i ==> log[k] == Entry(j.dag.topoOrder[k], j.Result(j.dag.topoOrder[k]))
      invariant forall k :: 0 <= k < i ==> log[k].result.completed
    {
      var id := j.dag.topoOrder[i];
      log := log + [Entry(id, j.Result(id))];
      if !log[i].result.completed {
        break;
      }
    }
  }

  /** The sequential log is a function of the job. */
  lemma SequentialLogUnique(j: Job, log: RunLog, log': RunLog)
    requires IsSequentialLog(j, log) && IsSequentialLog(j, log')
    ensures log == log'
  {
    hide Job.Result;
    assert log != [] && |log| <= |log'| ==> log'[|log| - 1] == log[|log| - 1];
    assert log' != [] && |log'| <= |log| ==> log[|log'| - 1] == log'[|log'| - 1];
  }

  /** Everything in the sequential log runs below successes only. */
  lemma SequentialRunsUndoomed(j: Job, log: RunLog, i: nat)
    requires j.dag.Valid() && IsSequentialLog(j, log) && i < |log|
    ensures log[i].node in j.dag.G().nodes && !Doomed(j.dag.G(), j.Outcome(), log[i].node)
  {
    var g, order := j.dag.G(), j.dag.topoOrder;
    hide Job.Result, Dag.Valid, IndexIn;
    TopoOrderIsTopo(j.dag);
    var v := order[i];
    assert v in Elements(order);
    if Doomed(g, j.Outcome(), v) {
      var a :| a in j.Outcome() && !j.Outcome()[a].Succeeded? && Below(g, a, v);
      TopoBelowForward(g, order, a, v);
      PlaceIsIndex(order, i);
      EarlierCompleted(j, log, i, a);
    }
  }

  lemma EarlierCompleted(j: Job, log: RunLog, i: nat, a: NodeId)
    requires IsSequentialLog(j, log) && i < |log| && a in j.dag.topoOrder && IndexIn(j.dag.topoOrder, a) < i
    ensures j.Result(a).completed
  {
    hide Job.Result;
    PlaceOf(j.dag.topoOrder, a);
    assert log[IndexIn(j.dag.topoOrder, a)].result.completed;
  }

  lemma TopoOrderIsTopo(d: Dag)
    requires d.Valid()
    ensures Closed(d.G()) && IsTopo(d.G(), d.topoOrder)
  {
  }

  lemma PlaceOf(t: seq<NodeId>, v: NodeId)
    requires v in t
    ensures IndexIn(t, v) < |t| && t[IndexIn(t, v)] == v
  {
  }

  lemma PlaceIsIndex(t: seq<NodeId>, i: nat)
    requires Distinct(t) && i < |t|
    ensures IndexIn(t, t[i]) == i
  {
  }
}
