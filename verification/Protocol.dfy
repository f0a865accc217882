/** The run loop as a step system (engine/core/src/distributed_run_loop.cpp):
  volatile memory beside the durable state, and the operations between two
  loop heads, each a list of store calls in the order the code makes them. */
module Protocol {
  import opened Ids
  import opened Graphs
  import opened StateMachines
  import opened LedgerKeys
  import opened Storage
  import opened DiskSafety
  import Sorting

  /** What a crash loses. */
  datatype Memory = Memory(
    model: Model,
    current: map<NodeId, nat>,
    due: map<NodeId, int>,
    usage: map<string, int>,
    held: set<NodeId>,
    seen: set<Attempt>)

  /** What the retry policy makes of a reported result. */
  datatype Reply = Completed | Retry(until: int) | GiveUp | Reject

  function StateAfter(reply: Reply): NodeState {
    match reply
    case Completed => Succeeded
    case Retry(_) => RetryWait
    case GiveUp => DeadLettered
    case Reject => Failed
  }

  function EventOf(n: NodeId, reply: Reply): Event {
    match reply
    case Completed => NodeSucceeded(n)
    case Retry(_) => NodeRetryScheduled(n)
    case GiveUp => NodeDeadLettered(n)
    case Reject => NodeFailed(n)
  }

  /** canceled lists the nodes that the operation cancels. */
  datatype Op =
    | Dispatch(node: NodeId, expires: int, published: bool, canceled: seq<NodeId>)
    | Deliver(attempt: Attempt, reply: Reply, canceled: seq<NodeId>)
    | Reap(attempt: Attempt, worker: string)
    | Wake(node: NodeId)
    | Cancel(outcome: Outcome, canceled: seq<NodeId>)
    | Finalize

  function Current(mem: Memory, n: NodeId): nat {
    if n in mem.current then mem.current[n] else 0
  }

  function Used(mem: Memory, key: string): int {
    if key in mem.usage then mem.usage[key] else 0
  }

  /** An affinity slot and a quota slot for n. */
  function Occupy(c: Config, mem: Memory, n: NodeId): Memory {
    var key := c.policy(n).key;
    mem.(usage := if key != "" then mem.usage[key := Used(mem, key) + 1] else mem.usage,
         held := if c.gated then mem.held + {n} else mem.held)
  }

  function Release(c: Config, mem: Memory, n: NodeId): Memory {
    var key := c.policy(n).key;
    mem.(usage := if key != "" && Used(mem, key) > 0 then mem.usage[key := Used(mem, key) - 1] else mem.usage,
         held := mem.held - {n})
  }

  // ------------------------------------------------------------------------
  // The calls of each operation
  // ------------------------------------------------------------------------

  function CancelWrites(canceled: seq<NodeId>): seq<Write> {
    if canceled == [] then []
    else [CompleteNode(canceled[0], Canceled), PublishEvent(NodeCanceled(canceled[0]))] + CancelWrites(canceled[1..])
  }

  function Prelude(a: Attempt, expires: int): seq<Write> {
    [SetStatus(a.node, Dispatched), RecordAttempt(a), SetStatus(a.node, Running), InitLease(a, expires)]
  }

  function DispatchWrites(a: Attempt, expires: int, published: bool, canceled: seq<NodeId>): seq<Write> {
    Prelude(a, expires) +
    if published then [PublishTask(a), PublishEvent(NodeDispatched(a.node))]
    else [CompleteNode(a.node, Failed)] + CancelWrites(canceled) + [PublishEvent(NodeFailed(a.node))]
  }

  function ResultHead(c: Config, a: Attempt, reply: Reply): seq<Write> {
    var claim := Claim(LedgerKey(c.run, a));
    match reply
    case Completed =>
      [claim, CompleteNode(a.node, Succeeded), FinishAttempt(a, true), PublishEvent(NodeSucceeded(a.node))]
    case Retry(until) =>
      [claim, FinishAttempt(a, false), SetRetryWait(a, until), PublishEvent(NodeRetryScheduled(a.node))]
    case GiveUp =>
      [claim, FinishAttempt(a, false), CompleteNode(a.node, DeadLettered), PublishEvent(NodeDeadLettered(a.node))]
    case Reject =>
      [claim, FinishAttempt(a, false), CompleteNode(a.node, Failed), PublishEvent(NodeFailed(a.node))]
  }

  /** A result reaches the ledger. */
  ghost predicate Considered(mem: Memory, a: Attempt) {
    a.node in mem.model.nodes && mem.model.nodes[a.node].Running? && a !in mem.seen && a.number >= Current(mem, a.node)
  }

  /** A result is applied. */
  ghost predicate Applies(c: Config, mem: Memory, d: Disk, a: Attempt) {
    Considered(mem, a) && !Claimed(c, d, a)
  }

  ghost predicate Holds(mem: Memory, n: NodeId) {
    n in mem.model.nodes && mem.model.nodes[n].InFlight()
  }

  ghost function Writes(c: Config, mem: Memory, d: Disk, op: Op): seq<Write> {
    match op
    case Dispatch(n, expires, published, canceled) =>
      DispatchWrites(Attempt(n, Current(mem, n) + 1), expires, published, canceled)
    case Deliver(a, reply, canceled) =>
      if Applies(c, mem, d, a) then ResultHead(c, a, reply) + CancelWrites(canceled)
      else if Considered(mem, a) then [Claim(LedgerKey(c.run, a))]
      else []
    case Reap(a, worker) =>
      [ExpireLease(a, worker)] +
      (if Holds(mem, a.node) then [SetStatus(a.node, Ready)] else []) +
      [PublishEvent(NodeLeaseExpired(a.node))]
    case Wake(n) =>
      if n in mem.model.nodes && mem.model.nodes[n].RetryWait? then [SetStatus(n, Ready)] else []
    case Cancel(outcome, canceled) =>
      CancelWrites(canceled) + [FinishRun(RunCanceled), PublishEvent(RunFinished(outcome))]
    case Finalize =>
      var verdict := Verdict(mem.model.nodes);
      [FinishRun(verdict), PublishEvent(RunFinished(VerdictOutcome(verdict)))]
  }

  function VerdictOutcome(r: RunState): Outcome {
    match r
    case RunSucceeded => OutSucceeded
    case RunCanceled => OutCanceled
    case _ => OutFailed
  }

  // ------------------------------------------------------------------------
  // What each operation does to memory
  // ------------------------------------------------------------------------

  ghost function Started(m: Model, n: NodeId): Model {
    Move(Move(m, n, Dispatched), n, Running)
  }

  /** The verdict on an applied result, before its slots are given back. */
  ghost function Judged(c: Config, mem: Memory, a: Attempt, reply: Reply): Memory {
    var m, n, seen := mem.model, a.node, mem.seen + {a};
    match reply
    case Completed => mem.(model := Succeed(c.g, m, n), seen := seen)
    case Retry(until) => mem.(model := Move(m, n, RetryWait), due := mem.due[n := until], seen := seen)
    case GiveUp => mem.(model := Break(c.g, m, n, DeadLettered), seen := seen)
    case Reject => mem.(model := Break(c.g, m, n, Failed), seen := seen)
  }

  ghost function Next(c: Config, mem: Memory, d: Disk, op: Op): Memory {
    var m := mem.model;
    match op
    case Dispatch(n, _, published, _) =>
      var started := Occupy(c, mem.(model := Started(m, n), current := mem.current[n := Current(mem, n) + 1]), n);
      if published then started else Release(c, started, n).(model := Break(c.g, Started(m, n), n, Failed))
    case Deliver(a, reply, _) =>
      if Applies(c, mem, d, a) then Release(c, Judged(c, mem, a, reply), a.node)
      else if a.node in m.nodes && m.nodes[a.node].Running? then mem.(seen := mem.seen + {a})
      else mem
    case Reap(a, _) =>
      if Holds(mem, a.node) then Release(c, mem.(model := Move(m, a.node, Ready)), a.node) else mem
    case Wake(n) =>
      var woken := mem.(due := mem.due - {n});
      if n in m.nodes && m.nodes[n].RetryWait? then woken.(model := Move(m, n, Ready)) else woken
    case Cancel(_, _) => mem.(model := CancelAll(m), held := {})
    case Finalize => mem.(model := m.(run := Verdict(m.nodes)))
  }

  lemma NextModel(c: Config, mem: Memory, d: Disk, op: Op)
    ensures var m, m' := mem.model, Next(c, mem, d, op).model;
      match op
      case Dispatch(n, _, published, _) =>
        m' == if published then Started(m, n) else Break(c.g, Started(m, n), n, Failed)
      case Deliver(a, reply, _) => m' == if Applies(c, mem, d, a) then Judged(c, mem, a, reply).model else m
      case Reap(a, _) => m' == if Holds(mem, a.node) then Move(m, a.node, Ready) else m
      case Wake(n) => m' == if n in m.nodes && m.nodes[n].RetryWait? then Move(m, n, Ready) else m
      case Cancel(_, _) => m' == CancelAll(m)
      case Finalize => m'.nodes == m.nodes
  {
    hide Started, Break, Judged, Move, CancelAll, Applies, Verdict;
  }

  // ------------------------------------------------------------------------
  // The calls of each operation to the quota gate
  // ------------------------------------------------------------------------

  /** A slot granted for a node, given back, or taken again on a resume. */
  datatype SlotCall = Take(node: NodeId) | Give(node: NodeId) | Retake(node: NodeId)

  function GiveAll(ns: seq<NodeId>): seq<SlotCall> {
    seq(|ns|, i requires 0 <= i < |ns| => Give(ns[i]))
  }

  function RetakeAll(ns: seq<NodeId>): seq<SlotCall> {
    seq(|ns|, i requires 0 <= i < |ns| => Retake(ns[i]))
  }

  /** A slot is given back only if it is held. */
  ghost function SlotCalls(c: Config, mem: Memory, d: Disk, op: Op): seq<SlotCall> {
    match op
    case Dispatch(n, _, published, _) =>
      (if c.gated then [Take(n)] else []) + (if !published && (c.gated || n in mem.held) then [Give(n)] else [])
    case Deliver(a, _, _) => if Applies(c, mem, d, a) && a.node in mem.held then [Give(a.node)] else []
    case Reap(a, _) => if Holds(mem, a.node) && a.node in mem.held then [Give(a.node)] else []
    case Wake(_) => []
    case Cancel(_, _) => GiveAll(Sorting.Ascending(mem.held))
    case Finalize => []
  }

  /** xs are the nodes that an operation newly canceled, in some order. */
  ghost predicate ListsCanceled(xs: seq<NodeId>, before: Nodes, after: Nodes) {
    && Distinct(xs)
    && forall v :: v in xs <==> v in before && v in after && after[v].Canceled? && !before[v].Canceled?
  }

  ghost predicate HasSlot(c: Config, mem: Memory, n: NodeId) {
    c.policy(n).key != "" ==> Used(mem, c.policy(n).key) < c.policy(n).capacity
  }

  /** When the loop performs an operation. Workers report published attempts
    only; everything else is left to the environment: the gate's answer, the
    clock, and the order and number of deliveries. */
  ghost predicate Enabled(c: Config, mem: Memory, d: Disk, op: Op) {
    var m := mem.model;
    m.run.RunRunning? &&
    match op
    case Dispatch(n, _, published, canceled) =>
      && n in m.nodes && m.nodes[n].Ready? && HasSlot(c, mem, n)
      && (!published ==> ListsCanceled(canceled, m.nodes, Break(c.g, Started(m, n), n, Failed).nodes))
      && (!published ==> Fated(c, n, Failed))
      && (published ==> canceled == [])
    case Deliver(a, reply, canceled) =>
      && a in d.tasks
      && (reply.Completed? || reply.Retry? ==> canceled == [])
      && (reply.Retry? ==> a.number < c.policy(a.node).tries)
      && (Applies(c, mem, d, a) && !reply.Retry? ==> Fated(c, a.node, StateAfter(reply)))
      && (Applies(c, mem, d, a) && (reply.GiveUp? || reply.Reject?) ==>
            ListsCanceled(canceled, m.nodes, Break(c.g, m, a.node, StateAfter(reply)).nodes))
    case Reap(a, worker) => LeaseOpen(d, a) && d.leases[a].worker == worker
    case Wake(n) => n in mem.due
    case Cancel(outcome, canceled) =>
      && c.cancelable
      && (outcome.OutCanceled? || outcome.OutTimeout? || outcome.OutStopped?)
      && ListsCanceled(canceled, m.nodes, CancelAll(m).nodes)
    case Finalize => AllTerminal(m.nodes)
  }

  // ------------------------------------------------------------------------
  // Memory as a view of the durable state
  // ------------------------------------------------------------------------

  ghost function InFlight(nodes: Nodes): set<NodeId> {
    set x | x in nodes && nodes[x].InFlight()
  }

  /** Attempts are numbered from 1, so the current one is their count. */
  ghost function AttemptNumbers(d: Disk): map<NodeId, nat> {
    map n | n in d.status :: AttemptCount(d, n)
  }

  ghost function Timers(d: Disk): map<NodeId, int> {
    map n | n in d.status && d.status[n].RetryWait? && n in d.until && d.until[n] > 0 :: d.until[n]
  }

  ghost function SlotsUsed(c: Config, nodes: Nodes): map<string, int> {
    map n | n in nodes && nodes[n].InFlight() && c.policy(n).key != "" ::
      c.policy(n).key := |InFlightWith(c, nodes, c.policy(n).key)|
  }

  /** What reconstruct_from_store builds from the rows there are. */
  ghost function Recovered(c: Config, d: Disk): Memory {
    Memory(StartFrom(c.g, Filled(c.g, Restored(d.status))), AttemptNumbers(d), Timers(d), SlotsUsed(c, d.status),
           if c.gated then InFlight(d.status) else {}, {})
  }

  ghost predicate DueMirrors(mem: Memory, d: Disk) {
    && (forall n :: n in mem.due ==> n in d.status && d.status[n].RetryWait? && n in d.until && d.until[n] == mem.due[n])
    && (forall n :: n in d.status && d.status[n].RetryWait? && n in d.until && d.until[n] > 0 ==> n in mem.due)
  }

  /** Affinity usage and held quota slots are those of the rows in flight. */
  ghost predicate SlotsMirror(c: Config, mem: Memory, nodes: Nodes) {
    && (forall key {:trigger Used(mem, key)} :: key != "" ==> Used(mem, key) == |InFlightWith(c, nodes, key)|)
    && mem.held == (if c.gated then InFlight(nodes) else {})
  }

  ghost predicate SeenMirrors(c: Config, mem: Memory, d: Disk) {
    forall a :: a in mem.seen ==> Claimed(c, d, a) || a.number < AttemptCount(d, a.node)
  }

  /** Memory at a loop head says nothing that the durable state does not. */
  ghost predicate Mirrors(c: Config, mem: Memory, d: Disk) {
    && mem.model == StartFrom(c.g, Restored(d.status))
    && (forall n :: n in d.status ==> Current(mem, n) == AttemptCount(d, n))
    && DueMirrors(mem, d)
    && SlotsMirror(c, mem, d.status)
    && SeenMirrors(c, mem, d)
    && !Finished(d.run)
  }
}
