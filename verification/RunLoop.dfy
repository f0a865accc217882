/** The run loop itself (engine/core/src/distributed_run_loop.cpp): the fields it
  keeps, the calls it makes, in the order in which it makes them.

  journal is the history of its store calls and publishes; every method appends
  to it exactly the calls of the protocol operations that it performs. slotCalls
  is the history of its calls to the quota gate, kept in the same way. */
module RunLoops {
  import opened Ids
  import opened Graphs
  import opened Dags
  import opened StateMachines
  import opened SchedulerStates
  import opened ExecutionPolicies
  import opened Retries
  import opened LedgerKeys
  import opened Storage
  import RunStores
  import opened DiskSafety
  import opened Protocol
  import opened OpSafety
  import opened Recovery
  import opened Bookkeeping
  import opened Runs
  import opened LoopPasses
  import Sorting
  import StartUps
  import Transports

  /** A result as a worker reports it. size is the encoded length, finished the
    completion time in milliseconds. */
  datatype Result = Result(
    run: string,
    attempt: Attempt,
    completed: bool,
    abandoned: bool,
    error: string,
    errorClass: ErrorClass,
    hasRetryable: bool,
    retryable: bool,
    finished: int,
    size: nat)

  const MAX_ENVELOPE_BYTES := 256 * 1024

  /** validate_result_envelope finds no problem. */
  predicate NoProblems(r: Result) {
    && r.run != "" && r.attempt.node != "" && r.attempt.number != 0
    && (r.completed ==> r.error == "")
    && (!r.completed ==> r.error != "" || r.abandoned)
    && r.size <= MAX_ENVELOPE_BYTES
  }

  lemma BreakChanged(g: Graph, m: Model, n: NodeId, s: NodeState, xs: seq<NodeId>)
    requires n in m.nodes && HasFailed(s) && Distinct(xs)
    requires var after := Break(g, m, n, s).nodes; forall v :: v in xs <==> v in after && v != n && after[v] != m.nodes[v]
    ensures ListsCanceled(xs, m.nodes, Break(g, m, n, s).nodes)
  {
    CancelTargetsAreUnfinished(g, m.nodes[n := s], n);
    hide CancelTarget;
  }

  /** The message that tells workers to cancel a run. */
  datatype Control = Control(run: string, reason: string, at: int)

  class DistributedRunLoop {
    const c: Config
    const retries: RetryPolicySet
    const retriesEnabled: bool
    const klass: NodeId -> ResourceClass
    const state: SchedulerState
    const store: RunStores.InMemoryRunStore
    var usage: map<string, int>
    var currentAttempt: map<NodeId, nat>
    var retryDue: map<NodeId, int>
    var quotaHeld: set<NodeId>
    var seen: set<Attempt>
    var cancelRequested: bool
    var cancelStamped: bool
    var cancelReason: string
    var cancelAt: int
    var controlSent: bool
    var controls: seq<Control>
    ghost var disk: Disk
    ghost var journal: seq<Write>
    ghost var slotCalls: seq<SlotCall>

    ghost function Mem(): Memory
      reads this, state
    {
      Memory(state.Value(), currentAttempt, retryDue, usage, quotaHeld, seen)
    }

    /** The store holds this run's rows as disk. */
    ghost predicate Linked()
      reads this, store
    {
      RunStores.Represents(store.Value(), c.run, disk)
    }

    ghost predicate Configured()
      reads this, state
    {
      && c.g == state.dag.G() && state.dag.Valid() && Closed(c.g)
      && c.cancelable && (forall n :: c.fate(n) == None)
      && (forall n :: c.policy(n).tries == ForClass(retries, klass(n)).maxAttempts)
    }

    ghost predicate Valid()
      reads this, state, store
    {
      Configured() && Linked() && state.Valid() && Good(c, World(Mem(), disk))
    }

    constructor (c: Config, dag: Dag, store: RunStores.InMemoryRunStore, retries: RetryPolicySet, retriesEnabled: bool,
                 klass: NodeId -> ResourceClass)
      requires dag.Valid()
      ensures this.c == c && this.store == store && this.retries == retries && this.klass == klass
      ensures fresh(state) && state.dag == dag && state.Valid() && state.Value() == InitialModel(dag.G())
      ensures Mem() == Memory(InitialModel(dag.G()), map[], map[], map[], {}, {}) && journal == [] && slotCalls == []
      ensures !cancelRequested
    {
      this.c, this.store, this.retries, this.retriesEnabled, this.klass := c, store, retries, retriesEnabled, klass;
      usage, currentAttempt, retryDue, quotaHeld, seen := map[], map[], map[], {}, {};
      state := new SchedulerState(dag);
      cancelRequested, cancelStamped, cancelReason, cancelAt := false, false, "", 0;
      controlSent, controls := false, [];
      disk, journal, slotCalls := FreshDisk(c, {}, true), [], [];
    }

    // ----------------------------------------------------------------------
    // Store calls and publishes
    // ----------------------------------------------------------------------

    ghost method Journal(w: Write)
      modifies `disk, `journal
      ensures disk == Applied(old(disk), w) && journal == old(journal) + [w]
    {
      disk, journal := Applied(disk, w), journal + [w];
    }

    method SetStatus(n: NodeId, s: NodeState) returns (ok: bool)
      requires Linked()
      modifies store, `disk, `journal
      ensures Linked() && ok == Accepted(old(disk), Write.SetStatus(n, s))
      ensures disk == Applied(old(disk), Write.SetStatus(n, s)) && journal == old(journal) + [Write.SetStatus(n, s)]
    {
      RunStores.CallIsWrite(store.Value(), c.run, disk, Write.SetStatus(n, s));
      ok := store.SetNodeStatus(c.run, n, s);
      Journal(Write.SetStatus(n, s));
    }

    method SetRetryWait(a: Attempt, until: int) returns (ok: bool)
      requires Linked()
      modifies store, `disk, `journal
      ensures Linked() && ok == Accepted(old(disk), Write.SetRetryWait(a, until))
      ensures disk == Applied(old(disk), Write.SetRetryWait(a, until))
      ensures journal == old(journal) + [Write.SetRetryWait(a, until)]
    {
      RunStores.CallIsWrite(store.Value(), c.run, disk, Write.SetRetryWait(a, until));
      ok := store.SetNodeRetryWait(c.run, a, until);
      Journal(Write.SetRetryWait(a, until));
    }

    method RecordAttempt(a: Attempt) returns (ok: bool)
      requires Linked()
      modifies store, `disk, `journal
      ensures Linked() && ok == Accepted(old(disk), Write.RecordAttempt(a))
      ensures disk == Applied(old(disk), Write.RecordAttempt(a)) && journal == old(journal) + [Write.RecordAttempt(a)]
    {
      RunStores.CallIsWrite(store.Value(), c.run, disk, Write.RecordAttempt(a));
      ok := store.RecordAttempt(c.run, a);
      Journal(Write.RecordAttempt(a));
    }

    method FinishAttempt(a: Attempt, succeeded: bool) returns (ok: bool)
      requires Linked()
      modifies store, `disk, `journal
      ensures Linked() && ok == Accepted(old(disk), Write.FinishAttempt(a, succeeded))
      ensures disk == Applied(old(disk), Write.FinishAttempt(a, succeeded))
      ensures journal == old(journal) + [Write.FinishAttempt(a, succeeded)]
    {
      RunStores.CallIsWrite(store.Value(), c.run, disk, Write.FinishAttempt(a, succeeded));
      ok := store.FinishAttempt(c.run, a, succeeded);
      Journal(Write.FinishAttempt(a, succeeded));
    }

    method CompleteNode(n: NodeId, s: NodeState) returns (ok: bool)
      requires Linked()
      modifies store, `disk, `journal
      ensures Linked() && ok == Accepted(old(disk), Write.CompleteNode(n, s))
      ensures disk == Applied(old(disk), Write.CompleteNode(n, s)) && journal == old(journal) + [Write.CompleteNode(n, s)]
    {
      RunStores.CallIsWrite(store.Value(), c.run, disk, Write.CompleteNode(n, s));
      ok := store.CompleteNodeRun(c.run, n, s);
      Journal(Write.CompleteNode(n, s));
    }

    method InitLease(a: Attempt, expires: int) returns (ok: bool)
      requires Linked()
      modifies store, `disk, `journal
      ensures Linked() && ok == Accepted(old(disk), Write.InitLease(a, expires))
      ensures disk == Applied(old(disk), Write.InitLease(a, expires)) && journal == old(journal) + [Write.InitLease(a, expires)]
    {
      RunStores.CallIsWrite(store.Value(), c.run, disk, Write.InitLease(a, expires));
      ok := store.InitAttemptLease(c.run, a, expires);
      Journal(Write.InitLease(a, expires));
    }

    method ExpireLease(a: Attempt, worker: string) returns (ok: bool)
      requires Linked()
      modifies store, `disk, `journal
      ensures Linked() && ok == Accepted(old(disk), Write.ExpireLease(a, worker))
      ensures disk == Applied(old(disk), Write.ExpireLease(a, worker))
      ensures journal == old(journal) + [Write.ExpireLease(a, worker)]
    {
      RunStores.CallIsWrite(store.Value(), c.run, disk, Write.ExpireLease(a, worker));
      ok := store.MarkAttemptLeaseExpired(c.run, a, worker);
      Journal(Write.ExpireLease(a, worker));
    }

    method ClaimKey(key: string) returns (ok: bool)
      requires Linked()
      modifies store, `disk, `journal
      ensures Linked() && ok == Accepted(old(disk), Claim(key))
      ensures disk == Applied(old(disk), Claim(key)) && journal == old(journal) + [Claim(key)]
    {
      RunStores.CallIsWrite(store.Value(), c.run, disk, Claim(key));
      ok := store.ClaimIdempotencyKey(key, c.run);
      Journal(Claim(key));
    }

    method FinishRun(r: RunState)
      requires Linked()
      modifies store, `disk, `journal
      ensures Linked() && disk == Applied(old(disk), Write.FinishRun(r)) && journal == old(journal) + [Write.FinishRun(r)]
    {
      RunStores.CallIsWrite(store.Value(), c.run, disk, Write.FinishRun(r));
      var _ := store.FinishRun(c.run, r);
      Journal(Write.FinishRun(r));
    }

    /** The two streams: what a publish adds is in the journal. */
    method Emit(e: Event)
      requires Linked()
      modifies `disk, `journal
      ensures Linked() && disk == Applied(old(disk), PublishEvent(e)) && journal == old(journal) + [PublishEvent(e)]
    {
      RunStores.CallIsWrite(store.Value(), c.run, disk, PublishEvent(e));
      Journal(PublishEvent(e));
    }

    method Publish(a: Attempt)
      requires Linked()
      modifies `disk, `journal
      ensures Linked() && disk == Applied(old(disk), PublishTask(a)) && journal == old(journal) + [PublishTask(a)]
    {
      RunStores.CallIsWrite(store.Value(), c.run, disk, PublishTask(a));
      Journal(PublishTask(a));
    }

    /** Records every cancellation, then tells of it. */
    method PersistCanceled(xs: seq<NodeId>)
      requires Linked()
      modifies store, `disk, `journal
      ensures Linked() && disk == ApplyAll(old(disk), CancelWrites(xs)) && journal == old(journal) + CancelWrites(xs)
    {
      hide Accepted, Applied, RunStores.Represents;
      for i := 0 to |xs|
        invariant Linked() && disk == ApplyAll(old(disk), CancelWrites(xs[..i]))
        invariant journal == old(journal) + CancelWrites(xs[..i])
      {
        CancelWritesAppend(xs[..i], xs[i]);
        assert xs[..i + 1] == xs[..i] + [xs[i]];
        ghost var d := disk;
        var _ := CompleteNode(xs[i], Canceled);
        Emit(NodeCanceled(xs[i]));
        ApplyTwo(d, Write.CompleteNode(xs[i], Canceled), PublishEvent(NodeCanceled(xs[i])));
        ApplyAllConcat(old(disk), CancelWrites(xs[..i]),
                       [Write.CompleteNode(xs[i], Canceled), PublishEvent(NodeCanceled(xs[i]))]);
      }
      assert xs[..|xs|] == xs;
    }

    /** The gate is called only if the slot is held. */
    method ReleaseQuotaSlot(n: NodeId)
      modifies `quotaHeld, `slotCalls
      ensures quotaHeld == old(quotaHeld) - {n}
      ensures slotCalls == old(slotCalls) + if n in old(quotaHeld) then [Give(n)] else []
    {
      if n !in quotaHeld { return; }
      quotaHeld := quotaHeld - {n};
      slotCalls := slotCalls + [Give(n)];
    }

    /** Gives back every held slot, each once. */
    method ReleaseAllQuotaSlots()
      modifies `quotaHeld, `slotCalls
      ensures quotaHeld == {} && slotCalls == old(slotCalls) + GiveAll(Sorting.Ascending(old(quotaHeld)))
    {
      hide GiveAll, Sorting.StrictlySorted, Sorting.Ascending;
      var held := Sorting.SortedKeys(quotaHeld);
      IsAscending(held, quotaHeld);
      GivenSoFar(held, 0);
      for i := 0 to |held|
        invariant quotaHeld == old(quotaHeld) - Elements(held[..i])
        invariant slotCalls == old(slotCalls) + GiveAll(held[..i])
      {
        GivenSoFar(held, i);
        ReleaseQuotaSlot(held[i]);
      }
      assert held[..|held|] == held;
    }

    /** Gives back n's affinity slot and its quota slot. */
    method ReleaseSlots(n: NodeId)
      modifies `usage, `quotaHeld, `slotCalls
      ensures Mem() == Release(c, old(Mem()), n)
      ensures slotCalls == old(slotCalls) + if n in old(quotaHeld) then [Give(n)] else []
    {
      var key := c.policy(n).key;
      if key != "" && key in usage && usage[key] > 0 { usage := usage[key := usage[key] - 1]; }
      ReleaseQuotaSlot(n);
    }

    method OccupySlots(n: NodeId)
      modifies `usage, `quotaHeld, `slotCalls
      ensures Mem() == Occupy(c, old(Mem()), n)
      ensures slotCalls == old(slotCalls) + if c.gated then [Take(n)] else []
    {
      var key := c.policy(n).key;
      if key != "" { usage := usage[key := (if key in usage then usage[key] else 0) + 1]; }
      if c.gated { quotaHeld, slotCalls := quotaHeld + {n}, slotCalls + [Take(n)]; }
    }

    /** The four calls before a task goes out. */
    method OpenAttempt(a: Attempt, expires: int)
      requires Linked()
      modifies store, `disk, `journal
      ensures Linked() && disk == ApplyAll(old(disk), Prelude(a, expires)) && journal == old(journal) + Prelude(a, expires)
    {
      hide Accepted, Applied, RunStores.Represents;
      var _ := SetStatus(a.node, Dispatched);
      var _ := RecordAttempt(a);
      var _ := SetStatus(a.node, Running);
      var _ := InitLease(a, expires);
      ApplyFour(old(disk), Write.SetStatus(a.node, Dispatched), Write.RecordAttempt(a), Write.SetStatus(a.node, Running),
                Write.InitLease(a, expires));
    }

    // ----------------------------------------------------------------------
    // The operations
    // ----------------------------------------------------------------------

    /** op was performed: memory, store and journal moved as the protocol says. */
    twostate predicate Did(op: Op)
      reads this, state, store
    {
      && Valid()
      && Enabled(c, old(Mem()), old(disk), op)
      && Mem() == Next(c, old(Mem()), old(disk), op)
      && disk == ApplyAll(old(disk), Writes(c, old(Mem()), old(disk), op))
      && journal == old(journal) + Writes(c, old(Mem()), old(disk), op)
      && slotCalls == old(slotCalls) + SlotCalls(c, old(Mem()), old(disk), op)
    }

    lemma ConfiguredFacts()
      requires Configured()
      ensures c.g == state.dag.G() && Closed(c.g) && c.cancelable && forall n :: c.fate(n) == None
      ensures forall n :: c.policy(n).tries == ForClass(retries, klass(n)).maxAttempts
    {
    }

    /** Nothing a method changes is part of the configuration. */
    twostate lemma ConfiguredStays()
      requires old(Configured())
      ensures Configured()
    {
    }

    /** Takes the slots, counts the attempt, and moves the node to RUNNING. */
    method StartAttempt(n: NodeId) returns (a: Attempt)
      requires state.Valid() && n in state.nodeStates && state.nodeStates[n].Ready?
      modifies `usage, `quotaHeld, `slotCalls, `currentAttempt, state
      ensures state.Valid() && a == Attempt(n, Current(old(Mem()), n) + 1)
      ensures Mem() == StartedMemory(c, old(Mem()), n)
      ensures n in quotaHeld <==> c.gated || n in old(quotaHeld)
      ensures slotCalls == old(slotCalls) + if c.gated then [Take(n)] else []
    {
      hide SchedulerState.Valid, Dag.Valid, Dag.G, Move;
      OccupySlots(n);
      var number := (if n in currentAttempt then currentAttempt[n] else 0) + 1;
      currentAttempt := currentAttempt[n := number];
      ghost var m := state.Value();
      MovedNode(m, n, Dispatched);
      state.DispatchNode(n);
      state.StartNode(n);
      a := Attempt(n, number);
    }

    /** A task that cannot be sent fails its node. */
    method RejectTask(a: Attempt) returns (canceled: seq<NodeId>)
      requires Linked() && state.Valid() && a.node in state.nodeStates && state.nodeStates[a.node].InFlight()
      modifies `usage, `quotaHeld, `slotCalls, `disk, `journal, state, store
      ensures Linked() && state.Valid()
      ensures slotCalls == old(slotCalls) + if a.node in old(quotaHeld) then [Give(a.node)] else []
      ensures Mem() == Release(c, old(Mem()), a.node).(model := Break(state.dag.G(), old(Mem()).model, a.node, Failed))
      ensures disk == ApplyAll(old(disk), [Write.CompleteNode(a.node, Failed)] + CancelWrites(canceled) + [PublishEvent(NodeFailed(a.node))])
      ensures journal == old(journal) + ([Write.CompleteNode(a.node, Failed)] + CancelWrites(canceled) + [PublishEvent(NodeFailed(a.node))])
      ensures Distinct(canceled)
      ensures forall v :: v in canceled <==> v in state.nodeStates && v != a.node && state.nodeStates[v] != old(state.nodeStates)[v]
    {
      hide SchedulerState.Valid, Dag.Valid, Dag.G, RunStores.Represents, Accepted, Applied, Break, Release, CancelWrites,
        ApplyAll;
      ReleaseSlots(a.node);
      var _ := CompleteNode(a.node, Failed);
      canceled := state.FailNode(a.node);
      PersistCanceled(canceled);
      Emit(NodeFailed(a.node));
      RejectCalls(old(disk), a.node, canceled);
    }

    /** The task goes out, and its event. */
    method SendTask(a: Attempt)
      requires Linked()
      modifies `disk, `journal
      ensures var ws := [PublishTask(a), PublishEvent(NodeDispatched(a.node))];
        Linked() && disk == ApplyAll(old(disk), ws) && journal == old(journal) + ws
    {
      hide Applied, RunStores.Represents, ApplyAll;
      Publish(a);
      Emit(NodeDispatched(a.node));
      ApplyTwo(old(disk), PublishTask(a), PublishEvent(NodeDispatched(a.node)));
    }

    /** Dispatches one ready node with a free slot. accept is the transport's
      answer; a refused task fails its node. */
    method DispatchNode(n: NodeId, expires: int, accept: bool) returns (ghost op: Op)
      requires Valid() && Alive(World(Mem(), disk)) && n in state.nodeStates && state.nodeStates[n].Ready?
      requires HasSlot(c, Mem(), n)
      modifies this, state, store
      ensures Did(op) && op.Dispatch? && op.node == n && op.published == accept
      ensures cancelRequested == old(cancelRequested)
    {
      hide Good, SchedulerState.Valid, Dag.Valid, Dag.G, RunStores.Represents, Accepted, Applied, Break, Enabled, Closed,
        Next, Writes, ApplyAll, StartedMemory, Prelude, HasSlot, Release, CancelWrites, Configured, Move, SlotCalls;
      ConfiguredFacts();
      ghost var m0, d0 := Mem(), disk;
      var a := StartAttempt(n);
      StartedIsRunning(c, m0, n);
      OpenAttempt(a, expires);
      if accept {
        SendTask(a);
        op := Dispatch(n, expires, true, []);
        PublishedIs(c, m0, d0, n, expires, old(journal));
      } else {
        var canceled := RejectTask(a);
        op := Dispatch(n, expires, false, canceled);
        RejectedIs(c, m0, d0, n, expires, canceled, old(journal));
      }
      DispatchSlots(c, m0, d0, op, old(slotCalls), slotCalls);
      GoodStays(c, m0, d0, op);
      ConfiguredStays();
    }

    // --- results ------------------------------------------------------------

    /** A success is stored before it unlocks anything. */
    method SucceedNode(a: Attempt) returns (applied: bool)
      requires Linked() && state.Valid() && a.node in state.nodeStates && state.nodeStates[a.node].Running?
      requires OpenRow(disk, a.node)
      modifies `disk, `journal, state, store
      ensures applied && Linked() && state.Valid()
      ensures Mem() == old(Mem()).(model := Succeed(state.dag.G(), old(Mem()).model, a.node))
      ensures var ws := [Write.CompleteNode(a.node, Succeeded), Write.FinishAttempt(a, true), PublishEvent(NodeSucceeded(a.node))];
        disk == ApplyAll(old(disk), ws) && journal == old(journal) + ws
    {
      hide SchedulerState.Valid, Dag.Valid, Dag.G, RunStores.Represents, Applied, Succeed, ApplyAll;
      var stored := CompleteNode(a.node, Succeeded);
      if !stored { return false; }
      var _ := FinishAttempt(a, true);
      var _ := state.CompleteNode(a.node, true);
      Emit(NodeSucceeded(a.node));
      ApplyThree(old(disk), Write.CompleteNode(a.node, Succeeded), Write.FinishAttempt(a, true),
                 PublishEvent(NodeSucceeded(a.node)));
      applied := true;
    }

    /** A failure for good: the row first, then everything below. */
    method BreakNode(a: Attempt, s: NodeState, e: Event) returns (applied: bool, canceled: seq<NodeId>)
      requires Linked() && state.Valid() && a.node in state.nodeStates && state.nodeStates[a.node].Running?
      requires OpenRow(disk, a.node) && HasFailed(s)
      modifies `disk, `journal, state, store
      ensures applied && Linked() && state.Valid()
      ensures Mem() == old(Mem()).(model := Break(state.dag.G(), old(Mem()).model, a.node, s))
      ensures var ws := [Write.CompleteNode(a.node, s), PublishEvent(e)] + CancelWrites(canceled);
        disk == ApplyAll(old(disk), ws) && journal == old(journal) + ws
      ensures Distinct(canceled)
      ensures forall v :: v in canceled <==> v in state.nodeStates && v != a.node && state.nodeStates[v] != old(state.nodeStates)[v]
    {
      hide SchedulerState.Valid, Dag.Valid, Dag.G, RunStores.Represents, Applied, Break, ApplyAll, CancelWrites;
      canceled := [];
      var stored := CompleteNode(a.node, s);
      if !stored { return false, []; }
      if s.Failed? {
        canceled := state.CompleteNode(a.node, false);
      } else {
        canceled := state.DeadLetterNode(a.node);
      }
      Emit(e);
      PersistCanceled(canceled);
      ApplyTwo(old(disk), Write.CompleteNode(a.node, s), PublishEvent(e));
      ApplyAllConcat(old(disk), [Write.CompleteNode(a.node, s), PublishEvent(e)], CancelWrites(canceled));
      applied := true;
    }

    /** Parks the node until its backoff has passed. */
    method ParkNode(a: Attempt, until: int) returns (parked: bool)
      requires Linked() && state.Valid() && a.node in state.nodeStates && state.nodeStates[a.node].Running?
      modifies `retryDue, `disk, `journal, state, store
      ensures parked && Linked() && state.Valid()
      ensures Mem() == old(Mem()).(model := Move(old(Mem()).model, a.node, RetryWait), due := old(retryDue)[a.node := until])
      ensures var ws := [Write.SetRetryWait(a, until), PublishEvent(NodeRetryScheduled(a.node))];
        disk == ApplyAll(old(disk), ws) && journal == old(journal) + ws
    {
      hide SchedulerState.Valid, Dag.Valid, Dag.G, RunStores.Represents, Applied, Accepted, ApplyAll;
      parked := state.RetryWaitNode(a.node);
      if !parked { return; }
      var _ := SetRetryWait(a, until);
      retryDue := retryDue[a.node := until];
      Emit(NodeRetryScheduled(a.node));
      ApplyTwo(old(disk), Write.SetRetryWait(a, until), PublishEvent(NodeRetryScheduled(a.node)));
    }

    /** What the retry policy makes of a well-formed result. */
    function ReplyTo(r: Result, u: real): Reply
    {
      var policy := ForClass(retries, klass(r.attempt.node));
      if r.completed then Completed
      else if !retriesEnabled then Reject
      else
        var k := r.attempt.number;
        match DecideRetry(policy, k, r.errorClass, r.hasRetryable, r.retryable, Backoff(policy, k, u))
        case FailNow => Reject
        case DeadLetter => GiveUp
        case RetryAfter(backoff) => Retry(r.finished + backoff)
    }

    /** Consults the retry policy. Returns whether it parked the node or gave it
      up; otherwise the caller fails the node. */
    method HandleRetryableFailure(r: Result, u: real) returns (handled: bool, canceled: seq<NodeId>)
      requires Linked() && state.Valid() && r.attempt.node in state.nodeStates && state.nodeStates[r.attempt.node].Running?
      requires OpenRow(disk, r.attempt.node) && !r.completed && 0.0 <= u < 1.0 && c.g == state.dag.G()
      modifies `retryDue, `disk, `journal, state, store
      ensures Linked() && state.Valid() && handled == !ReplyTo(r, u).Reject?
      ensures !handled ==> Mem() == old(Mem()) && disk == old(disk) && journal == old(journal) && canceled == []
      ensures handled ==> Settled(c.g, old(Mem()), Mem(), r.attempt, ReplyTo(r, u), canceled, old(disk), disk)
      ensures handled ==> journal == old(journal) + SettleWrites(r.attempt, ReplyTo(r, u)) + CancelWrites(canceled)
    {
      hide SchedulerState.Valid, Dag.Valid, Dag.G, RunStores.Represents, Break, ApplyAll, CancelWrites, Move, Backoff;
      handled, canceled := false, [];
      if !retriesEnabled { return; }
      var policy := ForClass(retries, klass(r.attempt.node));
      var backoff := ComputeBackoff(policy, r.attempt.number, u);
      var decision := DecideRetry(policy, r.attempt.number, r.errorClass, r.hasRetryable, r.retryable, backoff);
      match decision {
        case FailNow => return;
        case DeadLetter =>
          handled, canceled := BreakNode(r.attempt, DeadLettered, NodeDeadLettered(r.attempt.node));
          BreakSettled(c.g, old(Mem()), Mem(), r.attempt, GiveUp, canceled, old(disk), disk);
        case RetryAfter(b) =>
          handled := ParkNode(r.attempt, r.finished + b);
          NothingCanceled(SettleWrites(r.attempt, Retry(r.finished + b)));
      }
    }

    /** The result is well formed and about a node of this run. */
    predicate Identified(r: Result)
      reads state
    {
      NoProblems(r) && r.run == c.run && r.attempt.node in state.nodeStates
    }

    /** Applies one result. The caller gives the node's slots back when it was
      applied. */
    method ApplyResult(r: Result, u: real) returns (applied: bool, ghost canceled: seq<NodeId>)
      requires Valid() && Alive(World(Mem(), disk)) && 0.0 <= u < 1.0
      requires Identified(r) ==> r.attempt in disk.tasks
      modifies this, state, store
      ensures Configured() && Linked() && state.Valid() && slotCalls == old(slotCalls)
      ensures applied == (old(Identified(r)) && Applies(c, old(Mem()), old(disk), r.attempt))
      ensures !old(Identified(r)) ==> Mem() == old(Mem()) && disk == old(disk) && journal == old(journal)
      ensures old(Identified(r)) ==> Consumed(r, u, applied, canceled)
    {
      hide SchedulerState.Valid, Dag.Valid, Dag.G, RunStores.Represents, Good, Closed, Configured, NoProblems, Applied;
      ConfiguredStays();
      if !NoProblems(r) { return false, []; }
      if r.run != c.run { return false, []; }
      if r.attempt.node !in state.nodeStates { return false, []; }
      applied, canceled := Consider(r, u);
    }

    /** The result was consumed as the protocol says, the slots not yet given
      back. */
    twostate predicate Consumed(r: Result, u: real, applied: bool, canceled: seq<NodeId>)
      reads this, state
    {
      var op := Deliver(r.attempt, ReplyTo(r, u), canceled);
      && Enabled(c, old(Mem()), old(disk), op)
      && disk == ApplyAll(old(disk), Writes(c, old(Mem()), old(disk), op))
      && journal == old(journal) + Writes(c, old(Mem()), old(disk), op)
      && Mem() == if applied then Judged(c, old(Mem()), r.attempt, ReplyTo(r, u)) else Next(c, old(Mem()), old(disk), op)
    }

    /** Applicability, dedupe and the late-result rule, in this order. */
    method IsTimely(a: Attempt) returns (timely: bool)
      requires a.node in state.nodeStates
      modifies `seen
      ensures timely == Considered(old(Mem()), a)
      ensures seen == old(seen) + if state.nodeStates[a.node].Running? then {a} else {}
    {
      if state.nodeStates[a.node] != Running || a in seen {
        return false;
      }
      seen := seen + {a};
      return a.number >= if a.node in currentAttempt then currentAttempt[a.node] else 0;
    }

    /** A timely result is applied if the ledger grants its claim. */
    method Consider(r: Result, u: real) returns (applied: bool, ghost canceled: seq<NodeId>)
      requires Valid() && Alive(World(Mem(), disk)) && 0.0 <= u < 1.0
      requires r.attempt.node in state.nodeStates && r.attempt in disk.tasks
      modifies this, state, store
      ensures Configured() && Linked() && state.Valid() && slotCalls == old(slotCalls)
      ensures applied == Applies(c, old(Mem()), old(disk), r.attempt)
      ensures Consumed(r, u, applied, canceled)
    {
      hide SchedulerState.Valid, Dag.Valid, Dag.G, RunStores.Represents, Break, ApplyAll, CancelWrites, Move, Backoff, Good,
        Succeed, Closed, Configured, NoProblems, LedgerKey, Accepted, Applied, Enabled, Writes, Next, Judged, Settled,
        SettleWrites;
      ConfiguredFacts();
      ConfiguredStays();
      ghost var m0, d0 := Mem(), disk;
      applied, canceled := false, [];
      var a := r.attempt;
      ghost var reply := ReplyTo(r, u);
      RetryHasBudget(r, u);
      IgnoredEnabled(c, m0, d0, a, reply);
      var timely := IsTimely(a);
      ConfiguredStays();
      if !timely {
        IgnoredCalls(c, m0, d0, a, reply);
        return;
      }
      ghost var j0 := journal;
      var claimed := ClaimKey(LedgerKey(c.run, a));
      ClaimAnswer(c, m0, d0, a, reply);
      ConfiguredStays();
      if !claimed { return; }
      ClaimedOpen(c, m0, d0, a);
      canceled := ApplyClaimed(r, u, m0, d0, j0);
      applied := true;
    }

    /** The rest of apply_result, once the claim is granted. */
    method ApplyClaimed(r: Result, u: real, ghost m0: Memory, ghost d0: Disk, ghost j0: seq<Write>)
      returns (ghost canceled: seq<NodeId>)
      requires Configured() && Linked() && state.Valid() && 0.0 <= u < 1.0
      requires r.attempt.node in state.nodeStates && state.nodeStates[r.attempt.node].Running? && OpenRow(disk, r.attempt.node)
      requires m0.model.run.RunRunning? && r.attempt in d0.tasks && Applies(c, m0, d0, r.attempt)
      requires ReplyTo(r, u).Retry? ==> r.attempt.number < c.policy(r.attempt.node).tries
      requires Mem() == m0.(seen := m0.seen + {r.attempt})
      requires disk == Applied(d0, Claim(LedgerKey(c.run, r.attempt))) && journal == j0 + [Claim(LedgerKey(c.run, r.attempt))]
      modifies `retryDue, `disk, `journal, state, store
      ensures Configured() && Linked() && state.Valid()
      ensures var a, reply, op := r.attempt, ReplyTo(r, u), Deliver(r.attempt, ReplyTo(r, u), canceled);
        && Enabled(c, m0, d0, op) && Mem() == Judged(c, m0, a, reply)
        && disk == ApplyAll(d0, Writes(c, m0, d0, op)) && journal == j0 + Writes(c, m0, d0, op)
    {
      hide SchedulerState.Valid, Dag.Valid, Dag.G, RunStores.Represents, Break, ApplyAll, CancelWrites, Move, Backoff, Good,
        Succeed, Closed, Configured, NoProblems, LedgerKey, Accepted, Applied, Enabled, Writes, Next, Judged, Settled,
        SettleWrites, Applies, Linked;
      ConfiguredFacts();
      ghost var a, reply, m1, d1 := r.attempt, ReplyTo(r, u), Mem(), disk;
      canceled := SettleResult(r, u);
      ResultCalls(c, m0, d0, a, reply, canceled);
      ghost var first: seq<Write> := if reply.Completed? then [] else [Write.FinishAttempt(a, false)];
      SettledIsJudged(c, m0, m1, Mem(), a, reply, canceled, d0, ApplyAll(d1, first), disk);
      SettledCalls(c.g, m1, Mem(), a, reply, canceled, ApplyAll(d1, first), disk);
      ConfiguredStays();
    }

    /** A retry is decided only within the node's budget. */
    lemma RetryHasBudget(r: Result, u: real)
      requires Configured()
      ensures ReplyTo(r, u).Retry? ==> r.attempt.number < c.policy(r.attempt.node).tries
    {
      hide Backoff;
      var policy := ForClass(retries, klass(r.attempt.node));
      assert c.policy(r.attempt.node).tries == policy.maxAttempts;
    }

    /** What follows a granted claim. */
    method SettleResult(r: Result, u: real) returns (ghost canceled: seq<NodeId>)
      requires Configured() && Linked() && state.Valid() && 0.0 <= u < 1.0
      requires r.attempt.node in state.nodeStates && state.nodeStates[r.attempt.node].Running? && OpenRow(disk, r.attempt.node)
      modifies `retryDue, `disk, `journal, state, store
      ensures Linked() && state.Valid()
      ensures var a, reply := r.attempt, ReplyTo(r, u);
        var first: seq<Write> := if reply.Completed? then [] else [Write.FinishAttempt(a, false)];
        && Settled(c.g, old(Mem()), Mem(), a, reply, canceled, ApplyAll(old(disk), first), disk)
        && journal == old(journal) + first + SettleWrites(a, reply) + CancelWrites(canceled)
    {
      hide SchedulerState.Valid, Dag.Valid, Dag.G, RunStores.Represents, Break, ApplyAll, CancelWrites, Move, Backoff,
        Succeed, Closed, Configured, LedgerKey, Accepted, Applied;
      ConfiguredFacts();
      ghost var d0 := disk;
      canceled := [];
      if r.completed {
        var _ := SucceedNode(r.attempt);
        NothingCanceled(SettleWrites(r.attempt, Completed));
        ApplyNothing(d0);
        return;
      }
      var _ := FinishAttempt(r.attempt, false);
      ApplySingle(d0, Write.FinishAttempt(r.attempt, false));
      FinishKeepsRows(d0, r.attempt);
      var handled, cancels := HandleRetryableFailure(r, u);
      if !handled {
        ghost var m, d := Mem(), disk;
        handled, cancels := BreakNode(r.attempt, Failed, NodeFailed(r.attempt.node));
        BreakSettled(c.g, m, Mem(), r.attempt, Reject, cancels, d, disk);
      }
      canceled := cancels;
    }

    /** Applies one result and gives the node's slots back if it was applied. */
    method ConsumeResult(r: Result, u: real) returns (applied: bool, ghost ops: seq<Op>)
      requires Valid() && Alive(Here()) && 0.0 <= u < 1.0
      requires Identified(r) ==> r.attempt in disk.tasks
      modifies this, state, store
      ensures DidAll(ops) && Alive(Here())
      ensures applied == (old(Identified(r)) && Applies(c, old(Mem()), old(disk), r.attempt))
      ensures AreDeliveries(ops, ReportOf(r, u, old(state.nodeStates.Keys)))
    {
      hide SchedulerState.Valid, Dag.Valid, Dag.G, RunStores.Represents, Good, Closed, Configured, NoProblems, Applied,
        ApplyAll, Enabled, Writes, Judged, ReplyTo, Release, SlotCalls;
      ConfiguredFacts();
      ghost var w0 := Here();
      ghost var canceled: seq<NodeId>;
      applied, canceled := ApplyResult(r, u);
      if applied { ReleaseSlots(r.attempt.node); }
      ConfiguredStays();
      ops := [];
      if old(Identified(r)) {
        ghost var op := Deliver(r.attempt, ReplyTo(r, u), canceled);
        ops := [op];
        DeliverSlots(c, w0.mem, w0.disk, r.attempt, ReplyTo(r, u), canceled);
        GoodStays(c, w0.mem, w0.disk, op);
        LogOne(c, old(Now()), op, Now());
        EndingFinishes(c, w0.mem, w0.disk, op);
      } else {
        LogNothing(c, Now());
      }
    }

    ghost function Here(): World
      reads this, state
    {
      World(Mem(), disk)
    }

    ghost function Now(): Log
      reads this, state
    {
      Log(Here(), journal, slotCalls)
    }

    /** ops were performed, in this order, and nothing else. */
    twostate predicate DidAll(ops: seq<Op>)
      reads this, state, store
    {
      && Valid()
      && Chronicle(c, old(Now()), ops, Now())
    }

    lemma ValidParts()
      requires Valid()
      ensures state.Valid() && Linked() && Configured() && Good(c, Here())
    {
    }

    lemma ValidFromParts()
      requires state.Valid() && Linked() && Configured() && Good(c, Here())
      ensures Valid()
    {
    }

    /** Dispatches id if it is ready and a slot is free. */
    method TryDispatch(id: NodeId, expires: int, granted: bool, accepted: bool) returns (ghost ops: seq<Op>)
      requires Valid() && Alive(Here())
      modifies this, state, store
      ensures DidAll(ops) && Alive(Here())
      ensures ops != [] <==> (id in old(state.nodeStates) && old(state.nodeStates)[id].Ready? && HasSlot(c, old(Mem()), id) &&
                              (c.gated ==> granted))
      ensures ops == [] || (|ops| == 1 && ops[0].Dispatch? && ops[0].node == id && ops[0].published == accepted)
      ensures cancelRequested == old(cancelRequested)
    {
      hide Valid, Good, SchedulerState.Valid, Dag.Valid, Dag.G, RunStores.Represents, Enabled, Next, Writes, ApplyAll,
        Configured, Follows, Chronicle;
      ghost var w0 := Here();
      ops := [];
      LogNothing(c, Now());
      if id !in state.nodeStates || state.nodeStates[id] != Ready { return; }
      var key := c.policy(id).key;
      if key != "" && (if key in usage then usage[key] else 0) >= c.policy(id).capacity { return; }
      if c.gated && !granted { return; }
      ghost var op := DispatchNode(id, expires, accepted);
      ops := [op];
      LogOne(c, old(Now()), op, Now());
      EndingFinishes(c, w0.mem, w0.disk, op);
    }

    /** Dispatches every ready node with a free slot; grants is the quota gate's
      answer, accepts the transport's. A cancellation requested by then stops it. */
    method DispatchReady(expires: int, grants: Grants, accepts: NodeId -> bool) returns (ghost ops: seq<Op>)
      requires Valid() && Alive(Here())
      modifies this, state, store
      ensures DidAll(ops) && Alive(Here()) && cancelRequested == old(cancelRequested)
      ensures forall op :: op in ops ==> op.Dispatch?
      ensures cancelRequested ==> ops == []
      ensures !cancelRequested ==> Saturated(c, Mem(), grants)
    {
      hide Valid, Good, SchedulerState.Valid, Dag.Valid, Dag.G, RunStores.Represents, Follows, Chronicle, Refused, Alive;
      ops := [];
      LogNothing(c, Now());
      if cancelRequested { return; }
      ValidParts();
      var ids := state.ReadyNodes();
      ops := DispatchEach(ids, expires, grants, accepts);
    }

    method DispatchEach(ids: seq<NodeId>, expires: int, grants: Grants, accepts: NodeId -> bool) returns (ghost ops: seq<Op>)
      requires Valid() && Alive(Here())
      requires forall v :: v in state.nodeStates && state.nodeStates[v].Ready? ==> v in ids
      modifies this, state, store
      ensures DidAll(ops) && Alive(Here()) && cancelRequested == old(cancelRequested)
      ensures forall op :: op in ops ==> op.Dispatch?
      ensures Saturated(c, Mem(), grants)
    {
      hide Valid, Good, SchedulerState.Valid, Dag.Valid, Dag.G, RunStores.Represents, Follows, Chronicle, Refused, Alive,
        LeftReady;
      ghost var l0 := Now();
      ops := [];
      LogNothing(c, l0);
      AllLeft(c, Mem(), ids, grants);
      for i := 0 to |ids|
        invariant Valid() && Alive(Here()) && cancelRequested == old(cancelRequested)
        invariant Chronicle(c, l0, ops, Now())
        invariant forall op :: op in ops ==> op.Dispatch?
        invariant LeftReady(c, Mem(), ids[i..], grants)
      {
        ghost var l := Now();
        ValidParts();
        ConfiguredFacts();
        ghost var more := TryDispatch(ids[i], expires, grants(ids[i]), accepts(ids[i]));
        LogFollows(c, l, more, Now());
        TriedDispatch(l.world, more, ids[i..], Here(), grants);
        assert ids[i..][1..] == ids[i + 1..];
        LogThen(c, l0, ops, l, more, Now());
        ops := ops + more;
      }
      assert ids[|ids|..] == [];
      NoneLeft(c, Mem(), grants);
    }

    /** A tried node is dispatched or refused, and what was refused before stays
      refused. */
    lemma TriedDispatch(w: World, more: seq<Op>, ids: seq<NodeId>, w': World, grants: Grants)
      requires Closed(c.g) && Good(c, w) && Alive(w) && Follows(c, w, more, w') && ids != []
      requires more == [] || (|more| == 1 && more[0].Dispatch? && more[0].node == ids[0])
      requires more == [] ==> !(ids[0] in w.mem.model.nodes && w.mem.model.nodes[ids[0]].Ready? && HasSlot(c, w.mem, ids[0]) &&
                                (c.gated ==> grants(ids[0])))
      requires LeftReady(c, w.mem, ids, grants)
      ensures LeftReady(c, w'.mem, ids[1..], grants)
    {
      hide Safe, Mirrors, Enabled, Next, Writes, ApplyAll, HasSlot;
      if more != [] {
        hide Follows;
        assert more == [more[0]];
        FollowsSingle(c, w, more[0], w');
        forall v | v in w'.mem.model.nodes && w'.mem.model.nodes[v].Ready? && v !in ids[1..] ensures Refused(c, w'.mem, v, grants) {
          DispatchShrinks(c, w.mem, w.disk, more[0], v);
        }
      }
    }

    /** A node in flight becomes ready, in memory and in its row, and its slots
      are given back. */
    method ReadyAgain(n: NodeId) returns (abandoned: bool)
      requires Linked() && state.Valid()
      modifies `usage, `quotaHeld, `slotCalls, `disk, `journal, state, store
      ensures Linked() && state.Valid()
      ensures abandoned == (n in old(state.nodeStates) && old(state.nodeStates)[n].InFlight())
      ensures Mem() == if abandoned then Release(c, old(Mem()).(model := Move(old(Mem()).model, n, Ready)), n) else old(Mem())
      ensures disk == if abandoned then Applied(old(disk), Write.SetStatus(n, Ready)) else old(disk)
      ensures journal == old(journal) + if abandoned then [Write.SetStatus(n, Ready)] else []
      ensures slotCalls == old(slotCalls) + if abandoned && n in old(quotaHeld) then [Give(n)] else []
    {
      hide SchedulerState.Valid, Dag.Valid, Dag.G, RunStores.Represents, Applied, Release, Accepted;
      abandoned := state.AbandonNode(n);
      if abandoned {
        var _ := SetStatus(n, Ready);
        ReleaseSlots(n);
      }
    }

    /** Reaps one expired lease: the node, if it is still in flight, becomes
      ready again and its slots are given back. */
    method ReapLease(a: Attempt, worker: string) returns (ghost op: Op)
      requires Valid() && Alive(Here()) && HeldBy(disk, a, worker)
      modifies this, state, store
      ensures Did(op) && op == Reap(a, worker)
      ensures cancelRequested == old(cancelRequested)
    {
      hide Good, SchedulerState.Valid, Dag.Valid, Dag.G, RunStores.Represents, Closed, ApplyAll, Configured, Applied, Move,
        Release, SlotCalls, Enabled, Next, Writes, Holds, Accepted;
      ConfiguredFacts();
      ghost var m0, d0 := Mem(), disk;
      op := Reap(a, worker);
      ExpireAccepted(d0, a, worker);
      var reaped := ExpireLease(a, worker);
      if !reaped { assert false; }
      var _ := ReadyAgain(a.node);
      Emit(NodeLeaseExpired(a.node));
      ReapIs(c, m0, d0, a, worker);
      GoodStays(c, m0, d0, op);
      ConfiguredStays();
    }

    /** Reaps the leases that are past their expiry, each once. */
    method ScanExpiredLeases(now: int) returns (ghost ops: seq<Op>)
      requires Valid() && Alive(Here())
      modifies this, state, store
      ensures DidAll(ops) && Alive(Here()) && cancelRequested == old(cancelRequested)
      ensures forall op :: op in ops ==> op.Reap? && Expired(old(disk), op.attempt, now)
      ensures forall a :: !Expired(disk, a, now)
    {
      hide Good, SchedulerState.Valid, Dag.Valid, Dag.G, Closed, Configured, RunStores.Represents, Expired, HeldBy;
      var keys := store.ScanExpiredAttemptLeases(c.run, now);
      var workers := map k | k in keys :: store.leases[k].worker;
      ScannedOpen(store.Value(), c.run, disk, keys, now);
      ops := ReapAll(keys, workers, now);
    }

    method ReapAll(keys: seq<RunStores.LeaseKey>, workers: map<RunStores.LeaseKey, string>, ghost now: int)
      returns (ghost ops: seq<Op>)
      requires Valid() && Alive(Here())
      requires Distinct(keys) && forall k :: k in keys ==> k in workers && k.run == c.run
      requires forall k :: k in keys ==> HeldBy(disk, k.attempt, workers[k]) && Expired(disk, k.attempt, now)
      requires forall a :: Expired(disk, a, now) ==> RunStores.LeaseKey(c.run, a) in keys
      modifies this, state, store
      ensures DidAll(ops) && Alive(Here()) && cancelRequested == old(cancelRequested)
      ensures forall op :: op in ops ==> op.Reap? && Expired(old(disk), op.attempt, now)
      ensures forall a :: !Expired(disk, a, now)
    {
      hide Valid, Good, SchedulerState.Valid, Dag.Valid, Dag.G, Enabled, Closed, Next, Writes, ApplyAll, Configured, Follows,
        Chronicle, RunStores.Represents, Expired, HeldBy;
      ghost var l0 := Now();
      ops := [];
      LogNothing(c, l0);
      assert keys[0..] == keys;
      for i := 0 to |keys|
        invariant Valid() && Alive(Here())
        invariant Chronicle(c, l0, ops, Now())
        invariant cancelRequested == old(cancelRequested)
        invariant forall op :: op in ops ==> op.Reap? && Expired(old(disk), op.attempt, now)
        invariant forall a :: Expired(disk, a, now) ==> RunStores.LeaseKey(c.run, a) in keys[i..]
        invariant forall k :: i <= k < |keys| ==> HeldBy(disk, keys[k].attempt, workers[keys[k]])
      {
        ghost var w, l := Here(), Now();
        ValidParts();
        ConfiguredFacts();
        assert keys[i] in keys && keys[i..] == [keys[i]] + keys[i + 1..];
        ghost var op := ReapLease(keys[i].attempt, workers[keys[i]]);
        LogMore(c, l0, ops, l, op, Now());
        ops := ops + [op];
        EndingFinishes(c, w.mem, w.disk, op);
        OthersStayHeld(w, op, keys, workers, i, now);
      }
    }

    /** A reap closes its lease and no other. */
    lemma OthersStayHeld(w: World, op: Op, keys: seq<RunStores.LeaseKey>, workers: map<RunStores.LeaseKey, string>, i: nat, now: int)
      requires Closed(c.g) && Good(c, w) && Alive(w) && Enabled(c, w.mem, w.disk, op) && op.Reap?
      requires Distinct(keys) && i < |keys| && op.attempt == keys[i].attempt
      requires forall k :: k in keys ==> k in workers && k.run == keys[i].run
      requires forall k :: i <= k < |keys| ==> HeldBy(w.disk, keys[k].attempt, workers[keys[k]])
      ensures var d := ApplyAll(w.disk, Writes(c, w.mem, w.disk, op));
        && (forall b :: Expired(d, b, now) ==> Expired(w.disk, b, now) && b != op.attempt)
        && (forall k :: i < k < |keys| ==> HeldBy(d, keys[k].attempt, workers[keys[k]]))
    {
      hide Safe, Mirrors, Enabled, Next, Writes, ApplyAll;
      ReapClosesOne(c, w.mem, w.disk, op);
      forall k | i < k < |keys| ensures keys[k].attempt != keys[i].attempt {
        assert keys[k] in keys && keys[k] != keys[i];
      }
    }

    /** Makes one parked node whose backoff has passed ready again. */
    method WakeNode(n: NodeId) returns (ghost op: Op)
      requires Valid() && Alive(Here()) && n in retryDue
      modifies this, state, store
      ensures Did(op) && op == Wake(n)
      ensures cancelRequested == old(cancelRequested)
    {
      hide Good, SchedulerState.Valid, Dag.Valid, Dag.G, RunStores.Represents, Closed, ApplyAll, Configured, Applied, Move,
        SlotCalls, Enabled, Next, Writes;
      ConfiguredFacts();
      ghost var m0, d0 := Mem(), disk;
      op := Wake(n);
      WakeIs(c, m0, d0, n);
      retryDue := retryDue - {n};
      var ready := state.ReadyFromRetry(n);
      if ready {
        var _ := SetStatus(n, Ready);
      }
      ApplySingle(d0, Write.SetStatus(n, Ready));
      ApplyNothing(d0);
      GoodStays(c, m0, d0, op);
      ConfiguredStays();
    }

    /** Wakes every node that is due. Once a cancellation is requested, parked
      nodes are left to it. */
    method ProcessRetryWaits(now: int) returns (ghost ops: seq<Op>)
      requires Valid() && Alive(Here())
      modifies this, state, store
      ensures DidAll(ops) && Alive(Here()) && cancelRequested == old(cancelRequested)
      ensures cancelRequested ==> ops == []
      ensures forall op :: op in ops ==> op.Wake? && op.node in old(retryDue) && old(retryDue)[op.node] <= now
      ensures !cancelRequested ==> forall n :: n in retryDue ==> retryDue[n] > now
      ensures disk.leases == old(disk).leases
    {
      hide Valid, Good, SchedulerState.Valid, Dag.Valid, Dag.G, RunStores.Represents, Follows, Chronicle, Enabled, Writes, ApplyAll;
      ghost var l0 := Now();
      ops := [];
      LogNothing(c, l0);
      if cancelRequested { return; }
      var due := set n | n in retryDue && retryDue[n] <= now;
      while due != {}
        invariant Valid() && Alive(Here()) && !cancelRequested
        invariant Chronicle(c, l0, ops, Now())
        invariant forall op :: op in ops ==> op.Wake? && op.node in old(retryDue) && old(retryDue)[op.node] <= now
        invariant disk.leases == old(disk).leases
        invariant forall n :: n in due ==> n in retryDue
        invariant forall n :: n in retryDue ==> n in old(retryDue) && retryDue[n] == old(retryDue)[n]
        invariant forall n :: n in retryDue ==> n in due || retryDue[n] > now
        invariant forall n :: n in due ==> retryDue[n] <= now
        decreases |due|
      {
        var n :| n in due;
        due := due - {n};
        ghost var w, l := Here(), Now();
        ValidParts();
        ConfiguredFacts();
        ghost var op := WakeNode(n);
        WakeEffect(c, w.mem, w.disk, n);
        WakeKeepsLeases(c, w, op);
        LogMore(c, l0, ops, l, op, Now());
        ops := ops + [op];
      }
    }

    /** finalize_run: the run row, then the event. */
    method EndRun(r: RunState, outcome: Outcome)
      requires Linked()
      modifies store, `disk, `journal
      ensures var ws := [Write.FinishRun(r), PublishEvent(RunFinished(outcome))];
        Linked() && disk == ApplyAll(old(disk), ws) && journal == old(journal) + ws
    {
      hide Applied, RunStores.Represents, ApplyAll;
      FinishRun(r);
      Emit(RunFinished(outcome));
      ApplyTwo(old(disk), Write.FinishRun(r), PublishEvent(RunFinished(outcome)));
    }

    /** Cancels what is left, and finishes the run. */
    method CancelAndFinish(outcome: Outcome) returns (ghost op: Op)
      requires Valid() && Alive(Here())
      requires outcome.OutCanceled? || outcome.OutTimeout? || outcome.OutStopped?
      modifies this, state, store
      ensures Did(op) && op.Cancel? && op.outcome == outcome
      ensures cancelRequested == old(cancelRequested)
      ensures quotaHeld == {} && !Alive(Here())
    {
      hide Good, SchedulerState.Valid, Dag.Valid, Dag.G, RunStores.Represents, Closed, ApplyAll, Configured, Applied, CancelWrites,
        SlotCalls, GiveAll, Sorting.Ascending, Enabled, Next, Writes;
      ConfiguredFacts();
      ghost var m0, d0 := Mem(), disk;
      var canceled := state.CancelRun();
      PersistCanceled(canceled);
      ReleaseAllQuotaSlots();
      EndRun(RunCanceled, outcome);
      op := Cancel(outcome, canceled);
      CancelIs(c, m0, d0, op, old(journal));
      GoodStays(c, m0, d0, op);
      ConfiguredStays();
    }

    /** Ends a run whose nodes are all terminal. */
    method FinalizeDone() returns (ghost op: Op)
      requires Valid() && Alive(Here()) && AllTerminal(state.nodeStates)
      modifies this, state, store
      ensures Did(op) && op == Finalize && !Alive(Here())
      ensures cancelRequested == old(cancelRequested)
    {
      hide Good, SchedulerState.Valid, Dag.Valid, Dag.G, RunStores.Represents, Closed, ApplyAll, Configured, Applied, Verdict,
        AllTerminal, SlotCalls, Enabled, Next, Writes;
      ConfiguredFacts();
      ghost var m0, d0 := Mem(), disk;
      op := Finalize;
      FinalizeIs(c, m0, d0);
      state.FinalizeRun();
      var rs := state.runState;
      VerdictEnds(state.nodeStates);
      if rs == RunSucceeded {
        EndRun(RunSucceeded, OutSucceeded);
      } else if rs == RunCanceled {
        EndRun(RunCanceled, OutCanceled);
      } else {
        EndRun(RunFailed, OutFailed);
      }
      GoodStays(c, m0, d0, op);
      ConfiguredStays();
    }

    /** Every result of the batch is about a published attempt, as far as it is
      about this run at all. */
    ghost predicate FromWorkers(results: seq<(Result, real)>)
      reads this, state
    {
      forall p :: p in results ==> 0.0 <= p.1 < 1.0 && (Identified(p.0) ==> p.0.attempt in disk.tasks)
    }

    /** What the results report about the nodes of this run. */
    ghost function Reported(results: seq<(Result, real)>, known: set<NodeId>): seq<Delivery> {
      if results == [] then []
      else
        var (r, u) := results[|results| - 1];
        Reported(results[..|results| - 1], known) + ReportOf(r, u, known)
    }

    ghost function ReportOf(r: Result, u: real, known: set<NodeId>): seq<Delivery> {
      if NoProblems(r) && r.run == c.run && r.attempt.node in known then [Delivery(r.attempt, ReplyTo(r, u))] else []
    }

    /** Applies a batch of results in order. */
    method ConsumeBatch(results: seq<(Result, real)>) returns (ghost ops: seq<Op>)
      requires Valid() && Alive(Here()) && FromWorkers(results)
      modifies this, state, store
      ensures DidAll(ops) && Alive(Here())
      ensures AreDeliveries(ops, Reported(results, old(state.nodeStates.Keys)))
    {
      hide Valid, Good, SchedulerState.Valid, Dag.Valid, Dag.G, RunStores.Represents, Follows, Chronicle, Grows, AreDeliveries,
        NoProblems, ReplyTo;
      NoDeliveries();
      ghost var l0 := Now();
      ops := [];
      LogNothing(c, l0);
      for i := 0 to |results|
        invariant Valid() && Alive(Here()) && FromWorkers(results[i..])
        invariant Chronicle(c, l0, ops, Now())
        invariant state.nodeStates.Keys == old(state.nodeStates.Keys)
        invariant AreDeliveries(ops, Reported(results[..i], old(state.nodeStates.Keys)))
      {
        ghost var w, l := Here(), Now();
        assert results[..i + 1][..i] == results[..i];
        assert results[i..][0] == results[i] && forall p :: p in results[i + 1..] ==> p in results[i..];
        var applied;
        ghost var more;
        applied, more := ConsumeResult(results[i].0, results[i].1);
        LogFollows(c, l, more, Now());
        FollowsGrows(c, w, more, Here());
        TasksGrow(w.disk, disk);
        FollowsKeys(c, w, more, Here());
        LogThen(c, l0, ops, l, more, Now());
        MoreDeliveries(ops, Reported(results[..i], state.nodeStates.Keys), more,
                       ReportOf(results[i].0, results[i].1, state.nodeStates.Keys));
        ops := ops + more;
      }
      assert results[..|results|] == results;
    }

    /** A request that came in from another thread since the last look. */
    method Notice(r: Option<(string, int)>)
      requires Valid() && Alive(Here())
      modifies this, store
      ensures Valid() && Here() == old(Here()) && journal == old(journal) && slotCalls == old(slotCalls)
      ensures cancelRequested == (old(cancelRequested) || r.Some?)
    {
      hide Good, SchedulerState.Valid, Dag.Valid, Dag.G, RunStores.Represents, Configured, Closed;
      if r.Some? { RequestCancel(r.value.0, r.value.1); }
      ConfiguredStays();
    }

    /** Dispatch, reap, wake: the moves of one pass of the main loop. early and
      late are requests for cancellation that come in before the dispatches and
      before the wakes. */
    method MoveOn(now: int, expires: int, grants: Grants, accepts: NodeId -> bool,
                  early: Option<(string, int)>, late: Option<(string, int)>) returns (ghost ops: seq<Op>)
      requires Valid() && Alive(Here())
      modifies this, state, store
      ensures DidAll(ops) && Alive(Here())
      ensures cancelRequested == (old(cancelRequested) || early.Some? || late.Some?)
      ensures HoldsBack(ops, old(cancelRequested) || early.Some?, cancelRequested)
      ensures !old(cancelRequested) && early.None? ==> DispatchesFirst(c, old(Here()), ops, grants)
      ensures (forall a :: !Expired(disk, a, now)) && (!cancelRequested ==> forall n :: n in retryDue ==> retryDue[n] > now)
    {
      hide Valid, Good, SchedulerState.Valid, Dag.Valid, Dag.G, RunStores.Represents, Follows, Chronicle, Configured, Saturated;
      ghost var l0 := Now();
      Notice(early);
      ghost var dispatches := DispatchReady(expires, grants, accepts);
      ghost var l1 := Now();
      ghost var reaps := ScanExpiredLeases(now);
      LogThen(c, l0, dispatches, l1, reaps, Now());
      ghost var l2 := Now();
      Notice(late);
      ghost var wakes := ProcessRetryWaits(now);
      LogThen(c, l0, dispatches + reaps, l2, wakes, Now());
      LogFollows(c, l0, dispatches, l1);
      forall a ensures !Expired(disk, a, now) { assert !Expired(l2.world.disk, a, now); }
      ops := dispatches + reaps + wakes;
      assert ops[..|dispatches|] == dispatches;
      assert Follows(c, l0.world, ops[..|dispatches|], l1.world);
      MovesHoldBack(dispatches, reaps, wakes, old(cancelRequested) || early.Some?, cancelRequested);
    }

    /** One pass of the main loop up to the read of results. ended tells whether
      the run is over. A request that is there at the head ends it at once; one
      that comes in during the pass stops the dispatches or the wakes that are
      still to come, and ends the run at the next head. */
    method LoopHead(now: int, expires: int, timedOut: bool, grants: Grants, accepts: NodeId -> bool,
                    early: Option<(string, int)>, late: Option<(string, int)>)
      returns (ended: bool, ghost ops: seq<Op>)
      requires Valid() && Alive(Here())
      modifies this, state, store
      ensures DidAll(ops) && ended == !Alive(Here())
      ensures old(cancelRequested) ==> ended && forall op :: op in ops ==> op.Cancel?
      ensures !old(cancelRequested) ==> cancelRequested == (early.Some? || late.Some?)
      ensures HoldsBack(ops, early.Some?, early.Some? || late.Some?)
      ensures !old(cancelRequested) && early.None? ==> DispatchesFirst(c, old(Here()), ops, grants)
      ensures timedOut ==> ended
      ensures !ended ==> !AllTerminal(state.nodeStates) && forall a :: !Expired(disk, a, now)
      ensures !ended && !cancelRequested ==> forall n :: n in retryDue ==> retryDue[n] > now
    {
      hide Valid, Good, SchedulerState.Valid, Dag.Valid, Dag.G, RunStores.Represents, Follows, Chronicle, Enabled, Next, Writes,
        ApplyAll, AllTerminal, Configured, Expired, DispatchesFirst, HoldsBack, Alive;
      ghost var l0 := Now();
      if cancelRequested {
        ghost var op := CancelAndFinish(OutCanceled);
        LogOne(c, l0, op, Now());
        OneHeldBack(op, early.Some?, early.Some? || late.Some?);
        return true, [op];
      }
      ghost var moves := MoveOn(now, expires, grants, accepts, early, late);
      ghost var l := Now();
      ghost var last;
      ended, last := EndPass(timedOut);
      LogThen(c, l0, moves, l, last, Now());
      HeldBackThen(moves, last, early.Some?, early.Some? || late.Some?);
      if early.None? { StillDispatches(c, l0.world, moves, last, grants); }
      ops := moves + last;
    }

    /** Ends the run if all nodes are terminal or its time is up. */
    method EndPass(timedOut: bool) returns (ended: bool, ghost last: seq<Op>)
      requires Valid() && Alive(Here())
      modifies this, state, store
      ensures DidAll(last) && ended == !Alive(Here()) && cancelRequested == old(cancelRequested)
      ensures ended == (timedOut || AllTerminal(old(state.nodeStates)))
      ensures !ended ==> Here() == old(Here())
      ensures forall op :: op in last ==> op.Cancel? || op.Finalize?
    {
      hide Valid, Good, SchedulerState.Valid, Dag.Valid, Dag.G, RunStores.Represents, Follows, Chronicle, Enabled,
        Next, Writes, ApplyAll, AllTerminal, Configured, Alive;
      ghost var l := Now();
      last := [];
      LogNothing(c, l);
      ValidParts();
      var done := state.AllNodesTerminal();
      ended := done || timedOut;
      if ended {
        ghost var op;
        if done { op := FinalizeDone(); } else { op := CancelAndFinish(OutTimeout); }
        LogOne(c, l, op, Now());
        last := [op];
      }
    }

    // ----------------------------------------------------------------------
    // Start and resume
    // ----------------------------------------------------------------------

    /** The first request before the end counts: it is stamped on the run row if
      there is one, and the workers are told, once. Any other changes nothing. */
    method RequestCancel(reason: string, at: int)
      modifies `cancelRequested, `cancelStamped, `cancelReason, `cancelAt, `controlSent, `controls, store
      ensures var counts := !Finished(state.runState) && !old(cancelRequested);
        && cancelRequested == (old(cancelRequested) || counts)
        && store.Value() == (if counts then Stamped(old(store.Value()), c.run, reason, at) else old(store.Value()))
        && (counts ==> cancelReason == reason && cancelAt == at && cancelStamped == (c.run in old(store.runs)))
        && (!counts ==> cancelReason == old(cancelReason) && cancelAt == old(cancelAt) && cancelStamped == old(cancelStamped))
        && controls == old(controls) + (if counts && !old(controlSent) then [Control(c.run, reason, at)] else [])
        && controlSent == (old(controlSent) || counts)
      ensures old(Linked()) ==> Linked()
    {
      if state.runState.RunSucceeded? || state.runState.RunFailed? || state.runState.RunCanceled? { return; }
      if cancelRequested { return; }
      StampKeepsRows(store.Value(), c.run, disk, reason, at);
      hide RunStores.Represents;
      cancelRequested, cancelReason, cancelAt := true, reason, at;
      cancelStamped := store.MarkCancelRequested(c.run, reason, at);
      PublishCancelControl();
    }

    /** The control message to the workers. */
    method PublishCancelControl()
      modifies `controlSent, `controls
      ensures controlSent && controls == old(controls) + if old(controlSent) then [] else [Control(c.run, cancelReason, cancelAt)]
    {
      if controlSent { return; }
      controlSent := true;
      controls := controls + [Control(c.run, cancelReason, cancelAt)];
    }

    /** A fresh run: its rows first, then the roots become ready. Rows that are
      there already stay as they are, whatever they say; a cancellation requested
      before the run row was there is stamped now. If there were no rows but
      perhaps an open run row, the run starts as the protocol does. */
    method StartFresh()
      requires Configured() && state.Valid() && c.run != ""
      requires Mem() == Memory(InitialModel(c.g), map[], map[], map[], {}, {}) && journal == []
      modifies this, state, store
      ensures Unstarted(old(store.Value()), c.run) ==> Valid() && Runs.Fresh(c, Here())
      ensures Mem() == FreshMemory(c) && state.Valid() && journal == [] && slotCalls == old(slotCalls)
      ensures cancelRequested == old(cancelRequested)
      ensures var row := Promoted(old(store.Value()), c.run);
        var stamp := cancelRequested && !old(cancelStamped);
        RowsCreated(old(store.Value()), store.Value(), c.run, c.g.nodes,
                    if stamp then StampedRow(row, old(cancelReason), old(cancelAt)) else row)
    {
      hide SchedulerState.Valid, Dag.Valid, Dag.G, RunStores.Represents, Good, Closed, StartFrom, Configured, InitialModel, Valid,
        RowsCreated, Unstarted, Stamped, StampedRow;
      ConfiguredFacts();
      ghost var s0 := store.Value();
      var _ := store.CreateRun(c.run, RunState.RunRunning);
      CreateRows(s0);
      InitialIsQueued(c.g);
      state.StartRun();
      disk := FreshDisk(c, store.ledger, true);
      ConfiguredStays();
      if Unstarted(s0, c.run) {
        FreshStart(c, s0, store.Value());
        assert Runs.Fresh(c, Here());
        InitialIsGood(c, Here());
      }
      StampIsRow(s0, store.Value(), c.run, c.g.nodes, cancelReason, cancelAt);
      StampLate();
      ConfiguredStays();
      if Unstarted(s0, c.run) { ValidFromParts(); }
    }

    /** Stamps a request that came before the run row was there. */
    method StampLate()
      modifies `cancelStamped, store
      ensures store.Value() == if cancelRequested && !old(cancelStamped)
                               then Stamped(old(store.Value()), c.run, cancelReason, cancelAt) else old(store.Value())
      ensures old(Linked()) ==> Linked()
    {
      StampKeepsRows(store.Value(), c.run, disk, cancelReason, cancelAt);
      hide RunStores.Represents;
      if cancelRequested && !cancelStamped {
        cancelStamped := store.MarkCancelRequested(c.run, cancelReason, cancelAt);
      }
    }

    method CreateRows(ghost s0: RunStores.Store)
      requires Configured()
      requires store.Value() == s0.(runs := s0.runs[c.run := Promoted(s0, c.run)])
      modifies store
      ensures RowsCreated(s0, store.Value(), c.run, c.g.nodes, Promoted(s0, c.run))
    {
      hide Dag.Valid;
      var ids := state.dag.nodeOrder;
      assert Elements(ids) == c.g.nodes;
      hide Configured;
      for i := 0 to |ids|
        invariant RowsCreated(s0, store.Value(), c.run, Elements(ids[..i]), Promoted(s0, c.run))
      {
        assert ids[..i + 1] == ids[..i] + [ids[i]];
        assert Elements(ids[..i + 1]) == Elements(ids[..i]) + {ids[i]};
        var _ := store.CreateNodeRun(c.run, ids[i]);
      }
      assert ids[..|ids|] == ids;
    }

    /** An open run with at least one node row is resumed: memory is rebuilt from
      the rows there are, the slots of the rows in flight are taken again, and a
      stamped cancellation is requested again. */
    method ReconstructFromStore(ghost d: Disk) returns (resumed: bool)
      requires Configured() && state.Valid()
      requires Mem() == Memory(InitialModel(c.g), map[], map[], map[], {}, {}) && journal == []
      requires c.run in store.runs ==> RunStores.Represents(store.Value(), c.run, d)
      modifies this, state
      ensures resumed == (c.run in store.runs && !Finished(store.runs[c.run].status) && d.status != map[])
      ensures !resumed ==> Now() == old(Now()) && state.Valid() && cancelRequested == old(cancelRequested)
      ensures resumed ==> Here() == World(Recovered(c, d), d) && Linked() && journal == []
      ensures resumed ==> slotCalls == old(slotCalls) + RetakeAll(Sorting.Ascending(Recovered(c, d).held))
      ensures resumed ==> cancelRequested == (old(cancelRequested) || store.runs[c.run].cancelAt != 0)
      ensures resumed && Safe(c, d) ==> Valid()
    {
      hide SchedulerState.Valid, Dag.Valid, Dag.G, RunStores.Represents, Good, Closed, StartFrom, Configured, InitialModel,
        Safe, Mirrors, Recovered, Sorting.Ascending, RetakeAll, Lists, Valid, Finished;
      ConfiguredFacts();
      var ids, rows;
      resumed, ids, rows := LoadRows(d);
      if !resumed { return; }
      RestoreMemory(ids, rows, d);
      var row := store.runs[c.run];
      if row.cancelAt != 0 {
        cancelRequested, cancelStamped, cancelReason, cancelAt := true, true, row.cancelReason, row.cancelAt;
      }
      disk := d;
      ConfiguredStays();
      RunStatus(store.Value(), c.run, d);
      if Safe(c, d) {
        ResumedIsGood(c, d);
        ValidFromParts();
      }
    }

    /** The node rows, if the run is open and has any. */
    method LoadRows(ghost d: Disk) returns (found: bool, ids: seq<NodeId>, rows: seq<RunStores.NodeRun>)
      requires c.run in store.runs ==> RunStores.Represents(store.Value(), c.run, d)
      ensures found == (c.run in store.runs && !Finished(store.runs[c.run].status) && d.status != map[])
      ensures found ==> Lists(d, ids, rows)
    {
      hide RunStores.Represents;
      found, ids, rows := false, [], [];
      if c.run !in store.runs { return; }
      var status := store.runs[c.run].status;
      if status.RunSucceeded? || status.RunFailed? || status.RunCanceled? { return; }
      ids, rows := store.ListNodeRuns(c.run);
      ListedRows(store.Value(), c.run, d, ids, rows);
      found := ids != [];
      if found {
        assert ids[0] in d.status;
      } else {
        assert d.status == map[];
      }
    }

    method RestoreMemory(ids: seq<NodeId>, rows: seq<RunStores.NodeRun>, ghost d: Disk)
      requires Configured() && state.Valid() && RunStores.Represents(store.Value(), c.run, d)
      requires Mem() == Memory(InitialModel(c.g), map[], map[], map[], {}, {})
      requires Lists(d, ids, rows)
      modifies `currentAttempt, `retryDue, `usage, `quotaHeld, `slotCalls, state
      ensures Mem() == Recovered(c, d) && (Safe(c, d) ==> state.Valid())
      ensures slotCalls == old(slotCalls) + RetakeAll(Sorting.Ascending(Recovered(c, d).held))
    {
      hide SchedulerState.Valid, Dag.Valid, Dag.G, RunStores.Represents, Closed, StartFrom, Configured, InitialModel, Safe,
        Restored, Recovered, AttemptNumbers, Timers, SlotsUsed, InFlight, Filled, Sorting.Ascending, RetakeAll, Lists;
      RestoreState(ids, rows, d);
      RestoreBookkeeping(ids, rows, d);
      RecoveredParts(c, d);
    }

    method RestoreState(ids: seq<NodeId>, rows: seq<RunStores.NodeRun>, ghost d: Disk)
      requires Configured() && state.Valid() && state.Value() == InitialModel(c.g)
      requires Lists(d, ids, rows)
      modifies state
      ensures state.Value() == StartFrom(c.g, Filled(c.g, Restored(d.status))) && (Safe(c, d) ==> state.Valid())
    {
      hide SchedulerState.Valid, Dag.Valid, Dag.G, Closed, StartFrom, Configured, InitialModel, Safe, LastStatus, Restored,
        RestoredNodes, InOrder, Filled;
      ConfiguredFacts();
      var nodeRows := seq(|ids|, i requires 0 <= i < |ids| && |rows| == |ids| => NodeRow(ids[i], rows[i].status));
      InitialIsQueued(c.g);
      RowsRestore(c.g, d.status, ids, nodeRows);
      if Safe(c, d) {
        SafeKeys(c, d);
        FilledIsSame(c.g, Restored(d.status));
        SafeIsInOrder(c, d);
      }
      var _ := state.Reconstruct(nodeRows);
      assert state.completed == {} + StartFrom(c.g, RestoredNodes(c.g, nodeRows)).completed;
    }

    /** Attempt numbers, timers and slots, row by row. */
    method RestoreBookkeeping(ids: seq<NodeId>, rows: seq<RunStores.NodeRun>, ghost d: Disk)
      requires RunStores.Represents(store.Value(), c.run, d) && Lists(d, ids, rows)
      requires currentAttempt == map[] && retryDue == map[] && usage == map[] && quotaHeld == {}
      modifies `currentAttempt, `retryDue, `usage, `quotaHeld, `slotCalls
      ensures Rebuilt(d)
      ensures slotCalls == old(slotCalls) + RetakeAll(if c.gated then Sorting.Ascending(InFlight(d.status)) else [])
    {
      hide RunStores.Represents, Restricted, AttemptNumbers, Timers, SlotsUsed, InFlight, FlightOf;
      NothingRecovered(c, d);
      NoneFlies(d.status);
      assert Elements(ids[..0]) == {} && ids[..0] == [];
      for i := 0 to |ids|
        invariant Rebuilt(Restricted(d, Elements(ids[..i])))
        invariant slotCalls == old(slotCalls) + RetakeAll(if c.gated then FlightOf(ids[..i], d.status) else [])
      {
        assert ids[..i + 1] == ids[..i] + [ids[i]];
        assert Elements(ids[..i + 1]) == Elements(ids[..i]) + {ids[i]};
        CountedAttempts(store.Value(), c.run, d, ids[i]);
        OneMoreFlies(ids, i, d.status);
        RestoreRow(ids[i], rows[i], d, Elements(ids[..i]));
      }
      assert ids[..|ids|] == ids;
      FlightIsAscending(ids, d.status);
      WholeIsRestricted(d, Elements(ids));
    }

    /** The bookkeeping is that of the rows of d. */
    ghost predicate Rebuilt(d: Disk)
      reads this
    {
      && currentAttempt == AttemptNumbers(d) && retryDue == Timers(d)
      && usage == SlotsUsed(c, d.status) && quotaHeld == if c.gated then InFlight(d.status) else {}
    }

    method RestoreRow(id: NodeId, row: RunStores.NodeRun, ghost d: Disk, ghost done: set<NodeId>)
      requires Rebuilt(Restricted(d, done)) && id in d.status && id !in done && row.status == d.status[id]
      requires row.until == if id in d.until then d.until[id] else 0
      requires |RunStores.Attempts(store.Value(), RunStores.NodeKey(c.run, id))| == AttemptCount(d, id)
      modifies `currentAttempt, `retryDue, `usage, `quotaHeld, `slotCalls
      ensures Rebuilt(Restricted(d, done + {id}))
      ensures slotCalls == old(slotCalls) + if c.gated && row.status.InFlight() then [Retake(id)] else []
    {
      hide Restricted, AttemptNumbers, Timers, SlotsUsed, InFlight, AttemptCount, RunStores.Attempts;
      RestrictedGrows(d, done, id);
      MoreAttempts(d, done, id);
      MoreTimers(d, done, id);
      MoreInFlight(Restricted(d, done).status, id, row.status);
      MoreSlots(c, Restricted(d, done).status, id, row.status);
      var count := store.AttemptRowCount(c.run, id);
      currentAttempt := currentAttempt[id := count];
      if row.status.RetryWait? && row.until > 0 { retryDue := retryDue[id := row.until]; }
      if row.status.InFlight() {
        var key := c.policy(id).key;
        if key != "" { usage := usage[key := (if key in usage then usage[key] else 0) + 1]; }
        if c.gated { quotaHeld, slotCalls := quotaHeld + {id}, slotCalls + [Retake(id)]; }
      }
    }

    /** Workers report published attempts only. */
    ghost predicate PublishedOnly(messages: seq<Transports.Message>, decode: string -> Option<Result>)
      reads this, state
    {
      forall m :: m in messages && decode(m.payload).Some? && Identified(decode(m.payload).value) ==>
                    decode(m.payload).value.attempt in disk.tasks
    }

    /** What the messages with these ids report. */
    ghost function MessagesReport(messages: seq<Transports.Message>, ids: seq<nat>, decode: string -> Option<Result>,
                                  draw: nat -> real, known: set<NodeId>): seq<Delivery> {
      if ids == [] then []
      else
        MessagesReport(messages, ids[..|ids| - 1], decode, draw, known)
        + MessageReport(messages, ids[|ids| - 1], decode, draw(|ids| - 1), known)
    }

    ghost function MessageReport(messages: seq<Transports.Message>, id: nat, decode: string -> Option<Result>, u: real,
                                 known: set<NodeId>): seq<Delivery> {
      var i := Transports.IndexOf(messages, id);
      if i < |messages| && decode(messages[i].payload).Some? then ReportOf(decode(messages[i].payload).value, u, known) else []
    }

    lemma MessagesReported(messages: seq<Transports.Message>, ids: seq<nat>, k: nat, decode: string -> Option<Result>,
                           draw: nat -> real, known: set<NodeId>)
      ensures k == 0 ==> MessagesReport(messages, ids[..0], decode, draw, known) == []
      ensures k < |ids| ==>
                MessagesReport(messages, ids[..k + 1], decode, draw, known) ==
                MessagesReport(messages, ids[..k], decode, draw, known) + MessageReport(messages, ids[k], decode, draw(k), known)
      ensures k == |ids| ==>
                MessagesReport(messages, ids, decode, draw, known) == MessagesReport(messages, ids[..k], decode, draw, known) + []
    {
      hide MessageReport;
      if k < |ids| { assert ids[..k + 1][..k] == ids[..k]; }
      if k == |ids| { assert ids[..k] == ids; }
    }

    /** Applies the result a message carries; a malformed one is skipped. */
    method ConsumeMessage(m: Transports.Message, messages: seq<Transports.Message>, decode: string -> Option<Result>, u: real)
      returns (ghost ops: seq<Op>)
      requires Valid() && Alive(Here()) && 0.0 <= u < 1.0 && m in messages && PublishedOnly(messages, decode)
      modifies this, state, store
      ensures DidAll(ops) && Alive(Here()) && PublishedOnly(messages, decode)
      ensures state.nodeStates.Keys == old(state.nodeStates.Keys)
      ensures AreDeliveries(ops, if decode(m.payload).Some? then ReportOf(decode(m.payload).value, u, state.nodeStates.Keys) else [])
    {
      hide Valid, Good, SchedulerState.Valid, Dag.Valid, Dag.G, RunStores.Represents, Follows, Chronicle, Grows, NoProblems,
        ReportOf;
      NoDeliveries();
      ghost var w := Here();
      ops := [];
      LogNothing(c, Now());
      var r := decode(m.payload);
      if r.Some? {
        var applied;
        applied, ops := ConsumeResult(r.value, u);
        LogFollows(c, old(Now()), ops, Now());
        FollowsGrows(c, w, ops, Here());
        TasksGrow(w.disk, disk);
        FollowsKeys(c, w, ops, Here());
      }
    }

    /** Offers the oldest pending result and acknowledges it, applied or not. */
    method DrainOne(t: Transports.InMemoryTransport, key: string, g: Transports.Group, decode: string -> Option<Result>, u: real)
      returns (more: bool, ghost ops: seq<Op>)
      requires Valid() && Alive(Here()) && t.Valid() && 0.0 <= u < 1.0 && PublishedOnly(t.Of(key).messages, decode)
      modifies this, state, store, t
      ensures DidAll(ops) && Alive(Here()) && t.Valid() && PublishedOnly(t.Of(key).messages, decode)
      ensures var pending := old(Transports.Pending(t.Of(key), g));
        && more == (pending != [])
        && Transports.Pending(t.Of(key), g) == (if more then pending[1..] else [])
        && t.Of(key).messages == old(t.Of(key).messages)
        && Transports.Cursor(t.Of(key), g) == old(Transports.Cursor(t.Of(key), g))
        && AreDeliveries(ops, if more then MessageReport(t.Of(key).messages, pending[0], decode, u, state.nodeStates.Keys) else [])
      ensures state.nodeStates.Keys == old(state.nodeStates.Keys)
    {
      hide Valid, Good, SchedulerState.Valid, Dag.Valid, Dag.G, RunStores.Represents, Follows, Chronicle, PublishedOnly,
        Transports.InMemoryTransport.Valid, ReportOf;
      NoDeliveries();
      ops := [];
      LogNothing(c, Now());
      var m := t.ReadPending(key, g);
      if m.None? { return false, []; }
      ops := ConsumeMessage(m.value, t.Of(key).messages, decode, u);
      Transports.AckFirst(t.Of(key), g);
      t.Ack(key, g, m.value.id);
      more := true;
    }

    /** Recovery after a resume: every result that the previous process read and
      did not acknowledge is offered once, in order. */
    method DrainPendingResults(t: Transports.InMemoryTransport, key: string, g: Transports.Group,
                               decode: string -> Option<Result>, draw: nat -> real)
      returns (offered: nat, ghost ops: seq<Op>)
      requires Valid() && Alive(Here()) && t.Valid() && forall i: nat :: 0.0 <= draw(i) < 1.0
      requires PublishedOnly(t.Of(key).messages, decode)
      modifies this, state, store, t
      ensures DidAll(ops) && Alive(Here()) && t.Valid()
      ensures offered == |old(Transports.Pending(t.Of(key), g))| && Transports.Pending(t.Of(key), g) == []
      ensures AreDeliveries(ops, MessagesReport(old(t.Of(key)).messages, old(Transports.Pending(t.Of(key), g)), decode, draw,
                                                old(state.nodeStates.Keys)))
      ensures t.Of(key).messages == old(t.Of(key).messages)
      ensures Transports.Cursor(t.Of(key), g) == old(Transports.Cursor(t.Of(key), g))
    {
      hide Valid, Good, SchedulerState.Valid, Dag.Valid, Dag.G, RunStores.Represents, Follows, Chronicle, PublishedOnly,
        Transports.InMemoryTransport.Valid, Transports.Pending, Transports.Cursor, MessageReport,
        MessagesReport, AreDeliveries;
      NoDeliveries();
      ghost var l0, messages, ids := Now(), t.Of(key).messages, Transports.Pending(t.Of(key), g);
      ghost var known := state.nodeStates.Keys;
      offered, ops := 0, [];
      LogNothing(c, Now());
      MessagesReported(messages, ids, 0, decode, draw, known);
      while true
        invariant Valid() && Alive(Here()) && t.Valid() && PublishedOnly(t.Of(key).messages, decode)
        invariant Chronicle(c, l0, ops, Now())
        invariant offered <= |ids| && state.nodeStates.Keys == known
        invariant AreDeliveries(ops, MessagesReport(messages, ids[..offered], decode, draw, known))
        invariant Transports.Pending(t.Of(key), g) == old(Transports.Pending(t.Of(key), g))[offered..]
        invariant t.Of(key).messages == old(t.Of(key).messages)
        invariant Transports.Cursor(t.Of(key), g) == old(Transports.Cursor(t.Of(key), g))
        decreases |Transports.Pending(t.Of(key), g)|
      {
        ghost var l := Now();
        var more;
        ghost var consumed;
        more, consumed := DrainOne(t, key, g, decode, draw(offered));
        LogThen(c, l0, ops, l, consumed, Now());
        ghost var before := ops;
        ops := ops + consumed;
        MessagesReported(messages, ids, offered, decode, draw, known);
        MoreDeliveries(before, MessagesReport(messages, ids[..offered], decode, draw, known), consumed,
                       if more then MessageReport(messages, ids[offered], decode, draw(offered), known) else []);
        if !more { return; }
        offered := offered + 1;
      }
    }
  }

  lemma CountedAttempts(s: RunStores.Store, run: string, d: Disk, n: NodeId)
    requires RunStores.Represents(s, run, d)
    ensures |RunStores.Attempts(s, RunStores.NodeKey(run, n))| == AttemptCount(d, n)
  {
    assert RunStores.RowOf(s, run, d, n);
  }

  /** ids and rows are the node rows of d in id order. */
  ghost predicate Lists(d: Disk, ids: seq<NodeId>, rows: seq<RunStores.NodeRun>) {
    && Sorting.StrictlySorted(Less, ids) && Distinct(ids) && |rows| == |ids| && (forall n :: n in ids <==> n in d.status)
    && (forall i :: 0 <= i < |ids| ==> ids[i] in d.status && rows[i].status == d.status[ids[i]])
    && forall i :: 0 <= i < |ids| ==> rows[i].until == if ids[i] in d.until then d.until[ids[i]] else 0
  }

  lemma ListedRows(s: RunStores.Store, run: string, d: Disk, ids: seq<NodeId>, rows: seq<RunStores.NodeRun>)
    requires RunStores.Represents(s, run, d) && |ids| == |rows| && Sorting.StrictlySorted(Less, ids)
    requires forall n :: n in ids <==> RunStores.NodeKey(run, n) in s.nodeRuns
    requires forall i :: 0 <= i < |ids| ==> rows[i] == s.nodeRuns[RunStores.NodeKey(run, ids[i])]
    ensures Lists(d, ids, rows)
  {
    IdsDistinct(ids);
    forall n ensures n in ids <==> n in d.status { assert RunStores.RowOf(s, run, d, n); }
    forall i | 0 <= i < |ids|
      ensures ids[i] in d.status && rows[i].status == d.status[ids[i]]
      ensures rows[i].until == if ids[i] in d.until then d.until[ids[i]] else 0
    {
      assert ids[i] in ids && RunStores.RowOf(s, run, d, ids[i]);
    }
  }

  lemma {:induction false} LastOf(rows: seq<NodeRow>, i: nat, id: NodeId)
    requires i < |rows| && rows[i].nodeId == id && forall j :: i < j < |rows| ==> rows[j].nodeId != id
    ensures LastStatus(rows, id) == Restore(rows[i].status)
    decreases |rows|
  {
    if i < |rows| - 1 { LastOf(rows[..|rows| - 1], i, id); }
  }

  lemma {:induction false} NoRowOf(rows: seq<NodeRow>, id: NodeId)
    requires forall i :: 0 <= i < |rows| ==> rows[i].nodeId != id
    ensures LastStatus(rows, id) == Blocked
    decreases |rows|
  {
    if rows != [] { NoRowOf(rows[..|rows| - 1], id); }
  }

  lemma RowsRestore(g: Graph, nodes: Nodes, ids: seq<NodeId>, rows: seq<NodeRow>)
    requires |rows| == |ids| && Distinct(ids) && forall n :: n in ids <==> n in nodes
    requires forall i :: 0 <= i < |ids| ==> ids[i] in nodes && rows[i] == NodeRow(ids[i], nodes[ids[i]])
    ensures RestoredNodes(g, rows) == Filled(g, Restored(nodes))
  {
    hide LastStatus;
    forall v | v in g.nodes ensures LastStatus(rows, v) == Filled(g, Restored(nodes))[v] {
      if v in nodes {
        assert v in ids;
        var i :| 0 <= i < |ids| && ids[i] == v;
        LastOf(rows, i, v);
      } else {
        NoRowOf(rows, v);
      }
    }
  }

  /** The nodes of q that are in flight. */
  ghost function FlightOf(q: seq<NodeId>, nodes: Nodes): seq<NodeId> {
    if q == [] then []
    else
      var n := q[|q| - 1];
      FlightOf(q[..|q| - 1], nodes) + if n in nodes && nodes[n].InFlight() then [n] else []
  }

  lemma NoneFlies(nodes: Nodes)
    ensures FlightOf([], nodes) == [] && RetakeAll([]) == []
  {
  }

  lemma OneMoreFlies(q: seq<NodeId>, i: nat, nodes: Nodes)
    requires i < |q| && q[i] in nodes
    ensures RetakeAll(FlightOf(q[..i + 1], nodes)) ==
            RetakeAll(FlightOf(q[..i], nodes)) + if nodes[q[i]].InFlight() then [Retake(q[i])] else []
  {
    assert q[..i + 1][..i] == q[..i];
  }

  lemma {:induction false} FlightListed(q: seq<NodeId>, nodes: Nodes)
    requires Sorting.StrictlySorted(Less, q)
    ensures Sorting.StrictlySorted(Less, FlightOf(q, nodes))
    ensures forall n :: n in FlightOf(q, nodes) <==> n in q && n in nodes && nodes[n].InFlight()
    decreases |q|
  {
    if q != [] {
      var front, n := q[..|q| - 1], q[|q| - 1];
      assert q == front + [n];
      FlightListed(front, nodes);
      var f := FlightOf(front, nodes);
      forall i | 0 <= i < |f| ensures Less(f[i], n) { assert f[i] in f; }
    }
  }

  lemma FlightIsAscending(q: seq<NodeId>, nodes: Nodes)
    requires Sorting.StrictlySorted(Less, q) && forall n :: n in q <==> n in nodes
    ensures FlightOf(q, nodes) == Sorting.Ascending(InFlight(nodes))
  {
    FlightListed(q, nodes);
    IsAscending(FlightOf(q, nodes), InFlight(nodes));
  }

  lemma RecoveredParts(c: Config, d: Disk)
    ensures Recovered(c, d) == Memory(StartFrom(c.g, Filled(c.g, Restored(d.status))), AttemptNumbers(d), Timers(d),
                                      SlotsUsed(c, d.status), if c.gated then InFlight(d.status) else {}, {})
    ensures Sorting.Ascending({}) == []
  {
  }

  lemma RunStatus(s: RunStores.Store, run: string, d: Disk)
    requires RunStores.Represents(s, run, d)
    ensures run in s.runs && s.runs[run].status == d.run
  {
  }

  lemma ResumedIsGood(c: Config, d: Disk)
    requires Safe(c, d) && !Finished(d.run)
    ensures Good(c, World(Recovered(c, d), d))
  {
    hide Safe, Mirrors, Recovered;
    SafeKeys(c, d);
    RecoveredMirrors(c, d);
    RecoveredRuns(c, d);
    GoodFromParts(c, World(Recovered(c, d), d));
  }

  lemma InitialIsQueued(g: Graph)
    ensures InitialModel(g).run == RunQueued && InitialModel(g).completed == {}
  {
  }

  /** The store knows at most the run row, and it is open. */
  ghost predicate Unstarted(s: RunStores.Store, run: string) {
    && (run in s.runs ==> !Finished(s.runs[run].status))
    && (forall k :: k in s.nodeRuns ==> k.run != run)
    && (forall k :: k in s.attempts ==> k.run != run)
    && (forall k :: k in s.leases ==> k.run != run)
    && (forall a :: LedgerKey(run, a) !in s.ledger)
  }

  /** The run row once the run has started: new, promoted if it was queued, and
    left alone if not. */
  function Promoted(s: RunStores.Store, run: string): RunStores.RunRow {
    if run !in s.runs then RunStores.RunRow(RunState.RunRunning, 0, "")
    else if s.runs[run].status.RunQueued? then s.runs[run].(status := RunState.RunRunning)
    else s.runs[run]
  }

  function StampedRow(row: RunStores.RunRow, reason: string, at: int): RunStores.RunRow {
    if row.cancelAt == 0 then row.(cancelAt := at, cancelReason := reason) else row
  }

  /** The run row with the first request's stamp. */
  function Stamped(s: RunStores.Store, run: string, reason: string, at: int): RunStores.Store {
    if run in s.runs then s.(runs := s.runs[run := StampedRow(s.runs[run], reason, at)]) else s
  }

  lemma StampIsRow(s0: RunStores.Store, s: RunStores.Store, run: string, ns: set<NodeId>, reason: string, at: int)
    requires RowsCreated(s0, s, run, ns, Promoted(s0, run))
    ensures RowsCreated(s0, Stamped(s, run, reason, at), run, ns, StampedRow(Promoted(s0, run), reason, at))
  {
  }

  lemma StampKeepsRows(s: RunStores.Store, run: string, d: Disk, reason: string, at: int)
    ensures RunStores.Represents(s, run, d) ==> RunStores.Represents(Stamped(s, run, reason, at), run, d)
  {
    var s' := Stamped(s, run, reason, at);
    if RunStores.Represents(s, run, d) {
      forall n ensures RunStores.RowOf(s', run, d, n) { assert RunStores.RowOf(s, run, d, n); }
      forall a ensures RunStores.LeaseOf(s', run, d, a) { assert RunStores.LeaseOf(s, run, d, a); }
    }
  }

  /** s is s0 with the run's row and a blocked row for each of ns. */
  ghost predicate RowsCreated(s0: RunStores.Store, s: RunStores.Store, run: string, ns: set<NodeId>, row: RunStores.RunRow) {
    && s.runs == s0.runs[run := row]
    && s.attempts == s0.attempts && s.leases == s0.leases && s.ledger == s0.ledger
    && forall k {:trigger k in s.nodeRuns} ::
         && (k in s.nodeRuns <==> k in s0.nodeRuns || (k.run == run && k.node in ns))
         && (k in s.nodeRuns ==> s.nodeRuns[k] == if k in s0.nodeRuns then s0.nodeRuns[k] else RunStores.NodeRun(Blocked, 0))
  }

  lemma FreshRepresented(s0: RunStores.Store, s: RunStores.Store, run: string, d: Disk)
    requires Unstarted(s0, run) && RowsCreated(s0, s, run, d.status.Keys, Promoted(s0, run))
    requires d.run == RunState.RunRunning && d.until == map[] && d.attempts == map[] && d.leases == map[] && d.ledger == s.ledger
    requires forall v :: v in d.status ==> d.status[v] == Blocked
    ensures RunStores.Represents(s, run, d)
  {
    forall n ensures RunStores.RowOf(s, run, d, n) { assert RunStores.NodeKey(run, n).node == n; }
    forall a ensures RunStores.LeaseOf(s, run, d, a) { }
  }

  lemma FreshStart(c: Config, s0: RunStores.Store, s: RunStores.Store)
    requires Unstarted(s0, c.run) && RowsCreated(s0, s, c.run, c.g.nodes, Promoted(s0, c.run))
    ensures RunStores.Represents(s, c.run, FreshDisk(c, s.ledger, true)) && OwnsNoKey(c, s.ledger)
  {
    FreshRepresented(s0, s, c.run, FreshDisk(c, s.ledger, true));
    hide RunStores.Represents, LedgerKey;
  }

  /** After the first k creation calls the store holds what a process that died
    there leaves behind. */
  lemma PartlyCreated(s0: RunStores.Store, s: RunStores.Store, run: string, order: seq<NodeId>, k: nat)
    requires k <= |order| && Unstarted(s0, run) && RowsCreated(s0, s, run, Elements(order[..k]), Promoted(s0, run))
    ensures RunStores.Represents(s, run, StartUps.Created(order, k, s.ledger, false))
  {
    hide RunStores.Represents, Unstarted, RowsCreated;
    var d := StartUps.Created(order, k, s.ledger, false);
    assert d.status.Keys == Elements(order[..k]);
    FreshRepresented(s0, s, run, d);
  }

  lemma WakeEffect(c: Config, mem: Memory, d: Disk, n: NodeId)
    ensures var mem' := Next(c, mem, d, Wake(n)); mem'.due == mem.due - {n} && mem'.model.run == mem.model.run
  {
  }

  lemma VerdictEnds(nodes: Nodes)
    ensures Verdict(nodes).RunSucceeded? || Verdict(nodes).RunCanceled? || Verdict(nodes).RunFailed?
  {
  }

  lemma {:induction false} FollowsGrows(c: Config, w: World, ops: seq<Op>, w': World)
    requires Follows(c, w, ops, w')
    ensures Grows(w.disk, w'.disk)
    decreases |ops|
  {
    hide Grows, Enabled, Next, Writes, ApplyAll;
    if ops == [] {
      GrowsReflexive(w.disk);
    } else {
      var mid := Stepped(c, w, ops[0]);
      ApplyAllGrows(w.disk, Writes(c, w.mem, w.disk, ops[0]));
      FollowsGrows(c, mid, ops[1..], w');
      GrowsTransitive(w.disk, mid.disk, w'.disk);
    }
  }

  lemma TasksGrow(d: Disk, d': Disk)
    requires Grows(d, d')
    ensures forall a :: a in d.tasks ==> a in d'.tasks
  {
    forall a | a in d.tasks ensures a in d'.tasks {
      var i :| 0 <= i < |d.tasks| && d.tasks[i] == a;
      assert d'.tasks[i] == a;
    }
  }

  lemma {:induction false} FollowsKeys(c: Config, w: World, ops: seq<Op>, w': World)
    requires Follows(c, w, ops, w')
    ensures w'.mem.model.nodes.Keys == w.mem.model.nodes.Keys
    decreases |ops|
  {
    if ops != [] {
      NextKeys(c, w.mem, w.disk, ops[0]);
      hide Enabled, Next, Writes, ApplyAll;
      FollowsKeys(c, Stepped(c, w, ops[0]), ops[1..], w');
    }
  }

  lemma NextKeys(c: Config, mem: Memory, d: Disk, op: Op)
    requires Enabled(c, mem, d, op)
    ensures Next(c, mem, d, op).model.nodes.Keys == mem.model.nodes.Keys
  {
    NextModel(c, mem, d, op);
    hide Next, Started, Break, Succeed, CancelAll, Applies, ListsCanceled, HasSlot, Fated;
    match op {
      case Dispatch(n, _, _, _) =>
        StartedIsMove(mem.model, n);
        BreakStarted(c.g, mem.model, n, Failed);
        BreakKeepsNodes(c.g, mem.model, n, Failed);
      case Deliver(a, reply, _) => if Applies(c, mem, d, a) { JudgedKeys(c, mem, d, a, reply); }
      case Reap(_, _) =>
      case Wake(_) =>
      case Cancel(_, _) => CancelAllKeys(mem.model);
      case Finalize =>
    }
  }

  lemma JudgedKeys(c: Config, mem: Memory, d: Disk, a: Attempt, reply: Reply)
    requires Applies(c, mem, d, a)
    ensures Judged(c, mem, a, reply).model.nodes.Keys == mem.model.nodes.Keys
  {
    hide CancelTarget, PendingCount;
  }

  lemma CancelAllKeys(m: Model)
    ensures CancelAll(m).nodes.Keys == m.nodes.Keys
  {
  }

  lemma ReapCalls(c: Config, mem: Memory, d: Disk, a: Attempt, worker: string)
    requires LeaseOpen(d, a) && d.leases[a].worker == worker
    ensures var ws, first := Writes(c, mem, d, Reap(a, worker)), ExpireLease(a, worker);
      var last := PublishEvent(NodeLeaseExpired(a.node));
      && ws == (if Holds(mem, a.node) then [first, SetStatus(a.node, Ready), last] else [first, last])
      && ApplyAll(d, ws) == if Holds(mem, a.node) then Applied(Applied(Applied(d, first), SetStatus(a.node, Ready)), last)
                            else Applied(Applied(d, first), last)
  {
    hide Applied;
    ApplyTwo(d, ExpireLease(a, worker), PublishEvent(NodeLeaseExpired(a.node)));
    ApplyThree(d, ExpireLease(a, worker), SetStatus(a.node, Ready), PublishEvent(NodeLeaseExpired(a.node)));
  }

  lemma ScannedOpen(s: RunStores.Store, run: string, d: Disk, keys: seq<RunStores.LeaseKey>, now: int)
    requires RunStores.Represents(s, run, d)
    requires forall k :: k in keys <==> k in s.leases && k.run == run && s.leases[k].status.LeaseRunning? && 0 < s.leases[k].expires <= now
    ensures forall k :: k in keys ==> HeldBy(d, k.attempt, s.leases[k].worker) && Expired(d, k.attempt, now)
    ensures forall a :: Expired(d, a, now) ==> RunStores.LeaseKey(run, a) in keys
  {
    forall k | k in keys ensures HeldBy(d, k.attempt, s.leases[k].worker) && Expired(d, k.attempt, now) {
      assert RunStores.LeaseOf(s, run, d, k.attempt);
      assert k == RunStores.LeaseKey(run, k.attempt);
    }
    forall a | Expired(d, a, now) ensures RunStores.LeaseKey(run, a) in keys {
      assert RunStores.LeaseOf(s, run, d, a);
    }
  }

  /** The calls that settle a node after its claim, short of the cancellations. */
  function SettleWrites(a: Attempt, reply: Reply): seq<Write> {
    match reply
    case Completed => [Write.CompleteNode(a.node, Succeeded), Write.FinishAttempt(a, true), PublishEvent(NodeSucceeded(a.node))]
    case Retry(until) => [Write.SetRetryWait(a, until), PublishEvent(NodeRetryScheduled(a.node))]
    case GiveUp => [Write.CompleteNode(a.node, DeadLettered), PublishEvent(NodeDeadLettered(a.node))]
    case Reject => [Write.CompleteNode(a.node, Failed), PublishEvent(NodeFailed(a.node))]
  }

  ghost predicate Settled(g: Graph, mem: Memory, mem': Memory, a: Attempt, reply: Reply, canceled: seq<NodeId>, d: Disk, d': Disk)
  {
    var m := mem.model;
    && mem' == mem.(model := ModelAfter(g, m, a.node, reply), due := if reply.Retry? then mem.due[a.node := reply.until] else mem.due)
    && d' == ApplyAll(d, SettleWrites(a, reply) + CancelWrites(canceled))
    && (reply.Completed? || reply.Retry? ==> canceled == [])
    && (reply.GiveUp? || reply.Reject? ==> a.node in m.nodes && ListsCanceled(canceled, m.nodes, mem'.model.nodes))
  }

  lemma NothingCanceled(ws: seq<Write>)
    ensures CancelWrites([]) == [] && ws + CancelWrites([]) == ws
  {
  }

  lemma BreakSettled(g: Graph, mem: Memory, mem': Memory, a: Attempt, reply: Reply, canceled: seq<NodeId>, d: Disk, d': Disk)
    requires (reply.GiveUp? || reply.Reject?) && a.node in mem.model.nodes
    requires mem' == mem.(model := Break(g, mem.model, a.node, StateAfter(reply)))
    requires d' == ApplyAll(d, SettleWrites(a, reply) + CancelWrites(canceled)) && Distinct(canceled)
    requires forall v :: v in canceled <==> v in mem'.model.nodes && v != a.node && mem'.model.nodes[v] != mem.model.nodes[v]
    ensures Settled(g, mem, mem', a, reply, canceled, d, d')
  {
    BreakChanged(g, mem.model, a.node, StateAfter(reply), canceled);
    hide Break, ListsCanceled;
  }

  lemma ApplyNothing(d: Disk)
    ensures ApplyAll(d, []) == d
  {
  }

  lemma FinishKeepsRows(d: Disk, a: Attempt)
    ensures Applied(d, Write.FinishAttempt(a, false)).status == d.status
  {
  }

  lemma IgnoredCalls(c: Config, mem: Memory, d: Disk, a: Attempt, reply: Reply)
    requires !Considered(mem, a) && a.node in mem.model.nodes
    ensures var op := Deliver(a, reply, []);
      && !Applies(c, mem, d, a) && Writes(c, mem, d, op) == [] && ApplyAll(d, []) == d
      && Next(c, mem, d, op) ==
         if mem.model.nodes[a.node].Running? && a !in mem.seen then mem.(seen := mem.seen + {a}) else mem
  {
    if a in mem.seen { assert mem.seen + {a} == mem.seen; }
  }

  lemma IgnoredEnabled(c: Config, mem: Memory, d: Disk, a: Attempt, reply: Reply)
    requires mem.model.run.RunRunning? && a in d.tasks && (reply.Retry? ==> a.number < c.policy(a.node).tries)
    ensures !Applies(c, mem, d, a) ==> Enabled(c, mem, d, Deliver(a, reply, []))
  {
  }

  lemma SettledCalls(g: Graph, mem: Memory, mem': Memory, a: Attempt, reply: Reply, canceled: seq<NodeId>, d: Disk, d': Disk)
    requires Settled(g, mem, mem', a, reply, canceled, d, d')
    ensures d' == ApplyAll(d, SettleWrites(a, reply) + CancelWrites(canceled))
  {
  }

  /** A settled result is judged as the protocol judges it. */
  lemma SettledIsJudged(c: Config, mem: Memory, seen: Memory, mem': Memory, a: Attempt, reply: Reply,
                        canceled: seq<NodeId>, d: Disk, e: Disk, d': Disk)
    requires mem.model.run.RunRunning? && a in d.tasks && c.fate(a.node) == None
    requires reply.Retry? ==> a.number < c.policy(a.node).tries
    requires seen == mem.(seen := mem.seen + {a})
    requires Settled(c.g, seen, mem', a, reply, canceled, e, d')
    ensures Enabled(c, mem, d, Deliver(a, reply, canceled)) && mem' == Judged(c, mem, a, reply)
  {
    hide Applies, Break, Succeed, Move, ListsCanceled, ApplyAll;
  }

  /** The ledger grants the claim exactly if the result is applied. */
  lemma ClaimAnswer(c: Config, mem: Memory, d: Disk, a: Attempt, reply: Reply)
    requires Considered(mem, a)
    ensures var claim, op := Claim(LedgerKey(c.run, a)), Deliver(a, reply, []);
      && Accepted(d, claim) == Applies(c, mem, d, a)
      && (!Applies(c, mem, d, a) ==>
            && Writes(c, mem, d, op) == [claim] && ApplyAll(d, [claim]) == Applied(d, claim)
            && Next(c, mem, d, op) == mem.(seen := mem.seen + {a}))
  {
    assert LedgerKey(c.run, a)[0] == 'r';
    hide LedgerKey;
    ApplySingle(d, Claim(LedgerKey(c.run, a)));
  }

  lemma ClaimedOpen(c: Config, mem: Memory, d: Disk, a: Attempt)
    requires Closed(c.g) && Good(c, World(mem, d)) && mem.model.run.RunRunning? && Considered(mem, a)
    ensures OpenRow(Applied(d, Claim(LedgerKey(c.run, a))), a.node)
  {
    hide Safe, Mirrors, LedgerKey;
    RunningRow(c, mem, d, a.node);
  }

  lemma ResultCalls(c: Config, mem: Memory, d: Disk, a: Attempt, reply: Reply, canceled: seq<NodeId>)
    requires Applies(c, mem, d, a)
    ensures var e := Applied(d, Claim(LedgerKey(c.run, a)));
      var first: seq<Write> := if reply.Completed? then [] else [Write.FinishAttempt(a, false)];
      var ws := Writes(c, mem, d, Deliver(a, reply, canceled));
      && ws == [Claim(LedgerKey(c.run, a))] + first + SettleWrites(a, reply) + CancelWrites(canceled)
      && ApplyAll(d, ws) == ApplyAll(ApplyAll(e, first), SettleWrites(a, reply) + CancelWrites(canceled))
  {
    hide LedgerKey, Applied, CancelWrites;
    var claim := Claim(LedgerKey(c.run, a));
    var first: seq<Write> := if reply.Completed? then [] else [Write.FinishAttempt(a, false)];
    var rest := SettleWrites(a, reply) + CancelWrites(canceled);
    ApplySingle(d, claim);
    ApplyAllConcat(d, [claim], first);
    ApplyAllConcat(d, [claim] + first, rest);
    assert [claim] + first + SettleWrites(a, reply) + CancelWrites(canceled) == [claim] + first + rest;
    assert ResultHead(c, a, reply) == [claim] + first + SettleWrites(a, reply);
  }

  lemma ApplyThree(d: Disk, w: Write, v: Write, x: Write)
    ensures ApplyAll(d, [w, v, x]) == Applied(Applied(Applied(d, w), v), x)
  {
    hide Applied;
    ApplyTwo(d, w, v);
    ApplyAllConcat(d, [w, v], [x]);
    ApplySingle(ApplyAll(d, [w, v]), x);
    assert [w, v, x] == [w, v] + [x];
  }

  ghost function StartedMemory(c: Config, mem: Memory, n: NodeId): Memory {
    Occupy(c, mem.(model := Started(mem.model, n), current := mem.current[n := Current(mem, n) + 1]), n)
  }

  lemma MovedNode(m: Model, n: NodeId, s: NodeState)
    requires n in m.nodes
    ensures var m' := Move(m, n, s); n in m'.nodes && m'.nodes[n] == s
  {
  }

  lemma StartedIsRunning(c: Config, mem: Memory, n: NodeId)
    requires n in mem.model.nodes
    ensures var m := StartedMemory(c, mem, n).model; m == Started(mem.model, n) && n in m.nodes && m.nodes[n] == Running
  {
  }

  lemma PublishedIs(c: Config, mem: Memory, d: Disk, n: NodeId, expires: int, j: seq<Write>)
    requires mem.model.run.RunRunning? && n in mem.model.nodes && mem.model.nodes[n].Ready? && HasSlot(c, mem, n)
    ensures var op, a := Dispatch(n, expires, true, []), Attempt(n, Current(mem, n) + 1);
      var rest := [PublishTask(a), PublishEvent(NodeDispatched(n))];
      && Enabled(c, mem, d, op) && Next(c, mem, d, op) == StartedMemory(c, mem, n)
      && ApplyAll(d, Writes(c, mem, d, op)) == ApplyAll(ApplyAll(d, Prelude(a, expires)), rest)
      && j + Prelude(a, expires) + rest == j + Writes(c, mem, d, op)
  {
    hide Applied, Prelude, Started;
    var a := Attempt(n, Current(mem, n) + 1);
    ApplyAllConcat(d, Prelude(a, expires), [PublishTask(a), PublishEvent(NodeDispatched(n))]);
  }

  lemma RejectedIs(c: Config, mem: Memory, d: Disk, n: NodeId, expires: int, canceled: seq<NodeId>, j: seq<Write>)
    requires mem.model.run.RunRunning? && n in mem.model.nodes && mem.model.nodes[n].Ready? && HasSlot(c, mem, n)
    requires c.fate(n) == None && Distinct(canceled)
    requires var m := Started(mem.model, n); var after := Break(c.g, m, n, Failed).nodes;
      forall v :: v in canceled <==> v in after && v != n && after[v] != m.nodes[v]
    ensures var op, a := Dispatch(n, expires, false, canceled), Attempt(n, Current(mem, n) + 1);
      var rest := [Write.CompleteNode(n, Failed)] + CancelWrites(canceled) + [PublishEvent(NodeFailed(n))];
      && Enabled(c, mem, d, op)
      && ApplyAll(d, Writes(c, mem, d, op)) == ApplyAll(ApplyAll(d, Prelude(a, expires)), rest)
      && j + Prelude(a, expires) + rest == j + Writes(c, mem, d, op)
      && Next(c, mem, d, op) ==
         Release(c, StartedMemory(c, mem, n), n).(model := Break(c.g, Started(mem.model, n), n, Failed))
  {
    RejectedEnabled(c, mem, d, n, expires, canceled);
    hide Applied, Prelude, Break, Started, Enabled;
    var a := Attempt(n, Current(mem, n) + 1);
    ApplyAllConcat(d, Prelude(a, expires),
                   [Write.CompleteNode(n, Failed)] + CancelWrites(canceled) + [PublishEvent(NodeFailed(n))]);
  }

  lemma GivenSoFar(q: seq<NodeId>, i: nat)
    requires Distinct(q) && i <= |q|
    ensures i == 0 ==> GiveAll(q[..i]) == [] && Elements(q[..i]) == {}
    ensures i < |q| ==> GiveAll(q[..i + 1]) == GiveAll(q[..i]) + [Give(q[i])]
    ensures i < |q| ==> Elements(q[..i + 1]) == Elements(q[..i]) + {q[i]} && q[i] !in Elements(q[..i]) && q[i] in q
  {
    if i < |q| { assert q[..i + 1] == q[..i] + [q[i]]; }
  }

  lemma DispatchSlots(c: Config, mem: Memory, d: Disk, op: Op, before: seq<SlotCall>, after: seq<SlotCall>)
    requires op.Dispatch?
    requires var n := op.node;
      var taken := before + if c.gated then [Take(n)] else [];
      after == if op.published then taken else taken + if c.gated || n in mem.held then [Give(n)] else []
    ensures after == before + SlotCalls(c, mem, d, op)
  {
  }

  lemma DeliverSlots(c: Config, mem: Memory, d: Disk, a: Attempt, reply: Reply, canceled: seq<NodeId>)
    ensures SlotCalls(c, mem, d, Deliver(a, reply, canceled)) ==
            if Applies(c, mem, d, a) && a.node in mem.held then [Give(a.node)] else []
    ensures Judged(c, mem, a, reply).held == mem.held
  {
    hide Applies, Break, Succeed, Move;
  }

  lemma ExpireAccepted(d: Disk, a: Attempt, worker: string)
    requires HeldBy(d, a, worker)
    ensures Accepted(d, ExpireLease(a, worker))
  {
  }

  lemma ReapIs(c: Config, mem: Memory, d: Disk, a: Attempt, worker: string)
    requires LeaseOpen(d, a) && d.leases[a].worker == worker && mem.model.run.RunRunning?
    ensures var op, first := Reap(a, worker), ExpireLease(a, worker);
      var last, m := PublishEvent(NodeLeaseExpired(a.node)), mem.model;
      var held := a.node in m.nodes && m.nodes[a.node].InFlight();
      && Enabled(c, mem, d, op)
      && Next(c, mem, d, op) == (if held then Release(c, mem.(model := Move(m, a.node, Ready)), a.node) else mem)
      && Writes(c, mem, d, op) == (if held then [first, SetStatus(a.node, Ready), last] else [first, last])
      && ApplyAll(d, Writes(c, mem, d, op)) == (if held then Applied(Applied(Applied(d, first), SetStatus(a.node, Ready)), last)
                                                else Applied(Applied(d, first), last))
      && SlotCalls(c, mem, d, op) == if held && a.node in mem.held then [Give(a.node)] else []
  {
    ReapCalls(c, mem, d, a, worker);
    hide Applied, Release, ApplyAll;
  }

  lemma CancelIs(c: Config, mem: Memory, d: Disk, op: Op, j: seq<Write>)
    requires op.Cancel?
    ensures SlotCalls(c, mem, d, op) == GiveAll(Sorting.Ascending(mem.held))
    ensures Next(c, mem, d, op) == mem.(model := CancelAll(mem.model), held := {})
    ensures var end := [Write.FinishRun(RunCanceled), PublishEvent(RunFinished(op.outcome))];
      && Writes(c, mem, d, op) == CancelWrites(op.canceled) + end
      && ApplyAll(d, Writes(c, mem, d, op)) == ApplyAll(ApplyAll(d, CancelWrites(op.canceled)), end)
      && j + CancelWrites(op.canceled) + end == j + Writes(c, mem, d, op)
    ensures var ends := op.outcome.OutCanceled? || op.outcome.OutTimeout? || op.outcome.OutStopped?;
      var listed := ListsCanceled(op.canceled, mem.model.nodes, CancelAll(mem.model).nodes);
      mem.model.run.RunRunning? && c.cancelable && ends && listed ==> Enabled(c, mem, d, op)
  {
    hide CancelAll, ListsCanceled, CancelWrites, Applied;
    ApplyAllConcat(d, CancelWrites(op.canceled), [Write.FinishRun(RunCanceled), PublishEvent(RunFinished(op.outcome))]);
    hide ApplyAll;
  }

  lemma WakeIs(c: Config, mem: Memory, d: Disk, n: NodeId)
    requires n in mem.due && mem.model.run.RunRunning?
    ensures var op, parked := Wake(n), n in mem.model.nodes && mem.model.nodes[n].RetryWait?;
      && Enabled(c, mem, d, op) && SlotCalls(c, mem, d, op) == []
      && Next(c, mem, d, op) == mem.(due := mem.due - {n}, model := if parked then Move(mem.model, n, Ready) else mem.model)
      && Writes(c, mem, d, op) == if parked then [SetStatus(n, Ready)] else []
  {
  }

  lemma FinalizeIs(c: Config, mem: Memory, d: Disk)
    requires mem.model.run.RunRunning? && AllTerminal(mem.model.nodes)
    ensures Enabled(c, mem, d, Finalize) && SlotCalls(c, mem, d, Finalize) == []
    ensures var verdict := Verdict(mem.model.nodes);
      && Next(c, mem, d, Finalize) == mem.(model := mem.model.(run := verdict))
      && Writes(c, mem, d, Finalize) == [Write.FinishRun(verdict), PublishEvent(RunFinished(VerdictOutcome(verdict)))]
  {
    hide Verdict, AllTerminal;
  }

  lemma IsAscending(q: seq<NodeId>, s: set<NodeId>)
    requires Sorting.StrictlySorted(Less, q) && forall n :: n in q <==> n in s
    ensures q == Sorting.Ascending(s) && Distinct(q)
  {
    IdsDistinct(q);
    OrdersAreStrict();
    Sorting.SortedUnique(Less, q, Sorting.Ascending(s));
  }

  lemma GoodStays(c: Config, mem: Memory, d: Disk, op: Op)
    requires Closed(c.g) && Good(c, World(mem, d)) && Enabled(c, mem, d, op)
    ensures Good(c, World(Next(c, mem, d, op), ApplyAll(d, Writes(c, mem, d, op))))
  {
    DoKeepsGood(c, World(mem, d), op);
  }

  lemma RejectedEnabled(c: Config, mem: Memory, d: Disk, n: NodeId, expires: int, canceled: seq<NodeId>)
    requires mem.model.run.RunRunning? && n in mem.model.nodes && mem.model.nodes[n].Ready? && HasSlot(c, mem, n)
    requires c.fate(n) == None && Distinct(canceled)
    requires var m := Started(mem.model, n); var after := Break(c.g, m, n, Failed).nodes;
      forall v :: v in canceled <==> v in after && v != n && after[v] != m.nodes[v]
    ensures Enabled(c, mem, d, Dispatch(n, expires, false, canceled))
  {
    BreakChanged(c.g, Started(mem.model, n), n, Failed, canceled);
    hide Break;
  }

  lemma RejectCalls(d: Disk, n: NodeId, canceled: seq<NodeId>)
    ensures ApplyAll(d, [Write.CompleteNode(n, Failed)] + CancelWrites(canceled) + [PublishEvent(NodeFailed(n))]) ==
            Applied(ApplyAll(Applied(d, Write.CompleteNode(n, Failed)), CancelWrites(canceled)), PublishEvent(NodeFailed(n)))
  {
    hide Applied;
    var w, last := Write.CompleteNode(n, Failed), PublishEvent(NodeFailed(n));
    ApplySingle(d, w);
    ApplyAllConcat(d, [w], CancelWrites(canceled));
    ApplyAllConcat(d, [w] + CancelWrites(canceled), [last]);
    ApplySingle(ApplyAll(d, [w] + CancelWrites(canceled)), last);
  }

  lemma {:induction false} CancelWritesAppend(xs: seq<NodeId>, x: NodeId)
    ensures CancelWrites(xs + [x]) ==
            CancelWrites(xs) + [Write.CompleteNode(x, Canceled), PublishEvent(NodeCanceled(x))]
  {
    if xs == [] {
      assert xs + [x] == [x] && [x][1..] == [];
    } else {
      assert (xs + [x])[1..] == xs[1..] + [x];
      CancelWritesAppend(xs[1..], x);
    }
  }
}
