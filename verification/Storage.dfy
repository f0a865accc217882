/** What survives a crash: the rows of one run in the durable store and the
  two streams the run loop publishes to, and the calls that change them
  (engine/core/src/run_store.cpp, engine/core/src/transport.cpp).

  A Write is one call; Accepted is what the call returns and Applied what it
  leaves behind.
*/
module Storage {
  import opened Ids
  import opened StateMachines
  import opened LedgerKeys

  datatype LeaseStatus = LeaseRunning | LeaseSucceeded | LeaseFailed | LeaseExpired

  /** worker is empty until one claims the attempt. */
  datatype Lease = Lease(worker: string, status: LeaseStatus, expires: int)

  datatype Outcome = OutSucceeded | OutFailed | OutCanceled | OutTimeout | OutStopped

  datatype Event =
    | RunStarted
    | RunResumed
    | RunFinished(outcome: Outcome)
    | NodeDispatched(node: NodeId)
    | NodeSucceeded(node: NodeId)
    | NodeFailed(node: NodeId)
    | NodeCanceled(node: NodeId)
    | NodeDeadLettered(node: NodeId)
    | NodeRetryScheduled(node: NodeId)
    | NodeLeaseExpired(node: NodeId)

  /** parked is a history variable: the attempts after which a node was parked
    for retry. The other fields are the store's and the streams'. */
  datatype Disk = Disk(
    run: RunState,
    status: Nodes,
    until: map<NodeId, int>,
    attempts: map<NodeId, set<nat>>,
    leases: map<Attempt, Lease>,
    ledger: set<string>,
    parked: set<Attempt>,
    tasks: seq<Attempt>,
    events: seq<Event>)

  datatype Write =
    | SetStatus(node: NodeId, status: NodeState)
    | SetRetryWait(attempt: Attempt, until: int)
    | RecordAttempt(attempt: Attempt)
    | FinishAttempt(attempt: Attempt, succeeded: bool)
    | CompleteNode(node: NodeId, status: NodeState)
    | InitLease(attempt: Attempt, expires: int)
    | AcquireLease(attempt: Attempt, worker: string, now: int, expires: int)
    | RenewLease(attempt: Attempt, worker: string, expires: int)
    | ExpireLease(attempt: Attempt, worker: string)
    | Claim(key: string)
    | FinishRun(run: RunState)
    | PublishTask(attempt: Attempt)
    | PublishEvent(event: Event)

  function AttemptsOf(d: Disk, n: NodeId): set<nat> {
    if n in d.attempts then d.attempts[n] else {}
  }

  function AttemptCount(d: Disk, n: NodeId): nat {
    |AttemptsOf(d, n)|
  }

  /** A row that can still change. */
  predicate OpenRow(d: Disk, n: NodeId) {
    n in d.status && !d.status[n].Terminal()
  }

  predicate LeaseOpen(d: Disk, a: Attempt) {
    a in d.leases && d.leases[a].status.LeaseRunning?
  }

  /** A worker may take a lease that nobody holds, that it holds itself, or
    whose holder let it expire; a closed lease is never taken again. */
  predicate Acquirable(d: Disk, a: Attempt, worker: string, now: int) {
    a in d.leases ==>
      && d.leases[a].status.LeaseRunning?
      && (d.leases[a].worker == "" || d.leases[a].worker == worker || d.leases[a].expires <= now)
  }

  predicate Accepted(d: Disk, w: Write) {
    match w
    case SetStatus(n, _) => OpenRow(d, n)
    case SetRetryWait(a, _) => OpenRow(d, a.node)
    case RecordAttempt(a) => a.node in d.status && a.number !in AttemptsOf(d, a.node)
    case FinishAttempt(a, _) => a.number in AttemptsOf(d, a.node)
    case CompleteNode(n, s) => OpenRow(d, n) && s.Terminal()
    case InitLease(a, _) => a.number in AttemptsOf(d, a.node)
    case AcquireLease(a, worker, now, _) => a.number in AttemptsOf(d, a.node) && Acquirable(d, a, worker, now)
    case RenewLease(a, worker, _) => LeaseOpen(d, a) && d.leases[a].worker == worker
    case ExpireLease(a, worker) => LeaseOpen(d, a) && d.leases[a].worker == worker
    case Claim(key) => key != "" && key !in d.ledger
    case FinishRun(_) => true
    case PublishTask(_) => true
    case PublishEvent(_) => true
  }

  function CloseLease(d: Disk, a: Attempt, s: LeaseStatus): map<Attempt, Lease> {
    if LeaseOpen(d, a) then d.leases[a := d.leases[a].(status := s)] else d.leases
  }

  function Applied(d: Disk, w: Write): Disk {
    if !Accepted(d, w) then d
    else
      match w
      case SetStatus(n, s) => d.(status := d.status[n := s])
      case SetRetryWait(a, until) =>
        d.(status := d.status[a.node := RetryWait], until := d.until[a.node := until], parked := d.parked + {a})
      case RecordAttempt(a) => d.(attempts := d.attempts[a.node := AttemptsOf(d, a.node) + {a.number}])
      case FinishAttempt(a, ok) => d.(leases := CloseLease(d, a, if ok then LeaseSucceeded else LeaseFailed))
      case CompleteNode(n, s) => d.(status := d.status[n := s])
      case InitLease(a, expires) =>
        if a in d.leases then d else d.(leases := d.leases[a := Lease("", LeaseRunning, expires)])
      case AcquireLease(a, worker, _, expires) => d.(leases := d.leases[a := Lease(worker, LeaseRunning, expires)])
      case RenewLease(a, _, expires) => d.(leases := d.leases[a := d.leases[a].(expires := expires)])
      case ExpireLease(a, _) => d.(leases := CloseLease(d, a, LeaseExpired))
      case Claim(key) => d.(ledger := d.ledger + {key})
      case FinishRun(s) => d.(run := s)
      case PublishTask(a) => d.(tasks := d.tasks + [a])
      case PublishEvent(e) => d.(events := d.events + [e])
  }

  /** The calls ws, one after the other. */
  function ApplyAll(d: Disk, ws: seq<Write>): Disk
    decreases |ws|
  {
    if ws == [] then d else ApplyAll(Applied(d, ws[0]), ws[1..])
  }

  lemma {:induction false} ApplyAllConcat(d: Disk, a: seq<Write>, b: seq<Write>)
    ensures ApplyAll(d, a + b) == ApplyAll(ApplyAll(d, a), b)
    decreases |a|
  {
    hide Applied;
    if a == [] {
      assert a + b == b;
    } else {
      assert (a + b)[1..] == a[1..] + b;
      ApplyAllConcat(Applied(d, a[0]), a[1..], b);
    }
  }

  lemma ApplySingle(d: Disk, w: Write)
    ensures ApplyAll(d, [w]) == Applied(d, w)
  {
    hide Applied;
    assert [w][1..] == [];
  }

  lemma ApplyTwo(d: Disk, w: Write, v: Write)
    ensures ApplyAll(d, [w, v]) == Applied(Applied(d, w), v)
  {
    hide Applied;
    ApplySingle(d, w);
    ApplySingle(Applied(d, w), v);
    ApplyAllConcat(d, [w], [v]);
    assert [w, v] == [w] + [v];
  }

  lemma ApplyFour(d: Disk, w: Write, v: Write, x: Write, y: Write)
    ensures ApplyAll(d, [w, v, x, y]) == Applied(Applied(Applied(Applied(d, w), v), x), y)
  {
    hide Applied;
    ApplyTwo(d, w, v);
    ApplyTwo(ApplyAll(d, [w, v]), x, y);
    ApplyAllConcat(d, [w, v], [x, y]);
    assert [w, v, x, y] == [w, v] + [x, y];
  }

  /** What no call ever undoes. */
  ghost predicate Grows(d: Disk, d': Disk) {
    && (forall n :: n in d.status && d.status[n].Terminal() ==> n in d'.status && d'.status[n] == d.status[n])
    && d.ledger <= d'.ledger && d.parked <= d'.parked
    && d.tasks <= d'.tasks && d.events <= d'.events
    && (forall n :: AttemptsOf(d, n) <= AttemptsOf(d', n))
    && (forall a :: a in d.leases && !d.leases[a].status.LeaseRunning? ==>
          a in d'.leases && d'.leases[a].status == d.leases[a].status)
  }

  lemma AppliedGrows(d: Disk, w: Write)
    ensures Grows(d, Applied(d, w))
  {
  }

  lemma GrowsTransitive(d: Disk, e: Disk, f: Disk)
    requires Grows(d, e) && Grows(e, f)
    ensures Grows(d, f)
  {
    assert d.tasks == e.tasks[..|d.tasks|] == f.tasks[..|d.tasks|];
    assert d.events == e.events[..|d.events|] == f.events[..|d.events|];
  }

  lemma {:induction false} ApplyAllGrows(d: Disk, ws: seq<Write>)
    ensures Grows(d, ApplyAll(d, ws))
    decreases |ws|
  {
    hide Applied, Grows;
    if ws == [] {
      GrowsReflexive(d);
    } else {
      AppliedGrows(d, ws[0]);
      ApplyAllGrows(Applied(d, ws[0]), ws[1..]);
      GrowsTransitive(d, Applied(d, ws[0]), ApplyAll(d, ws));
    }
  }

  lemma GrowsReflexive(d: Disk)
    ensures Grows(d, d)
  {
  }
}
