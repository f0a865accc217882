/** The durable store as it keeps many runs at once: flat maps keyed by run,
  node and attempt (engine/core/src/run_store.cpp).

  Represents ties the rows of one run to the Disk that the protocol speaks of;
  every call of the store is the Write of the same name on that Disk, and
  leaves the rows of every other run alone. */
module RunStores {
  import opened Ids
  import opened Sorting
  import opened StateMachines
  import opened LedgerKeys
  import opened Storage

  datatype RunRow = RunRow(status: RunState, cancelAt: int, cancelReason: string)

  datatype NodeRun = NodeRun(status: NodeState, until: int)

  datatype NodeKey = NodeKey(run: string, node: NodeId)

  datatype LeaseKey = LeaseKey(run: string, attempt: Attempt)

  datatype Store = Store(
    runs: map<string, RunRow>,
    nodeRuns: map<NodeKey, NodeRun>,
    attempts: map<NodeKey, set<nat>>,
    leases: map<LeaseKey, Lease>,
    ledger: set<string>)

  function Attempts(s: Store, k: NodeKey): set<nat> {
    if k in s.attempts then s.attempts[k] else {}
  }

  predicate Open(s: Store, k: NodeKey) {
    k in s.nodeRuns && !s.nodeRuns[k].status.Terminal()
  }

  predicate Live(s: Store, k: LeaseKey) {
    k in s.leases && s.leases[k].status.LeaseRunning?
  }

  predicate Takeable(s: Store, k: LeaseKey, worker: string, now: int) {
    k in s.leases ==>
      && s.leases[k].status.LeaseRunning?
      && (s.leases[k].worker == "" || s.leases[k].worker == worker || s.leases[k].expires <= now)
  }

  /** The answer to a call. */
  predicate Answers(s: Store, run: string, w: Write) {
    match w
    case SetStatus(n, _) => Open(s, NodeKey(run, n))
    case SetRetryWait(a, _) => Open(s, NodeKey(run, a.node))
    case RecordAttempt(a) => NodeKey(run, a.node) in s.nodeRuns && a.number !in Attempts(s, NodeKey(run, a.node))
    case FinishAttempt(a, _) => a.number in Attempts(s, NodeKey(run, a.node))
    case CompleteNode(n, st) => Open(s, NodeKey(run, n)) && st.Terminal()
    case InitLease(a, _) => a.number in Attempts(s, NodeKey(run, a.node))
    case AcquireLease(a, worker, now, _) =>
      a.number in Attempts(s, NodeKey(run, a.node)) && Takeable(s, LeaseKey(run, a), worker, now)
    case RenewLease(a, worker, _) => Live(s, LeaseKey(run, a)) && s.leases[LeaseKey(run, a)].worker == worker
    case ExpireLease(a, worker) => Live(s, LeaseKey(run, a)) && s.leases[LeaseKey(run, a)].worker == worker
    case Claim(key) => key != "" && key !in s.ledger
    case FinishRun(_) => run in s.runs
    case PublishTask(_) => true
    case PublishEvent(_) => true
  }

  function WithStatus(s: Store, k: NodeKey, st: NodeState): Store
    requires k in s.nodeRuns
  {
    s.(nodeRuns := s.nodeRuns[k := s.nodeRuns[k].(status := st)])
  }

  function Closed(s: Store, k: LeaseKey, st: LeaseStatus): Store {
    if Live(s, k) then s.(leases := s.leases[k := s.leases[k].(status := st)]) else s
  }

  /** The rows a call leaves behind. */
  function Performed(s: Store, run: string, w: Write): Store {
    if !Answers(s, run, w) then s
    else
      match w
      case SetStatus(n, st) => WithStatus(s, NodeKey(run, n), st)
      case SetRetryWait(a, until) => s.(nodeRuns := s.nodeRuns[NodeKey(run, a.node) := NodeRun(RetryWait, until)])
      case RecordAttempt(a) =>
        var k := NodeKey(run, a.node);
        s.(attempts := s.attempts[k := Attempts(s, k) + {a.number}])
      case FinishAttempt(a, ok) => Closed(s, LeaseKey(run, a), if ok then LeaseSucceeded else LeaseFailed)
      case CompleteNode(n, st) => WithStatus(s, NodeKey(run, n), st)
      case InitLease(a, expires) =>
        var k := LeaseKey(run, a);
        if k in s.leases then s else s.(leases := s.leases[k := Lease("", LeaseRunning, expires)])
      case AcquireLease(a, worker, _, expires) =>
        s.(leases := s.leases[LeaseKey(run, a) := Lease(worker, LeaseRunning, expires)])
      case RenewLease(a, _, expires) =>
        var k := LeaseKey(run, a);
        s.(leases := s.leases[k := s.leases[k].(expires := expires)])
      case ExpireLease(a, _) => Closed(s, LeaseKey(run, a), LeaseExpired)
      case Claim(key) => s.(ledger := s.ledger + {key})
      case FinishRun(r) => s.(runs := s.runs[run := s.runs[run].(status := r)])
      case PublishTask(_) => s
      case PublishEvent(_) => s
  }

  // ------------------------------------------------------------------------
  // The rows of one run
  // ------------------------------------------------------------------------

  ghost predicate RowOf(s: Store, run: string, d: Disk, n: NodeId) {
    var k := NodeKey(run, n);
    && (n in d.status <==> k in s.nodeRuns)
    && (n in d.status ==> d.status[n] == s.nodeRuns[k].status)
    && (n in d.status ==> s.nodeRuns[k].until == if n in d.until then d.until[n] else 0)
    && AttemptsOf(d, n) == Attempts(s, k)
  }

  ghost predicate LeaseOf(s: Store, run: string, d: Disk, a: Attempt) {
    var k := LeaseKey(run, a);
    (a in d.leases <==> k in s.leases) && (a in d.leases ==> d.leases[a] == s.leases[k])
  }

  ghost predicate Represents(s: Store, run: string, d: Disk) {
    && run in s.runs && s.runs[run].status == d.run
    && (forall n {:trigger RowOf(s, run, d, n)} :: RowOf(s, run, d, n))
    && (forall a {:trigger LeaseOf(s, run, d, a)} :: LeaseOf(s, run, d, a))
    && d.ledger == s.ledger
  }

  function TouchedRow(w: Write): Option<NodeId> {
    match w
    case SetStatus(n, _) => Some(n)
    case SetRetryWait(a, _) => Some(a.node)
    case RecordAttempt(a) => Some(a.node)
    case CompleteNode(n, _) => Some(n)
    case FinishAttempt(a, _) => Some(a.node)
    case InitLease(a, _) => Some(a.node)
    case AcquireLease(a, _, _, _) => Some(a.node)
    case _ => None
  }

  function TouchedLease(w: Write): Option<Attempt> {
    match w
    case FinishAttempt(a, _) => Some(a)
    case InitLease(a, _) => Some(a)
    case AcquireLease(a, _, _, _) => Some(a)
    case RenewLease(a, _, _) => Some(a)
    case ExpireLease(a, _) => Some(a)
    case _ => None
  }

  lemma AnswersAccepted(s: Store, run: string, d: Disk, w: Write)
    requires Represents(s, run, d)
    ensures Answers(s, run, w) == Accepted(d, w)
  {
    if TouchedRow(w).Some? { assert RowOf(s, run, d, TouchedRow(w).value); }
    if TouchedLease(w).Some? { assert LeaseOf(s, run, d, TouchedLease(w).value); }
  }

  lemma RowPerformed(s: Store, run: string, d: Disk, w: Write, n: NodeId)
    requires RowOf(s, run, d, n) && Answers(s, run, w) == Accepted(d, w)
    ensures RowOf(Performed(s, run, w), run, Applied(d, w), n)
  {
  }

  lemma LeasePerformed(s: Store, run: string, d: Disk, w: Write, a: Attempt)
    requires LeaseOf(s, run, d, a) && Answers(s, run, w) == Accepted(d, w)
    ensures LeaseOf(Performed(s, run, w), run, Applied(d, w), a)
  {
  }

  /** A call on a run does to its Disk what the protocol says. */
  lemma CallIsWrite(s: Store, run: string, d: Disk, w: Write)
    requires Represents(s, run, d)
    ensures Answers(s, run, w) == Accepted(d, w)
    ensures Represents(Performed(s, run, w), run, Applied(d, w))
  {
    AnswersAccepted(s, run, d, w);
    hide RowOf, LeaseOf;
    var s', d' := Performed(s, run, w), Applied(d, w);
    forall n ensures RowOf(s', run, d', n) {
      assert RowOf(s, run, d, n);
      RowPerformed(s, run, d, w, n);
    }
    forall a ensures LeaseOf(s', run, d', a) {
      assert LeaseOf(s, run, d, a);
      LeasePerformed(s, run, d, w, a);
    }
  }

  /** Runs share nothing but the ledger. */
  lemma OtherRunsKept(s: Store, run: string, w: Write, other: string, d: Disk)
    requires Represents(s, other, d) && other != run
    ensures Represents(Performed(s, run, w), other, if w.Claim? then Applied(d, w) else d)
  {
    var s', d' := Performed(s, run, w), if w.Claim? then Applied(d, w) else d;
    forall n ensures RowOf(s', other, d', n) { assert RowOf(s, other, d, n); }
    forall a ensures LeaseOf(s', other, d', a) { assert LeaseOf(s, other, d, a); }
  }

  // ------------------------------------------------------------------------
  // The store itself
  // ------------------------------------------------------------------------

  class InMemoryRunStore {
    var runs: map<string, RunRow>
    var nodeRuns: map<NodeKey, NodeRun>
    var attempts: map<NodeKey, set<nat>>
    var leases: map<LeaseKey, Lease>
    var ledger: set<string>

    ghost function Value(): Store
      reads this
    {
      Store(runs, nodeRuns, attempts, leases, ledger)
    }

    constructor ()
      ensures Value() == Store(map[], map[], map[], map[], {})
    {
      runs, nodeRuns, attempts, leases, ledger := map[], map[], map[], map[], {};
    }

    /** Creates the run, or promotes a queued one; any other row is kept. */
    method CreateRun(run: string, status: RunState) returns (ok: bool)
      modifies this
      ensures ok == (run != "")
      ensures var s := old(Value());
        Value() == if !ok then s
                   else if run !in s.runs then s.(runs := s.runs[run := RunRow(status, 0, "")])
                   else if s.runs[run].status.RunQueued? then s.(runs := s.runs[run := s.runs[run].(status := status)])
                   else s
    {
      if run == "" { return false; }
      if run in runs {
        if runs[run].status.RunQueued? { runs := runs[run := runs[run].(status := status)]; }
        return true;
      }
      runs := runs[run := RunRow(status, 0, "")];
      ok := true;
    }

    method CreateNodeRun(run: string, node: NodeId) returns (ok: bool)
      modifies this
      ensures ok == (run in old(runs))
      ensures var s, k := old(Value()), NodeKey(run, node);
        Value() == if ok && k !in s.nodeRuns then s.(nodeRuns := s.nodeRuns[k := NodeRun(Blocked, 0)]) else s
    {
      if run !in runs { return false; }
      var key := NodeKey(run, node);
      if key in nodeRuns { return true; }
      nodeRuns := nodeRuns[key := NodeRun(Blocked, 0)];
      ok := true;
    }

    method SetNodeStatus(run: string, node: NodeId, status: NodeState) returns (ok: bool)
      modifies this
      ensures ok == Answers(old(Value()), run, SetStatus(node, status))
      ensures Value() == Performed(old(Value()), run, SetStatus(node, status))
    {
      var key := NodeKey(run, node);
      if key !in nodeRuns { return false; }
      if nodeRuns[key].status.Terminal() { return false; }
      nodeRuns := nodeRuns[key := nodeRuns[key].(status := status)];
      ok := true;
    }

    method SetNodeRetryWait(run: string, attempt: Attempt, until: int) returns (ok: bool)
      modifies this
      ensures ok == Answers(old(Value()), run, SetRetryWait(attempt, until))
      ensures Value() == Performed(old(Value()), run, SetRetryWait(attempt, until))
    {
      var key := NodeKey(run, attempt.node);
      if key !in nodeRuns { return false; }
      if nodeRuns[key].status.Terminal() { return false; }
      nodeRuns := nodeRuns[key := nodeRuns[key].(status := RetryWait, until := until)];
      ok := true;
    }

    /** The second record of an attempt is refused. */
    method RecordAttempt(run: string, attempt: Attempt) returns (ok: bool)
      modifies this
      ensures ok == Answers(old(Value()), run, Write.RecordAttempt(attempt))
      ensures Value() == Performed(old(Value()), run, Write.RecordAttempt(attempt))
    {
      var key := NodeKey(run, attempt.node);
      if key !in nodeRuns { return false; }
      var known := if key in attempts then attempts[key] else {};
      if attempt.number in known { return false; }
      attempts := attempts[key := known + {attempt.number}];
      ok := true;
    }

    method FinishAttempt(run: string, attempt: Attempt, succeeded: bool) returns (ok: bool)
      modifies this
      ensures ok == Answers(old(Value()), run, Write.FinishAttempt(attempt, succeeded))
      ensures Value() == Performed(old(Value()), run, Write.FinishAttempt(attempt, succeeded))
    {
      var key := NodeKey(run, attempt.node);
      if key !in attempts || attempt.number !in attempts[key] { return false; }
      var lease := LeaseKey(run, attempt);
      if lease in leases && leases[lease].status.LeaseRunning? {
        leases := leases[lease := leases[lease].(status := if succeeded then LeaseSucceeded else LeaseFailed)];
      }
      ok := true;
    }

    /** Only the first completion of a node counts. */
    method CompleteNodeRun(run: string, node: NodeId, status: NodeState) returns (ok: bool)
      modifies this
      ensures ok == Answers(old(Value()), run, CompleteNode(node, status))
      ensures Value() == Performed(old(Value()), run, CompleteNode(node, status))
    {
      var key := NodeKey(run, node);
      if key !in nodeRuns { return false; }
      if nodeRuns[key].status.Terminal() { return false; }
      if !status.Terminal() { return false; }
      nodeRuns := nodeRuns[key := nodeRuns[key].(status := status)];
      ok := true;
    }

    method FinishRun(run: string, status: RunState) returns (ok: bool)
      modifies this
      ensures ok == Answers(old(Value()), run, Write.FinishRun(status))
      ensures Value() == Performed(old(Value()), run, Write.FinishRun(status))
    {
      if run !in runs { return false; }
      runs := runs[run := runs[run].(status := status)];
      ok := true;
    }

    /** The first request is kept; a repeated one reports success. */
    method MarkCancelRequested(run: string, reason: string, at: int) returns (ok: bool)
      modifies this
      ensures ok == (run in old(runs))
      ensures var s := old(Value());
        Value() == if ok && s.runs[run].cancelAt == 0
                   then s.(runs := s.runs[run := s.runs[run].(cancelAt := at, cancelReason := reason)])
                   else s
    {
      if run !in runs { return false; }
      if runs[run].cancelAt == 0 {
        runs := runs[run := runs[run].(cancelAt := at, cancelReason := reason)];
      }
      ok := true;
    }

    method InitAttemptLease(run: string, attempt: Attempt, expires: int) returns (ok: bool)
      modifies this
      ensures ok == Answers(old(Value()), run, InitLease(attempt, expires))
      ensures Value() == Performed(old(Value()), run, InitLease(attempt, expires))
    {
      var key := NodeKey(run, attempt.node);
      if key !in attempts || attempt.number !in attempts[key] { return false; }
      var lease := LeaseKey(run, attempt);
      if lease in leases { return true; }
      leases := leases[lease := Lease("", LeaseRunning, expires)];
      ok := true;
    }

    method AcquireAttemptLease(run: string, attempt: Attempt, worker: string, now: int, expires: int) returns (ok: bool)
      modifies this
      ensures ok == Answers(old(Value()), run, AcquireLease(attempt, worker, now, expires))
      ensures Value() == Performed(old(Value()), run, AcquireLease(attempt, worker, now, expires))
    {
      var key := NodeKey(run, attempt.node);
      if key !in attempts || attempt.number !in attempts[key] { return false; }
      var lease := LeaseKey(run, attempt);
      if lease in leases {
        var l := leases[lease];
        var terminal := l.status.LeaseSucceeded? || l.status.LeaseFailed? || l.status.LeaseExpired?;
        if terminal { return false; }
        if l.worker != "" && l.worker != worker && l.expires > now { return false; }
      }
      leases := leases[lease := Lease(worker, LeaseRunning, expires)];
      ok := true;
    }

    method RenewAttemptLease(run: string, attempt: Attempt, worker: string, expires: int) returns (ok: bool)
      modifies this
      ensures ok == Answers(old(Value()), run, RenewLease(attempt, worker, expires))
      ensures Value() == Performed(old(Value()), run, RenewLease(attempt, worker, expires))
    {
      var lease := LeaseKey(run, attempt);
      if lease !in leases { return false; }
      if !leases[lease].status.LeaseRunning? { return false; }
      if leases[lease].worker != worker { return false; }
      leases := leases[lease := leases[lease].(expires := expires)];
      ok := true;
    }

    /** The open leases of the run that are past their expiry. */
    method ScanExpiredAttemptLeases(run: string, now: int) returns (expired: seq<LeaseKey>)
      ensures forall k :: k in expired <==>
                          k in leases && k.run == run && leases[k].status.LeaseRunning? && 0 < leases[k].expires <= now
      ensures Distinct(expired)
    {
      expired := [];
      var rest := leases.Keys;
      while rest != {}
        invariant rest <= leases.Keys && Distinct(expired)
        invariant forall k :: k in expired <==> k in leases && k !in rest && k.run == run &&
                                                leases[k].status.LeaseRunning? && 0 < leases[k].expires <= now
        decreases |rest|
      {
        var k :| k in rest;
        rest := rest - {k};
        if k.run == run && leases[k].status.LeaseRunning? && leases[k].expires > 0 && leases[k].expires <= now {
          expired := expired + [k];
        }
      }
    }

    method MarkAttemptLeaseExpired(run: string, attempt: Attempt, worker: string) returns (ok: bool)
      modifies this
      ensures ok == Answers(old(Value()), run, ExpireLease(attempt, worker))
      ensures Value() == Performed(old(Value()), run, ExpireLease(attempt, worker))
    {
      var lease := LeaseKey(run, attempt);
      if lease !in leases { return false; }
      if !leases[lease].status.LeaseRunning? { return false; }
      if leases[lease].worker != worker { return false; }
      leases := leases[lease := leases[lease].(status := LeaseExpired)];
      ok := true;
    }

    /** The first claim of a key wins. */
    method ClaimIdempotencyKey(key: string, run: string) returns (ok: bool)
      modifies this
      ensures ok == Answers(old(Value()), run, Claim(key))
      ensures Value() == Performed(old(Value()), run, Claim(key))
    {
      if key == "" { return false; }
      ok := key !in ledger;
      ledger := ledger + {key};
    }

    method AttemptRowCount(run: string, node: NodeId) returns (count: nat)
      ensures count == |Attempts(Value(), NodeKey(run, node))|
    {
      var key := NodeKey(run, node);
      if key !in attempts { return 0; }
      count := |attempts[key]|;
    }

    /** The rows of the run in node id order. */
    method ListNodeRuns(run: string) returns (ids: seq<NodeId>, rows: seq<NodeRun>)
      ensures |ids| == |rows| && StrictlySorted(Less, ids)
      ensures forall n :: n in ids <==> NodeKey(run, n) in nodeRuns
      ensures forall i :: 0 <= i < |ids| ==> rows[i] == nodeRuns[NodeKey(run, ids[i])]
    {
      ids := SortedKeys(set k | k in nodeRuns && k.run == run :: k.node);
      rows := [];
      assert forall n :: n in ids ==> NodeKey(run, n) in nodeRuns;
      for i := 0 to |ids|
        invariant |rows| == i
        invariant forall j :: 0 <= j < i ==> rows[j] == nodeRuns[NodeKey(run, ids[j])]
      {
        rows := rows + [nodeRuns[NodeKey(run, ids[i])]];
      }
      assert forall n :: NodeKey(run, n) in nodeRuns ==> n in ids by {
        forall n | NodeKey(run, n) in nodeRuns ensures n in ids { assert NodeKey(run, n).node == n; }
      }
    }
  }
}
