/** What holds of the durable state between any two store calls, so at every
  point where a crash can strike.

  Guard says when the run loop and the workers make a call; each guarded call
  keeps Safe. */
module DiskSafety {
  import opened Ids
  import opened Graphs
  import opened StateMachines
  import opened LedgerKeys
  import opened Storage
  import opened Views

  /** Affinity key and capacity of a node's resource, and its attempt budget.
    An empty key is never counted. */
  datatype Policy = Policy(key: string, capacity: int, tries: int)

  /** What the run executes. cancelable says whether anybody cancels it, and
    fate, where it is given, fixes how each node's last attempt ends. */
  datatype Config = Config(
    g: Graph,
    run: string,
    policy: NodeId -> Policy,
    gated: bool,
    cancelable: bool,
    fate: NodeId -> Option<NodeState>)

  // ------------------------------------------------------------------------
  // Attempts
  // ------------------------------------------------------------------------

  ghost predicate PredsDone(g: Graph, nodes: Nodes, v: NodeId) {
    forall u :: Edge(u, v) in g.edges ==> HasSucceeded(nodes, u)
  }

  ghost predicate Claimed(c: Config, d: Disk, a: Attempt) {
    LedgerKey(c.run, a) in d.ledger
  }

  ghost predicate Recorded(d: Disk, a: Attempt) {
    a.number in AttemptsOf(d, a.node)
  }

  ghost predicate Latest(d: Disk, a: Attempt) {
    a.number == AttemptCount(d, a.node)
  }

  /** The attempt is over without a verdict on its node. */
  ghost predicate Spent(d: Disk, a: Attempt) {
    a in d.parked || (a in d.leases && d.leases[a].status.LeaseExpired?)
  }

  ghost predicate SpentUpTo(d: Disk, n: NodeId, k: nat) {
    forall i {:trigger Attempt(n, i)} :: 1 <= i <= k ==> Spent(d, Attempt(n, i))
  }

  ghost function UpTo(k: nat): set<nat> {
    if k == 0 then {} else UpTo(k - 1) + {k}
  }

  lemma {:induction false} UpToContains(k: nat)
    ensures |UpTo(k)| == k && forall i: nat :: i in UpTo(k) <==> 1 <= i <= k
  {
    if k > 0 { UpToContains(k - 1); }
  }

  ghost predicate RowSafe(c: Config, d: Disk, n: NodeId) {
    && n in d.status
    && (d.status[n].Unlocked() ==> PredsDone(c.g, d.status, n))
    && AttemptsOf(d, n) == UpTo(AttemptCount(d, n))
    && (d.status[n].Blocked? ==> AttemptCount(d, n) == 0)
    && (AttemptCount(d, n) > 0 ==> SpentUpTo(d, n, AttemptCount(d, n) - 1))
    && (d.status[n].Ready? || d.status[n].RetryWait? ==> SpentUpTo(d, n, AttemptCount(d, n)))
    && (d.status[n].RetryWait? ==> n in d.until)
    && (d.status[n].Succeeded? ==> Claimed(c, d, Attempt(n, AttemptCount(d, n))))
  }

  ghost predicate AttemptSafe(c: Config, d: Disk, a: Attempt) {
    && (a in d.tasks ==> Recorded(d, a) && a in d.leases && a.node in d.status && PredsDone(c.g, d.status, a.node))
    && (Recorded(d, a) ==> a.node in d.status)
    && (a in d.leases ==> Recorded(d, a))
    && (LeaseOpen(d, a) ==> Latest(d, a) && a !in d.parked)
    && (Claimed(c, d, a) ==> a in d.tasks)
    && (a in d.parked ==> Claimed(c, d, a) && a.number < c.policy(a.node).tries)
  }

  ghost predicate RowsSafe(c: Config, d: Disk) {
    d.status.Keys == c.g.nodes && forall n {:trigger RowSafe(c, d, n)} :: n in c.g.nodes ==> RowSafe(c, d, n)
  }

  ghost predicate AttemptsSafe(c: Config, d: Disk) {
    Distinct(d.tasks) && forall a {:trigger AttemptSafe(c, d, a)} :: AttemptSafe(c, d, a)
  }

  // ------------------------------------------------------------------------
  // Capacity
  // ------------------------------------------------------------------------

  ghost function InFlightWith(c: Config, nodes: Nodes, key: string): set<NodeId> {
    set x | x in nodes && nodes[x].InFlight() && c.policy(x).key == key
  }

  /** The nodes in flight on m's resource that it shares at its own capacity or
    less. With one capacity per key these are all nodes on the key. */
  ghost function Crowd(c: Config, nodes: Nodes, m: NodeId): set<NodeId> {
    set x | x in nodes && nodes[x].InFlight() && c.policy(x).key == c.policy(m).key
            && c.policy(x).capacity <= c.policy(m).capacity
  }

  ghost predicate Fits(c: Config, nodes: Nodes, m: NodeId) {
    m in nodes && nodes[m].InFlight() && c.policy(m).key != "" ==> |Crowd(c, nodes, m)| <= c.policy(m).capacity
  }

  ghost predicate WithinCapacity(c: Config, nodes: Nodes) {
    forall m {:trigger Fits(c, nodes, m)} :: m in nodes ==> Fits(c, nodes, m)
  }

  ghost predicate HasRoom(c: Config, nodes: Nodes, n: NodeId) {
    c.policy(n).key != "" ==> |InFlightWith(c, nodes, c.policy(n).key)| < c.policy(n).capacity
  }

  // ------------------------------------------------------------------------
  // Outcomes
  // ------------------------------------------------------------------------

  predicate Fated(c: Config, n: NodeId, s: NodeState) {
    c.fate(n).Some? ==> c.fate(n).value == s
  }

  /** Some strict ancestor of v has failed. */
  ghost predicate Blamed(g: Graph, nodes: Nodes, v: NodeId) {
    exists a :: a in nodes && HasFailed(nodes[a]) && Below(g, a, v)
  }

  ghost predicate MayEnd(c: Config, nodes: Nodes, n: NodeId, s: NodeState) {
    && (IsCompletion(s) ==> Fated(c, n, s))
    && (s.Canceled? ==> c.cancelable || Blamed(c.g, nodes, n))
  }

  ghost predicate EndsWell(c: Config, nodes: Nodes) {
    forall n {:trigger MayEnd(c, nodes, n, nodes[n])} :: n in nodes ==> MayEnd(c, nodes, n, nodes[n])
  }

  // ------------------------------------------------------------------------
  // The whole
  // ------------------------------------------------------------------------

  ghost predicate Finished(r: RunState) {
    r.RunSucceeded? || r.RunFailed? || r.RunCanceled?
  }

  /** A finished run has no open row, and its outcome is the rows'. */
  ghost predicate OutcomeSafe(nodes: Nodes, run: RunState) {
    && (Finished(run) ==> AllTerminal(nodes))
    && (run.RunSucceeded? ==> forall v :: v in nodes ==> nodes[v].Succeeded?)
    && (run.RunFailed? ==> exists v :: v in nodes && HasFailed(nodes[v]))
  }

  ghost predicate Safe(c: Config, d: Disk) {
    && RowsSafe(c, d)
    && AttemptsSafe(c, d)
    && WithinCapacity(c, d.status)
    && EndsWell(c, d.status)
    && OutcomeSafe(d.status, d.run)
    && ShowsOnlyStored(d)
  }

  ghost predicate Guard(c: Config, d: Disk, w: Write) {
    match w
    case SetStatus(n, s) =>
      && n in d.status && PredsDone(c.g, d.status, n)
      && (s.Dispatched? || (s.Running? && d.status[n].InFlight()) || (s.Ready? && SpentUpTo(d, n, AttemptCount(d, n))))
      && (s.Dispatched? ==> !d.status[n].InFlight() && HasRoom(c, d.status, n))
    case SetRetryWait(a, _) =>
      && a.node in d.status && PredsDone(c.g, d.status, a.node) && Latest(d, a) && Claimed(c, d, a)
      && a.number < c.policy(a.node).tries && !LeaseOpen(d, a)
    case RecordAttempt(a) =>
      && a.node in d.status && d.status[a.node].InFlight() && a.number == AttemptCount(d, a.node) + 1
      && SpentUpTo(d, a.node, AttemptCount(d, a.node)) && !LeaseOpen(d, Attempt(a.node, AttemptCount(d, a.node)))
    case FinishAttempt(_, _) => true
    case CompleteNode(n, s) =>
      && n in d.status
      && (s.Unlocked() ==> PredsDone(c.g, d.status, n))
      && (s.Succeeded? ==> Claimed(c, d, Attempt(n, AttemptCount(d, n))))
      && MayEnd(c, d.status, n, s)
    case InitLease(a, _) => Recorded(d, a) && Latest(d, a)
    case AcquireLease(a, _, _, _) => a in d.tasks
    case RenewLease(_, _, _) => true
    case ExpireLease(_, _) => true
    case Claim(key) => forall a :: key == LedgerKey(c.run, a) ==> a in d.tasks
    case FinishRun(r) => Finished(r) && OutcomeSafe(d.status, r) && !ShownRun(d.events).Final()
    case PublishTask(a) =>
      Recorded(d, a) && a !in d.tasks && a in d.leases && a.node in d.status && PredsDone(c.g, d.status, a.node)
    case PublishEvent(e) => EventStored(d, e)
  }

  // ------------------------------------------------------------------------
  // A guarded call keeps each part
  // ------------------------------------------------------------------------

  lemma PredsDoneStays(g: Graph, d: Disk, d': Disk, v: NodeId)
    requires Grows(d, d') && PredsDone(g, d.status, v)
    ensures PredsDone(g, d'.status, v)
  {
  }

  lemma SpentStays(d: Disk, d': Disk, n: NodeId, k: nat)
    requires Grows(d, d') && SpentUpTo(d, n, k)
    ensures SpentUpTo(d', n, k)
  {
    forall i | 1 <= i <= k ensures Spent(d', Attempt(n, i)) {
      assert Spent(d, Attempt(n, i));
    }
  }

  lemma SpentExtends(d: Disk, n: NodeId, k: nat)
    requires SpentUpTo(d, n, k) && Spent(d, Attempt(n, k + 1))
    ensures SpentUpTo(d, n, k + 1)
  {
  }

  /** A call touches one node's row or one node's attempts, or neither. */
  function Target(w: Write): Option<NodeId> {
    match w
    case SetStatus(n, _) => Some(n)
    case SetRetryWait(a, _) => Some(a.node)
    case RecordAttempt(a) => Some(a.node)
    case CompleteNode(n, _) => Some(n)
    case _ => None
  }

  lemma UntouchedRow(c: Config, d: Disk, w: Write, n: NodeId)
    requires n in d.status && Target(w) != Some(n)
    ensures var d' := Applied(d, w);
      && n in d'.status && d'.status[n] == d.status[n] && AttemptsOf(d', n) == AttemptsOf(d, n)
      && d.until.Keys <= d'.until.Keys
  {
  }

  lemma RowKept(c: Config, d: Disk, w: Write, n: NodeId)
    requires RowSafe(c, d, n) && Guard(c, d, w)
    ensures RowSafe(c, Applied(d, w), n)
  {
    var d', count := Applied(d, w), AttemptCount(d, n);
    AppliedGrows(d, w);
    if PredsDone(c.g, d.status, n) { PredsDoneStays(c.g, d, d', n); }
    if count > 0 { SpentStays(d, d', n, count - 1); }
    if SpentUpTo(d, n, count) { SpentStays(d, d', n, count); }
    if Target(w) != Some(n) {
      UntouchedRow(c, d, w, n);
      hide SpentUpTo, PredsDone, Applied, Guard, UpTo, AttemptCount;
      assert d.ledger <= d'.ledger;
    } else {
      TouchedRowKept(c, d, w, n);
    }
  }

  lemma TouchedRowKept(c: Config, d: Disk, w: Write, n: NodeId)
    requires RowSafe(c, d, n) && Guard(c, d, w) && Target(w) == Some(n)
    requires var d', count := Applied(d, w), AttemptCount(d, n);
      && (PredsDone(c.g, d.status, n) ==> PredsDone(c.g, d'.status, n))
      && (count > 0 ==> SpentUpTo(d', n, count - 1))
      && (SpentUpTo(d, n, count) ==> SpentUpTo(d', n, count))
    ensures RowSafe(c, Applied(d, w), n)
  {
    hide SpentUpTo, PredsDone, Claimed, UpTo;
    var d', count := Applied(d, w), AttemptCount(d, n);
    match w {
      case SetStatus(_, s) =>
      case SetRetryWait(a, _) =>
        assert AttemptsOf(d', n) == AttemptsOf(d, n);
        if count == 0 {
          NothingSpent(d', n);
        } else if Accepted(d, w) {
          assert a == Attempt(n, count) && Spent(d', a);
          SpentExtends(d', n, count - 1);
        }
      case RecordAttempt(a) => RecordedRowKept(c, d, a);
      case CompleteNode(_, s) => ClaimStays(c, d, w, Attempt(n, count));
    }
  }

  lemma RecordedRowKept(c: Config, d: Disk, a: Attempt)
    requires RowSafe(c, d, a.node) && Guard(c, d, RecordAttempt(a))
    requires var d' := Applied(d, RecordAttempt(a));
      && (PredsDone(c.g, d.status, a.node) ==> PredsDone(c.g, d'.status, a.node))
      && (SpentUpTo(d, a.node, AttemptCount(d, a.node)) ==> SpentUpTo(d', a.node, AttemptCount(d, a.node)))
    ensures RowSafe(c, Applied(d, RecordAttempt(a)), a.node)
  {
    var d', count := Applied(d, RecordAttempt(a)), AttemptCount(d, a.node);
    OneMoreAttempt(d, a);
    hide SpentUpTo, PredsDone, Claimed, UpTo, AttemptsOf;
    assert d'.status == d.status && d'.until == d.until;
  }

  lemma OneMoreAttempt(d: Disk, a: Attempt)
    requires a.node in d.status && a.number == AttemptCount(d, a.node) + 1 && AttemptsOf(d, a.node) == UpTo(AttemptCount(d, a.node))
    ensures var d' := Applied(d, RecordAttempt(a));
      && AttemptsOf(d', a.node) == UpTo(a.number) && AttemptCount(d', a.node) == a.number
  {
    var d', count := Applied(d, RecordAttempt(a)), AttemptCount(d, a.node);
    UpToContains(count);
    UpToContains(count + 1);
    assert a.number !in AttemptsOf(d, a.node);
    assert AttemptsOf(d', a.node) == UpTo(count) + {count + 1} == UpTo(count + 1);
  }

  lemma NothingSpent(d: Disk, n: NodeId)
    ensures SpentUpTo(d, n, 0)
  {
  }

  lemma ClaimStays(c: Config, d: Disk, w: Write, a: Attempt)
    ensures Claimed(c, d, a) ==> Claimed(c, Applied(d, w), a)
  {
  }

  lemma AttemptKept(c: Config, d: Disk, w: Write, a: Attempt)
    requires AttemptSafe(c, d, a) && Guard(c, d, w)
    ensures AttemptSafe(c, Applied(d, w), a)
  {
    var d' := Applied(d, w);
    AppliedGrows(d, w);
    if PredsDone(c.g, d.status, a.node) { PredsDoneStays(c.g, d, d', a.node); }
    AttemptTasks(c, d, w, a);
    AttemptLeases(c, d, w, a);
    AttemptClaims(c, d, w, a);
  }

  lemma AttemptTasks(c: Config, d: Disk, w: Write, a: Attempt)
    requires AttemptSafe(c, d, a) && Guard(c, d, w) && Grows(d, Applied(d, w))
    requires PredsDone(c.g, d.status, a.node) ==> PredsDone(c.g, Applied(d, w).status, a.node)
    ensures var d' := Applied(d, w);
      a in d'.tasks ==> Recorded(d', a) && a in d'.leases && a.node in d'.status && PredsDone(c.g, d'.status, a.node)
  {
    hide PredsDone, SpentUpTo;
  }

  lemma AttemptLeases(c: Config, d: Disk, w: Write, a: Attempt)
    requires AttemptSafe(c, d, a) && Guard(c, d, w)
    ensures var d' := Applied(d, w);
      && (Recorded(d', a) ==> a.node in d'.status)
      && (a in d'.leases ==> Recorded(d', a))
      && (LeaseOpen(d', a) ==> Latest(d', a) && a !in d'.parked)
  {
    hide PredsDone, SpentUpTo;
    LeasesRecorded(c, d, w, a);
    OpenIsLatest(c, d, w, a);
    hide Applied, Guard, AttemptSafe, Recorded, LeaseOpen, Latest;
  }

  lemma LeasesRecorded(c: Config, d: Disk, w: Write, a: Attempt)
    requires AttemptSafe(c, d, a) && Guard(c, d, w)
    ensures var d' := Applied(d, w); (Recorded(d', a) ==> a.node in d'.status) && (a in d'.leases ==> Recorded(d', a))
  {
    hide PredsDone, SpentUpTo;
  }

  lemma OpenIsLatest(c: Config, d: Disk, w: Write, a: Attempt)
    requires AttemptSafe(c, d, a) && Guard(c, d, w)
    ensures var d' := Applied(d, w); LeaseOpen(d', a) ==> Latest(d', a) && a !in d'.parked
  {
    hide PredsDone, SpentUpTo;
    if w.RecordAttempt? { RecordedCounts(d, w.attempt); }
    hide AttemptCount;
    assert !w.RecordAttempt? ==> Applied(d, w).attempts == d.attempts;
    assert !w.RecordAttempt? ==> AttemptCount(Applied(d, w), a.node) == AttemptCount(d, a.node) by { SameAttemptCounts(d, Applied(d, w)); }
  }

  lemma SameAttemptCounts(d: Disk, e: Disk)
    ensures e.attempts == d.attempts ==> forall n :: AttemptCount(e, n) == AttemptCount(d, n)
  {
  }

  lemma RecordedCounts(d: Disk, a: Attempt)
    ensures var d' := Applied(d, RecordAttempt(a));
      && (Accepted(d, RecordAttempt(a)) ==> AttemptCount(d', a.node) == AttemptCount(d, a.node) + 1)
      && (forall n :: n != a.node ==> AttemptCount(d', n) == AttemptCount(d, n))
  {
  }

  lemma AttemptClaims(c: Config, d: Disk, w: Write, a: Attempt)
    requires AttemptSafe(c, d, a) && Guard(c, d, w)
    ensures var d' := Applied(d, w);
      && (Claimed(c, d', a) ==> a in d'.tasks)
      && (a in d'.parked ==> Claimed(c, d', a) && a.number < c.policy(a.node).tries)
  {
    hide PredsDone, SpentUpTo;
    ClaimStays(c, d, w, a);
  }

  lemma TasksDistinct(c: Config, d: Disk, w: Write)
    requires Distinct(d.tasks) && Guard(c, d, w)
    ensures Distinct(Applied(d, w).tasks)
  {
    hide PredsDone, SpentUpTo;
  }

  lemma CapacityKept(c: Config, d: Disk, w: Write)
    requires WithinCapacity(c, d.status) && Guard(c, d, w)
    ensures WithinCapacity(c, Applied(d, w).status)
  {
    var nodes, nodes' := d.status, Applied(d, w).status;
    hide PredsDone, SpentUpTo;
    forall m | m in nodes' ensures Fits(c, nodes', m) {
      StatusChange(c, d, w);
      if nodes' != nodes {
        var n := Target(w).value;
        assert Fits(c, nodes, m);
        if w.SetStatus? && w.status.Dispatched? {
          DispatchFits(c, nodes, n, m);
        } else {
          CrowdShrinks(c, nodes, n, nodes'[n], m);
        }
      } else {
        assert Fits(c, nodes, m);
      }
    }
  }

  /** The only status changes a guarded call makes: one open row moves, and into
    flight only by dispatch. */
  lemma StatusChange(c: Config, d: Disk, w: Write)
    requires Guard(c, d, w)
    ensures var nodes, nodes' := d.status, Applied(d, w).status;
      nodes' == nodes ||
      (Target(w).Some? && var n := Target(w).value;
      && n in nodes && !nodes[n].Terminal() && n in nodes' && nodes' == nodes[n := nodes'[n]]
      && (w.SetStatus? ==> w.status == nodes'[n])
      && (w.SetStatus? && w.status.Dispatched? ==> !nodes[n].InFlight() && HasRoom(c, nodes, n))
      && (!(w.SetStatus? && w.status.Dispatched?) && nodes'[n].InFlight() ==> nodes[n].InFlight()))
  {
    hide PredsDone, SpentUpTo;
  }

  lemma DispatchFits(c: Config, nodes: Nodes, n: NodeId, m: NodeId)
    requires n in nodes && m in nodes && !nodes[n].InFlight() && HasRoom(c, nodes, n) && Fits(c, nodes, m)
    ensures Fits(c, nodes[n := Dispatched], m)
  {
    var nodes' := nodes[n := Dispatched];
    var key := c.policy(m).key;
    if nodes'[m].InFlight() && key != "" {
      if n in Crowd(c, nodes', m) {
        assert Crowd(c, nodes', m) <= InFlightWith(c, nodes, key) + {n};
        SubsetSize(Crowd(c, nodes', m), InFlightWith(c, nodes, key) + {n});
      } else {
        assert Crowd(c, nodes', m) == Crowd(c, nodes, m);
      }
    }
  }

  lemma CrowdShrinks(c: Config, nodes: Nodes, n: NodeId, s: NodeState, m: NodeId)
    requires n in nodes && m in nodes && Fits(c, nodes, m) && (s.InFlight() ==> nodes[n].InFlight())
    ensures Fits(c, nodes[n := s], m)
  {
    SubsetSize(Crowd(c, nodes[n := s], m), Crowd(c, nodes, m));
  }

  lemma MayEndStays(c: Config, nodes: Nodes, n: NodeId, s: NodeState, v: NodeId, t: NodeState)
    requires MayEnd(c, nodes, v, t) && (n in nodes ==> !nodes[n].Terminal())
    ensures MayEnd(c, nodes[n := s], v, t)
  {
    if t.Canceled? && !c.cancelable {
      var a :| a in nodes && HasFailed(nodes[a]) && Below(c.g, a, v);
      assert HasFailed(nodes[n := s][a]);
    }
  }

  lemma EndsKept(c: Config, d: Disk, w: Write)
    requires EndsWell(c, d.status) && Guard(c, d, w)
    ensures EndsWell(c, Applied(d, w).status)
  {
    var nodes, nodes' := d.status, Applied(d, w).status;
    StatusChange(c, d, w);
    MovesOpen(c, d, w);
    hide Guard, Applied, MayEnd;
    if nodes' != nodes {
      var n := Target(w).value;
      forall v | v in nodes' ensures MayEnd(c, nodes', v, nodes'[v]) {
        if v == n {
          MayEndStays(c, nodes, n, nodes'[n], n, nodes'[n]);
        } else {
          assert MayEnd(c, nodes, v, nodes[v]);
          MayEndStays(c, nodes, n, nodes'[n], v, nodes[v]);
        }
      }
    }
  }

  lemma MovesOpen(c: Config, d: Disk, w: Write)
    requires Guard(c, d, w)
    ensures var nodes' := Applied(d, w).status;
      nodes' != d.status && Target(w).Some? && Target(w).value in nodes' ==>
        MayEnd(c, d.status, Target(w).value, nodes'[Target(w).value])
  {
    hide PredsDone, SpentUpTo, HasRoom, Blamed;
  }

  lemma OutcomeKept(c: Config, d: Disk, w: Write)
    requires OutcomeSafe(d.status, d.run) && Guard(c, d, w)
    ensures OutcomeSafe(Applied(d, w).status, Applied(d, w).run)
  {
    StatusChange(c, d, w);
    hide PredsDone, SpentUpTo, HasRoom;
    if !w.FinishRun? {
      var d' := Applied(d, w);
      assert d'.run == d.run;
      if Finished(d.run) { assert d'.status == d.status; }
    }
  }

  lemma ShownKept(c: Config, d: Disk, w: Write)
    requires ShowsOnlyStored(d) && Guard(c, d, w)
    ensures ShowsOnlyStored(Applied(d, w))
  {
    hide PredsDone, SpentUpTo, HasRoom;
    if w.PublishEvent? {
      PublishShowsOnlyStored(d, w.event);
    } else {
      AppliedGrows(d, w);
    }
  }

  lemma GuardedKeepsSafe(c: Config, d: Disk, w: Write)
    requires Safe(c, d) && Guard(c, d, w)
    ensures Safe(c, Applied(d, w))
  {
    hide RowSafe, AttemptSafe, WithinCapacity, EndsWell, OutcomeSafe, ShowsOnlyStored, Guard, Distinct;
    var d' := Applied(d, w);
    forall n | n in c.g.nodes ensures RowSafe(c, d', n) {
      assert RowSafe(c, d, n);
      RowKept(c, d, w, n);
    }
    forall a ensures AttemptSafe(c, d', a) {
      assert AttemptSafe(c, d, a);
      AttemptKept(c, d, w, a);
    }
    StatusChange(c, d, w);
    TasksDistinct(c, d, w);
    CapacityKept(c, d, w);
    EndsKept(c, d, w);
    OutcomeKept(c, d, w);
    ShownKept(c, d, w);
  }

  /** Each call is guarded when its turn comes. */
  ghost predicate AllGuarded(c: Config, d: Disk, ws: seq<Write>)
    decreases |ws|
  {
    ws != [] ==> Guard(c, d, ws[0]) && AllGuarded(c, Applied(d, ws[0]), ws[1..])
  }

  /** A crash after any number of the calls leaves the durable state safe. */
  lemma {:induction false} SafeAtEveryCrashPoint(c: Config, d: Disk, ws: seq<Write>, i: nat)
    requires Safe(c, d) && AllGuarded(c, d, ws) && i <= |ws|
    ensures Safe(c, ApplyAll(d, ws[..i]))
    decreases |ws|
  {
    hide Safe, Guard, Applied;
    if i > 0 {
      GuardedKeepsSafe(c, d, ws[0]);
      SafeAtEveryCrashPoint(c, Applied(d, ws[0]), ws[1..], i - 1);
      assert ws[..i][1..] == ws[1..][..i - 1];
    }
  }

  lemma {:induction false} GuardedConcat(c: Config, d: Disk, a: seq<Write>, b: seq<Write>)
    requires AllGuarded(c, d, a) && AllGuarded(c, ApplyAll(d, a), b)
    ensures AllGuarded(c, d, a + b)
    decreases |a|
  {
    hide Guard, Applied;
    if a == [] {
      assert a + b == b;
    } else {
      assert (a + b)[1..] == a[1..] + b;
      GuardedConcat(c, Applied(d, a[0]), a[1..], b);
    }
  }
}
