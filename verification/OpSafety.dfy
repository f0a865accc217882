/** Every call of every operation is guarded, so the durable state is safe
  wherever the process dies. */
module OpSafety {
  import opened Ids
  import opened Graphs
  import opened StateMachines
  import opened LedgerKeys
  import opened Storage
  import opened Views
  import opened DiskSafety
  import opened Protocol

  // ------------------------------------------------------------------------
  // Short sequences of calls
  // ------------------------------------------------------------------------

  lemma One(c: Config, d: Disk, w: Write)
    requires Guard(c, d, w)
    ensures AllGuarded(c, d, [w]) && ApplyAll(d, [w]) == Applied(d, w)
  {
    hide Guard, Applied;
    assert [w][1..] == [];
  }

  lemma Two(c: Config, d: Disk, w: Write, v: Write)
    requires Guard(c, d, w) && Guard(c, Applied(d, w), v)
    ensures AllGuarded(c, d, [w, v]) && ApplyAll(d, [w, v]) == Applied(Applied(d, w), v)
  {
    hide Guard, Applied;
    One(c, Applied(d, w), v);
    assert [w, v][1..] == [v];
  }

  lemma Four(c: Config, d: Disk, w: Write, v: Write, x: Write, y: Write)
    requires Guard(c, d, w) && Guard(c, Applied(d, w), v)
    requires var e := Applied(Applied(d, w), v); Guard(c, e, x) && Guard(c, Applied(e, x), y)
    ensures AllGuarded(c, d, [w, v, x, y])
    ensures ApplyAll(d, [w, v, x, y]) == Applied(Applied(Applied(Applied(d, w), v), x), y)
  {
    hide Guard, Applied;
    Two(c, d, w, v);
    Two(c, ApplyAll(d, [w, v]), x, y);
    GuardedConcat(c, d, [w, v], [x, y]);
    ApplyAllConcat(d, [w, v], [x, y]);
    assert [w, v, x, y] == [w, v] + [x, y];
  }

  lemma Then(c: Config, d: Disk, a: seq<Write>, b: seq<Write>)
    requires AllGuarded(c, d, a) && AllGuarded(c, ApplyAll(d, a), b)
    ensures AllGuarded(c, d, a + b) && ApplyAll(d, a + b) == ApplyAll(ApplyAll(d, a), b)
  {
    hide Guard, Applied;
    GuardedConcat(c, d, a, b);
    ApplyAllConcat(d, a, b);
  }

  // ------------------------------------------------------------------------
  // Persisting cancellations
  // ------------------------------------------------------------------------

  ghost function CancelRows(nodes: Nodes, xs: seq<NodeId>): Nodes {
    map v | v in nodes :: if v in xs then Canceled else nodes[v]
  }

  function CancelEvents(xs: seq<NodeId>): seq<Event> {
    if xs == [] then [] else [NodeCanceled(xs[0])] + CancelEvents(xs[1..])
  }

  ghost predicate AllOpen(d: Disk, xs: seq<NodeId>) {
    forall v :: v in xs ==> OpenRow(d, v)
  }

  ghost predicate MayCancelAll(c: Config, nodes: Nodes, xs: seq<NodeId>) {
    forall v {:trigger MayEnd(c, nodes, v, Canceled)} :: v in xs ==> MayEnd(c, nodes, v, Canceled)
  }

  ghost predicate AllBelow(g: Graph, n: NodeId, xs: seq<NodeId>) {
    forall v :: v in xs ==> Below(g, n, v)
  }

  lemma BelowFailureMayCancel(c: Config, nodes: Nodes, n: NodeId, xs: seq<NodeId>)
    requires n in nodes && HasFailed(nodes[n]) && AllBelow(c.g, n, xs)
    ensures MayCancelAll(c, nodes, xs)
  {
    forall v | v in xs ensures MayEnd(c, nodes, v, Canceled) {
      assert Blamed(c.g, nodes, v);
    }
  }

  lemma {:induction false} CancelWritesGuarded(c: Config, d: Disk, xs: seq<NodeId>)
    requires Distinct(xs) && AllOpen(d, xs) && MayCancelAll(c, d.status, xs)
    ensures AllGuarded(c, d, CancelWrites(xs))
    ensures ApplyAll(d, CancelWrites(xs)) ==
            d.(status := CancelRows(d.status, xs), events := d.events + CancelEvents(xs))
    decreases |xs|
  {
    hide Guard, Applied, MayEnd, OpenRow, AllGuarded, ApplyAll, Distinct, MayCancelAll, AllOpen;
    if xs == [] {
      NothingGuarded(c, d);
      assert CancelRows(d.status, xs) == d.status;
      assert d.events + CancelEvents(xs) == d.events;
    } else {
      var x, rest := xs[0], xs[1..];
      FirstMayCancel(c, d, xs);
      var e := CancelOneGuarded(c, d, x);
      CancelWritesGuarded(c, e, rest);
      Then(c, d, [CompleteNode(x, Canceled), PublishEvent(NodeCanceled(x))], CancelWrites(rest));
      assert CancelRows(e.status, rest) == CancelRows(d.status, xs);
      assert e.events + CancelEvents(rest) == d.events + CancelEvents(xs);
    }
  }

  lemma NothingGuarded(c: Config, d: Disk)
    ensures AllGuarded(c, d, []) && ApplyAll(d, []) == d
  {
  }

  /** The first cancellation leaves the others possible. */
  lemma FirstMayCancel(c: Config, d: Disk, xs: seq<NodeId>)
    requires xs != [] && Distinct(xs) && AllOpen(d, xs) && MayCancelAll(c, d.status, xs)
    ensures xs[0] in d.status && OpenRow(d, xs[0]) && MayEnd(c, d.status, xs[0], Canceled) && Distinct(xs[1..])
    ensures var e := d.(status := d.status[xs[0] := Canceled], events := d.events + [NodeCanceled(xs[0])]);
      AllOpen(e, xs[1..]) && MayCancelAll(c, e.status, xs[1..])
  {
    var x, rest := xs[0], xs[1..];
    var e := d.(status := d.status[x := Canceled], events := d.events + [NodeCanceled(x)]);
    hide MayEnd;
    assert MayEnd(c, d.status, x, Canceled);
    forall v | v in rest ensures MayEnd(c, e.status, v, Canceled) {
      assert v in xs && MayEnd(c, d.status, v, Canceled);
      MayEndStays(c, d.status, x, Canceled, v, Canceled);
    }
    forall v | v in rest ensures OpenRow(e, v) {
      var i :| 0 <= i < |rest| && rest[i] == v;
      assert xs[i + 1] == v && xs[0] != v && v in xs;
    }
  }

  lemma CancelOneGuarded(c: Config, d: Disk, x: NodeId) returns (e: Disk)
    requires OpenRow(d, x) && MayEnd(c, d.status, x, Canceled)
    ensures var ws := [CompleteNode(x, Canceled), PublishEvent(NodeCanceled(x))];
      AllGuarded(c, d, ws) && e == ApplyAll(d, ws)
    ensures e == d.(status := d.status[x := Canceled], events := d.events + [NodeCanceled(x)])
  {
    Two(c, d, CompleteNode(x, Canceled), PublishEvent(NodeCanceled(x)));
    e := ApplyAll(d, [CompleteNode(x, Canceled), PublishEvent(NodeCanceled(x))]);
  }

  // ------------------------------------------------------------------------
  // What memory says about a row
  // ------------------------------------------------------------------------

  lemma RowOf(c: Config, mem: Memory, d: Disk, n: NodeId)
    requires Closed(c.g) && Safe(c, d) && Mirrors(c, mem, d) && n in mem.model.nodes
    ensures n in d.status && n in c.g.nodes && Current(mem, n) == AttemptCount(d, n)
    ensures var s, r := mem.model.nodes[n], d.status[n];
      && (s == Restore(r) || (r.Blocked? && s.Ready?))
      && (s.Unlocked() ==> PredsDone(c.g, d.status, n))
      && (s.Ready? ==> SpentUpTo(d, n, AttemptCount(d, n)))
  {
    assert RowSafe(c, d, n);
    hide Safe;
    var r := Restored(d.status);
    if d.status[n].Blocked? {
      assert SpentUpTo(d, n, 0);
      NothingPending(c.g, r, n);
      if PendingCount(c.g, r, n) == 0 {
        forall u | Edge(u, n) in c.g.edges ensures HasSucceeded(d.status, u) {
          assert Edge(u, n).from in c.g.nodes;
          assert HasSucceeded(r, u);
        }
      }
    }
  }

  lemma RoomOnDisk(c: Config, mem: Memory, d: Disk, n: NodeId)
    requires SlotsMirror(c, mem, d.status) && HasSlot(c, mem, n)
    ensures HasRoom(c, d.status, n)
  {
    var u := Used(mem, c.policy(n).key);
  }

  // ------------------------------------------------------------------------
  // Dispatch
  // ------------------------------------------------------------------------

  ghost predicate Dispatchable(c: Config, d: Disk, n: NodeId) {
    && OpenRow(d, n) && !d.status[n].InFlight() && PredsDone(c.g, d.status, n)
    && SpentUpTo(d, n, AttemptCount(d, n)) && HasRoom(c, d.status, n)
  }

  /** The durable state once attempt a is recorded and its lease opened. */
  ghost function Opened(d: Disk, a: Attempt, expires: int): Disk {
    d.(status := d.status[a.node := Running],
       attempts := d.attempts[a.node := AttemptsOf(d, a.node) + {a.number}],
       leases := d.leases[a := Lease("", LeaseRunning, expires)])
  }

  lemma FreshAttempt(c: Config, d: Disk, n: NodeId)
    requires Safe(c, d) && n in d.status && SpentUpTo(d, n, AttemptCount(d, n))
    ensures var a := Attempt(n, AttemptCount(d, n) + 1);
      !Recorded(d, a) && a !in d.tasks && a !in d.leases && a !in d.parked && !Claimed(c, d, a)
    ensures !LeaseOpen(d, Attempt(n, AttemptCount(d, n)))
  {
    var last, a := Attempt(n, AttemptCount(d, n)), Attempt(n, AttemptCount(d, n) + 1);
    assert RowSafe(c, d, n) && AttemptSafe(c, d, last) && AttemptSafe(c, d, a);
    UpToContains(AttemptCount(d, n));
    if last.number > 0 { assert Spent(d, last); }
  }

  /** The durable states inside a dispatch. */
  lemma PreludeEffect(d: Disk, a: Attempt, expires: int)
    requires OpenRow(d, a.node) && !Recorded(d, a) && a !in d.leases
    ensures var d1 := Applied(d, SetStatus(a.node, Dispatched));
      var d2 := Applied(d1, RecordAttempt(a));
      var d3 := Applied(d2, SetStatus(a.node, Running));
      var attempts := d.attempts[a.node := AttemptsOf(d, a.node) + {a.number}];
      && d1 == d.(status := d.status[a.node := Dispatched])
      && d2 == d.(status := d.status[a.node := Dispatched], attempts := attempts)
      && d3 == d.(status := d.status[a.node := Running], attempts := attempts)
      && Applied(d3, InitLease(a, expires)) == Opened(d, a, expires)
  {
    var attempts := d.attempts[a.node := AttemptsOf(d, a.node) + {a.number}];
    var d1, d2 := d.(status := d.status[a.node := Dispatched]), d.(status := d.status[a.node := Dispatched], attempts := attempts);
    var d3 := d.(status := d.status[a.node := Running], attempts := attempts);
    assert Applied(d, SetStatus(a.node, Dispatched)) == d1;
    assert Applied(d1, RecordAttempt(a)) == d2;
    assert Applied(d2, SetStatus(a.node, Running)) == d3;
    assert Applied(d3, InitLease(a, expires)) == Opened(d, a, expires);
  }

  lemma PreludeGuarded(c: Config, d: Disk, n: NodeId, expires: int)
    requires Safe(c, d) && Dispatchable(c, d, n)
    ensures var a := Attempt(n, AttemptCount(d, n) + 1);
      AllGuarded(c, d, Prelude(a, expires)) && ApplyAll(d, Prelude(a, expires)) == Opened(d, a, expires)
  {
    var a := Attempt(n, AttemptCount(d, n) + 1);
    FreshAttempt(c, d, n);
    hide Safe, HasRoom, Guard, Applied, PredsDone, SpentUpTo, Opened;
    PreludeEffect(d, a, expires);
    DispatchingGuarded(c, d, a, expires);
    hide Dispatchable;
    Four(c, d, SetStatus(n, Dispatched), RecordAttempt(a), SetStatus(n, Running), InitLease(a, expires));
  }

  lemma DispatchingGuarded(c: Config, d: Disk, a: Attempt, expires: int)
    requires Dispatchable(c, d, a.node) && a.number == AttemptCount(d, a.node) + 1
    requires !Recorded(d, a) && !LeaseOpen(d, Attempt(a.node, AttemptCount(d, a.node)))
    ensures var d1 := Applied(d, SetStatus(a.node, Dispatched));
      var d2 := Applied(d1, RecordAttempt(a));
      var d3 := Applied(d2, SetStatus(a.node, Running));
      && Guard(c, d, SetStatus(a.node, Dispatched)) && Guard(c, d1, RecordAttempt(a))
      && Guard(c, d2, SetStatus(a.node, Running)) && Guard(c, d3, InitLease(a, expires))
  {
    var d1 := Applied(d, SetStatus(a.node, Dispatched));
    var d2 := Applied(d1, RecordAttempt(a));
    AppliedGrows(d, SetStatus(a.node, Dispatched));
    AppliedGrows(d1, RecordAttempt(a));
    GrowsTransitive(d, d1, d2);
    PredsDoneStays(c.g, d, d2, a.node);
    SpentStays(d, d1, a.node, AttemptCount(d, a.node));
    hide PredsDone, SpentUpTo, HasRoom, Grows;
  }

  lemma DispatchableFromMemory(c: Config, mem: Memory, d: Disk, n: NodeId)
    requires Closed(c.g) && Safe(c, d) && Mirrors(c, mem, d) && n in mem.model.nodes && mem.model.nodes[n].Ready?
    requires HasSlot(c, mem, n)
    ensures Dispatchable(c, d, n) && Current(mem, n) == AttemptCount(d, n)
  {
    hide Safe, SlotsMirror;
    RowOf(c, mem, d, n);
    RoomOnDisk(c, mem, d, n);
  }

  lemma OpenedKeepsPreds(g: Graph, d: Disk, a: Attempt, expires: int)
    requires PredsDone(g, d.status, a.node) && OpenRow(d, a.node)
    ensures PredsDone(g, Opened(d, a, expires).status, a.node)
  {
  }

  /** The durable state after a published dispatch. */
  ghost function Published(d: Disk, a: Attempt, expires: int): Disk {
    var o := Opened(d, a, expires);
    o.(tasks := d.tasks + [a], events := d.events + [NodeDispatched(a.node)])
  }

  lemma PublishedGuarded(c: Config, d: Disk, n: NodeId, expires: int)
    requires Safe(c, d) && Dispatchable(c, d, n)
    ensures var a := Attempt(n, AttemptCount(d, n) + 1);
      && AllGuarded(c, d, DispatchWrites(a, expires, true, []))
      && ApplyAll(d, DispatchWrites(a, expires, true, [])) == Published(d, a, expires)
  {
    var a := Attempt(n, AttemptCount(d, n) + 1);
    var o := Opened(d, a, expires);
    FreshAttempt(c, d, n);
    hide Safe;
    PreludeGuarded(c, d, n, expires);
    OpenedKeepsPreds(c.g, d, a, expires);
    PublicationGuarded(c, d, a, expires);
    hide AllGuarded, ApplyAll, Dispatchable, Guard, Applied;
    Then(c, d, Prelude(a, expires), [PublishTask(a), PublishEvent(NodeDispatched(n))]);
  }

  lemma PublicationGuarded(c: Config, d: Disk, a: Attempt, expires: int)
    requires a !in d.tasks && PredsDone(c.g, Opened(d, a, expires).status, a.node)
    ensures var o, ws := Opened(d, a, expires), [PublishTask(a), PublishEvent(NodeDispatched(a.node))];
      AllGuarded(c, o, ws) && ApplyAll(o, ws) == Published(d, a, expires)
  {
    hide PredsDone, AllGuarded, ApplyAll;
    Two(c, Opened(d, a, expires), PublishTask(a), PublishEvent(NodeDispatched(a.node)));
  }

  /** The durable state after a dispatch that could not be published. */
  ghost function Rejected(d: Disk, a: Attempt, expires: int, canceled: seq<NodeId>): Disk {
    var o := Opened(d, a, expires);
    o.(status := CancelRows(o.status[a.node := Failed], canceled),
       events := d.events + CancelEvents(canceled) + [NodeFailed(a.node)])
  }

  lemma RejectedGuarded(c: Config, d: Disk, n: NodeId, expires: int, canceled: seq<NodeId>)
    requires Safe(c, d) && Dispatchable(c, d, n)
    requires Distinct(canceled) && AllOpen(d, canceled) && n !in canceled && AllBelow(c.g, n, canceled)
    requires Fated(c, n, Failed)
    ensures var a := Attempt(n, AttemptCount(d, n) + 1);
      && AllGuarded(c, d, DispatchWrites(a, expires, false, canceled))
      && ApplyAll(d, DispatchWrites(a, expires, false, canceled)) == Rejected(d, a, expires, canceled)
  {
    var a := Attempt(n, AttemptCount(d, n) + 1);
    var o, w, last := Opened(d, a, expires), CompleteNode(n, Failed), PublishEvent(NodeFailed(n));
    hide Safe, HasRoom, Guard, Applied, AllGuarded, ApplyAll, AllBelow, PredsDone;
    PreludeGuarded(c, d, n, expires);
    OpenedKeepsPreds(c.g, d, a, expires);
    OpenedStaysOpen(d, a, expires, canceled);
    RejectionGuarded(c, o, n, canceled);
    Then(c, d, Prelude(a, expires), [w] + CancelWrites(canceled) + [last]);
    assert Prelude(a, expires) + ([w] + CancelWrites(canceled) + [last]) == DispatchWrites(a, expires, false, canceled);
  }

  lemma OpenedStaysOpen(d: Disk, a: Attempt, expires: int, xs: seq<NodeId>)
    requires OpenRow(d, a.node) && AllOpen(d, xs)
    ensures OpenRow(Opened(d, a, expires), a.node) && AllOpen(Opened(d, a, expires), xs)
  {
  }

  /** The failure of an open node, the cancellations below it, and its event. */
  lemma RejectionGuarded(c: Config, o: Disk, n: NodeId, canceled: seq<NodeId>)
    requires OpenRow(o, n) && PredsDone(c.g, o.status, n) && Fated(c, n, Failed)
    requires Distinct(canceled) && AllOpen(o, canceled) && n !in canceled && AllBelow(c.g, n, canceled)
    ensures var ws := [CompleteNode(n, Failed)] + CancelWrites(canceled) + [PublishEvent(NodeFailed(n))];
      && AllGuarded(c, o, ws)
      && ApplyAll(o, ws) == o.(status := CancelRows(o.status[n := Failed], canceled),
                               events := o.events + CancelEvents(canceled) + [NodeFailed(n)])
  {
    hide PredsDone, AllGuarded, ApplyAll;
    var w, last := CompleteNode(n, Failed), PublishEvent(NodeFailed(n));
    One(c, o, w);
    var f := o.(status := o.status[n := Failed]);
    assert Applied(o, w) == f;
    BelowFailureMayCancel(c, f.status, n, canceled);
    hide AllBelow, MayCancelAll;
    CancelWritesGuarded(c, f, canceled);
    var e := f.(status := CancelRows(f.status, canceled), events := f.events + CancelEvents(canceled));
    One(c, e, last);
    assert Applied(e, last) == e.(events := e.events + [NodeFailed(n)]);
    hide Applied, Guard;
    Then(c, o, [w], CancelWrites(canceled));
    Then(c, o, [w] + CancelWrites(canceled), [last]);
  }

  // ------------------------------------------------------------------------
  // Results
  // ------------------------------------------------------------------------

  /** A result that will be applied: the latest attempt of a node in flight,
    published and not claimed yet. */
  ghost predicate Applicable(c: Config, d: Disk, a: Attempt) {
    && a in d.tasks && a.node in d.status && d.status[a.node].InFlight()
    && PredsDone(c.g, d.status, a.node) && Latest(d, a) && !Claimed(c, d, a)
  }

  /** An applied result belongs to the node's latest attempt. */
  lemma ApplicableFromMemory(c: Config, mem: Memory, d: Disk, a: Attempt)
    requires Closed(c.g) && Safe(c, d) && Mirrors(c, mem, d) && a in d.tasks && Applies(c, mem, d, a)
    ensures Applicable(c, d, a) && Latest(d, a)
  {
    RowOf(c, mem, d, a.node);
    assert RowSafe(c, d, a.node) && AttemptSafe(c, d, a);
    UpToContains(AttemptCount(d, a.node));
  }

  ghost function ClaimedDisk(c: Config, d: Disk, a: Attempt): Disk {
    d.(ledger := d.ledger + {LedgerKey(c.run, a)})
  }

  lemma ClaimGuarded(c: Config, d: Disk, a: Attempt)
    requires a in d.tasks
    ensures Guard(c, d, Claim(LedgerKey(c.run, a)))
    ensures !Claimed(c, d, a) ==> Applied(d, Claim(LedgerKey(c.run, a))) == ClaimedDisk(c, d, a)
  {
    forall b | LedgerKey(c.run, a) == LedgerKey(c.run, b) ensures b in d.tasks {
      KeyInjectiveInRun(c.run, a, b);
    }
    assert LedgerKey(c.run, a)[0] == 'r';
  }

  /** The durable state after an applied result without cancellations. */
  ghost function Reported(c: Config, d: Disk, a: Attempt, reply: Reply): Disk {
    var n, e := a.node, ClaimedDisk(c, d, a);
    var failed := CloseLease(d, a, LeaseFailed);
    match reply
    case Completed =>
      e.(status := d.status[n := Succeeded], leases := CloseLease(d, a, LeaseSucceeded),
         events := d.events + [NodeSucceeded(n)])
    case Retry(until) =>
      e.(status := d.status[n := RetryWait], until := d.until[n := until], parked := d.parked + {a}, leases := failed,
         events := d.events + [NodeRetryScheduled(n)])
    case GiveUp =>
      e.(status := d.status[n := DeadLettered], leases := failed, events := d.events + [NodeDeadLettered(n)])
    case Reject =>
      e.(status := d.status[n := Failed], leases := failed, events := d.events + [NodeFailed(n)])
  }

  lemma CompletedGuarded(c: Config, d: Disk, a: Attempt)
    requires Applicable(c, d, a) && Recorded(d, a) && Fated(c, a.node, Succeeded)
    ensures AllGuarded(c, d, ResultHead(c, a, Completed))
    ensures ApplyAll(d, ResultHead(c, a, Completed)) == Reported(c, d, a, Completed)
  {
    var n, d1 := a.node, ClaimedDisk(c, d, a);
    ClaimGuarded(c, d, a);
    var complete, finish, event := CompleteNode(n, Succeeded), FinishAttempt(a, true), PublishEvent(NodeSucceeded(n));
    assert PredsDone(c.g, d1.status, n);
    hide PredsDone;
    assert a == Attempt(n, AttemptCount(d1, n));
    var d2 := Applied(d1, complete);
    assert d2 == d1.(status := d.status[n := Succeeded]);
    var d3 := Applied(d2, finish);
    assert d3 == d2.(leases := CloseLease(d, a, LeaseSucceeded));
    Four(c, d, Claim(LedgerKey(c.run, a)), complete, finish, event);
  }

  lemma FailureGuarded(c: Config, d: Disk, a: Attempt, reply: Reply)
    requires Applicable(c, d, a) && Recorded(d, a) && !reply.Completed?
    requires if reply.Retry? then a.number < c.policy(a.node).tries else Fated(c, a.node, StateAfter(reply))
    ensures AllGuarded(c, d, ResultHead(c, a, reply))
    ensures ApplyAll(d, ResultHead(c, a, reply)) == Reported(c, d, a, reply)
  {
    var n, d1 := a.node, ClaimedDisk(c, d, a);
    ClaimGuarded(c, d, a);
    var finish := FinishAttempt(a, false);
    var d2 := Applied(d1, finish);
    assert d2 == d1.(leases := CloseLease(d, a, LeaseFailed));
    assert PredsDone(c.g, d2.status, n);
    hide PredsDone, ClaimedDisk;
    assert AttemptCount(d2, n) == AttemptCount(d, n) && Claimed(c, d2, a);
    hide CloseLease, LedgerKey, AllGuarded, ApplyAll, Applicable;
    var claim := Claim(LedgerKey(c.run, a));
    if reply.Retry? {
      Four(c, d, claim, finish, SetRetryWait(a, reply.until), PublishEvent(NodeRetryScheduled(n)));
    } else {
      Four(c, d, claim, finish, CompleteNode(n, StateAfter(reply)), PublishEvent(EventOf(n, reply)));
    }
  }

  /** The durable state after an applied result. */
  ghost function Resolved(c: Config, d: Disk, a: Attempt, reply: Reply, canceled: seq<NodeId>): Disk {
    var e := Reported(c, d, a, reply);
    e.(status := CancelRows(e.status, canceled), events := e.events + CancelEvents(canceled))
  }

  lemma ResultGuarded(c: Config, d: Disk, a: Attempt, reply: Reply, canceled: seq<NodeId>)
    requires Applicable(c, d, a) && Recorded(d, a)
    requires if reply.Retry? then a.number < c.policy(a.node).tries else Fated(c, a.node, StateAfter(reply))
    requires Distinct(canceled) && AllOpen(d, canceled) && a.node !in canceled && AllBelow(c.g, a.node, canceled)
    requires reply.Completed? || reply.Retry? ==> canceled == []
    ensures var ws := ResultHead(c, a, reply) + CancelWrites(canceled);
      AllGuarded(c, d, ws) && ApplyAll(d, ws) == Resolved(c, d, a, reply, canceled)
  {
    if reply.Completed? { CompletedGuarded(c, d, a); } else { FailureGuarded(c, d, a, reply); }
    var e := Reported(c, d, a, reply);
    if canceled != [] { BelowFailureMayCancel(c, e.status, a.node, canceled); }
    hide Applicable, ResultHead, AllGuarded, ApplyAll, Distinct;
    CancelWritesGuarded(c, Reported(c, d, a, reply), canceled);
    Then(c, d, ResultHead(c, a, reply), CancelWrites(canceled));
  }

  // ------------------------------------------------------------------------
  // Reaping, waking, ending
  // ------------------------------------------------------------------------

  ghost function Reaped(d: Disk, a: Attempt, held: bool): Disk {
    d.(leases := CloseLease(d, a, LeaseExpired),
       status := if held then d.status[a.node := Ready] else d.status,
       events := d.events + [NodeLeaseExpired(a.node)])
  }

  lemma ReapGuarded(c: Config, d: Disk, a: Attempt, worker: string, held: bool)
    requires Safe(c, d) && LeaseOpen(d, a) && d.leases[a].worker == worker
    requires held ==> OpenRow(d, a.node) && PredsDone(c.g, d.status, a.node)
    ensures var ws := [ExpireLease(a, worker)] + (if held then [SetStatus(a.node, Ready)] else []) +
                      [PublishEvent(NodeLeaseExpired(a.node))];
      AllGuarded(c, d, ws) && ApplyAll(d, ws) == Reaped(d, a, held)
  {
    var d1 := Applied(d, ExpireLease(a, worker));
    var mid: seq<Write> := if held then [SetStatus(a.node, Ready)] else [];
    var d2 := d1.(status := if held then d.status[a.node := Ready] else d.status);
    assert d1 == d.(leases := CloseLease(d, a, LeaseExpired));
    One(c, d, ExpireLease(a, worker));
    if held {
      ReapedIsSpent(c, d, a, d1);
      assert PredsDone(c.g, d1.status, a.node);
      hide Safe, PredsDone, SpentUpTo;
      One(c, d1, SetStatus(a.node, Ready));
    } else {
      assert AllGuarded(c, d1, mid) && ApplyAll(d1, mid) == d2;
    }
    hide Safe, PredsDone, SpentUpTo;
    One(c, d2, PublishEvent(NodeLeaseExpired(a.node)));
    hide Guard, Applied;
    Then(c, d, [ExpireLease(a, worker)], mid);
    Then(c, d, [ExpireLease(a, worker)] + mid, [PublishEvent(NodeLeaseExpired(a.node))]);
  }

  lemma ReapedIsSpent(c: Config, d: Disk, a: Attempt, d1: Disk)
    requires Safe(c, d) && LeaseOpen(d, a) && a.node in d.status && d1 == d.(leases := CloseLease(d, a, LeaseExpired))
    ensures SpentUpTo(d1, a.node, AttemptCount(d1, a.node))
  {
    assert RowSafe(c, d, a.node) && AttemptSafe(c, d, a);
    UpToContains(AttemptCount(d, a.node));
    var n, count := a.node, AttemptCount(d, a.node);
    assert AttemptCount(d1, n) == count == a.number;
    forall i | 1 <= i <= count - 1 ensures Spent(d1, Attempt(n, i)) {
      assert Spent(d, Attempt(n, i));
    }
    assert a == Attempt(n, count) && Spent(d1, a);
    SpentExtends(d1, n, count - 1);
  }

  lemma WakeGuarded(c: Config, d: Disk, n: NodeId)
    requires OpenRow(d, n) && PredsDone(c.g, d.status, n) && SpentUpTo(d, n, AttemptCount(d, n))
    ensures AllGuarded(c, d, [SetStatus(n, Ready)])
    ensures ApplyAll(d, [SetStatus(n, Ready)]) == d.(status := d.status[n := Ready])
  {
    hide PredsDone, SpentUpTo;
    One(c, d, SetStatus(n, Ready));
  }

  lemma EndGuarded(c: Config, d: Disk, r: RunState, o: Outcome)
    requires Finished(r) && OutcomeSafe(d.status, r) && !Finished(d.run) && ShowsOnlyStored(d)
    requires MapRun(r) == MapOutcome(o)
    ensures var ws := [FinishRun(r), PublishEvent(RunFinished(o))];
      AllGuarded(c, d, ws) && ApplyAll(d, ws) == d.(run := r, events := d.events + [RunFinished(o)])
  {
    assert !ShownRun(d.events).Final();
    hide OutcomeSafe, ShownRun;
    Two(c, d, FinishRun(r), PublishEvent(RunFinished(o)));
  }

  // ------------------------------------------------------------------------
  // Every operation
  // ------------------------------------------------------------------------

  /** The durable state after each operation, in one formula. */
  ghost function After(c: Config, mem: Memory, d: Disk, op: Op): Disk {
    match op
    case Dispatch(n, expires, published, canceled) =>
      var a := Attempt(n, AttemptCount(d, n) + 1);
      if published then Published(d, a, expires) else Rejected(d, a, expires, canceled)
    case Deliver(a, reply, canceled) => if Applies(c, mem, d, a) then Resolved(c, d, a, reply, canceled) else d
    case Reap(a, _) => Reaped(d, a, Holds(mem, a.node))
    case Wake(n) =>
      if n in mem.model.nodes && mem.model.nodes[n].RetryWait? then d.(status := d.status[n := Ready]) else d
    case Cancel(outcome, canceled) =>
      d.(status := CancelRows(d.status, canceled), run := RunCanceled,
         events := d.events + CancelEvents(canceled) + [RunFinished(outcome)])
    case Finalize =>
      var verdict := Verdict(mem.model.nodes);
      d.(run := verdict, events := d.events + [RunFinished(VerdictOutcome(verdict))])
  }

  lemma BreakLists(g: Graph, m: Model, n: NodeId, s: NodeState, before: Nodes, xs: seq<NodeId>)
    requires n in m.nodes && HasFailed(s) && before.Keys == m.nodes.Keys
    requires forall v :: v in before && v != n ==> before[v] == m.nodes[v]
    requires ListsCanceled(xs, before, Break(g, m, n, s).nodes)
    ensures n !in xs && AllBelow(g, n, xs)
    ensures forall v :: v in xs ==> v in before && v != n && !before[v].Terminal()
  {
    CancelTargetsAreUnfinished(g, m.nodes[n := s], n);
    forall v | CancelTarget(g, m.nodes[n := s], n, v) ensures Below(g, n, v) {
      var p :| CancelPath(g, m.nodes[n := s], n, v, p);
    }
    hide CancelTarget, Below;
  }

  lemma OpenInMemory(c: Config, mem: Memory, d: Disk, v: NodeId)
    requires Closed(c.g) && Safe(c, d) && Mirrors(c, mem, d) && v in mem.model.nodes && !mem.model.nodes[v].Terminal()
    ensures OpenRow(d, v)
  {
    RowOf(c, mem, d, v);
  }

  lemma RejectedLists(c: Config, mem: Memory, d: Disk, n: NodeId, canceled: seq<NodeId>)
    requires Closed(c.g) && Safe(c, d) && Mirrors(c, mem, d) && n in mem.model.nodes
    requires ListsCanceled(canceled, mem.model.nodes, Break(c.g, Started(mem.model, n), n, Failed).nodes)
    ensures Distinct(canceled) && AllOpen(d, canceled) && n !in canceled && AllBelow(c.g, n, canceled)
  {
    hide Safe, Mirrors, Break;
    assert HasFailed(Failed);
    BreakLists(c.g, Started(mem.model, n), n, Failed, mem.model.nodes, canceled);
    forall v | v in canceled ensures OpenRow(d, v) { OpenInMemory(c, mem, d, v); }
  }

  lemma ResultLists(c: Config, mem: Memory, d: Disk, n: NodeId, s: NodeState, canceled: seq<NodeId>)
    requires Closed(c.g) && Safe(c, d) && Mirrors(c, mem, d) && n in mem.model.nodes && HasFailed(s)
    requires ListsCanceled(canceled, mem.model.nodes, Break(c.g, mem.model, n, s).nodes)
    ensures Distinct(canceled) && AllOpen(d, canceled) && n !in canceled && AllBelow(c.g, n, canceled)
  {
    BreakLists(c.g, mem.model, n, s, mem.model.nodes, canceled);
    hide Safe, Mirrors, Break;
    forall v | v in canceled ensures OpenRow(d, v) { OpenInMemory(c, mem, d, v); }
  }

  lemma DispatchGuarded(c: Config, mem: Memory, d: Disk, op: Op)
    requires Closed(c.g) && Safe(c, d) && Mirrors(c, mem, d) && op.Dispatch? && Enabled(c, mem, d, op)
    ensures AllGuarded(c, d, Writes(c, mem, d, op)) && ApplyAll(d, Writes(c, mem, d, op)) == After(c, mem, d, op)
  {
    hide Safe, Mirrors, Dispatchable, AllGuarded, ApplyAll, DispatchWrites, Published, Rejected, ListsCanceled, Break;
    var n := op.node;
    DispatchableFromMemory(c, mem, d, n);
    if op.published {
      PublishedGuarded(c, d, n, op.expires);
      PublishedWrites(Attempt(n, AttemptCount(d, n) + 1), op.expires, op.canceled);
    } else {
      RejectedLists(c, mem, d, n, op.canceled);
      RejectedGuarded(c, d, n, op.expires, op.canceled);
    }
  }

  lemma PublishedWrites(a: Attempt, expires: int, canceled: seq<NodeId>)
    ensures DispatchWrites(a, expires, true, canceled) == DispatchWrites(a, expires, true, [])
  {
  }

  lemma DeliverGuarded(c: Config, mem: Memory, d: Disk, op: Op)
    requires Closed(c.g) && Safe(c, d) && Mirrors(c, mem, d) && op.Deliver? && Enabled(c, mem, d, op)
    ensures AllGuarded(c, d, Writes(c, mem, d, op)) && ApplyAll(d, Writes(c, mem, d, op)) == After(c, mem, d, op)
  {
    var a := op.attempt;
    if Applies(c, mem, d, a) {
      ApplicableFromMemory(c, mem, d, a);
      assert AttemptSafe(c, d, a);
      if op.reply.GiveUp? || op.reply.Reject? {
        ResultLists(c, mem, d, a.node, if op.reply.GiveUp? then DeadLettered else Failed, op.canceled);
      }
      hide Safe, Mirrors, Applicable;
      ResultGuarded(c, d, a, op.reply, op.canceled);
    } else if Considered(mem, a) {
      ClaimGuarded(c, d, a);
      hide Safe, Mirrors;
      One(c, d, Claim(LedgerKey(c.run, a)));
    }
  }

  /** Terminal rows read the same in memory and on disk. */
  lemma TerminalRows(c: Config, mem: Memory, d: Disk)
    requires Closed(c.g) && Safe(c, d) && Mirrors(c, mem, d)
    ensures mem.model.nodes.Keys == d.status.Keys
    ensures forall v :: v in d.status && mem.model.nodes[v].Terminal() ==> d.status[v] == mem.model.nodes[v]
    ensures forall v :: v in d.status && !mem.model.nodes[v].Terminal() ==> OpenRow(d, v)
  {
    hide Safe, Mirrors, PredsDone, SpentUpTo;
    RowsHaveNodes(c, mem, d);
    forall v | v in d.status
      ensures mem.model.nodes[v].Terminal() ==> d.status[v] == mem.model.nodes[v]
      ensures !mem.model.nodes[v].Terminal() ==> OpenRow(d, v)
    {
      RowOf(c, mem, d, v);
    }
  }

  lemma RowsHaveNodes(c: Config, mem: Memory, d: Disk)
    requires Mirrors(c, mem, d)
    ensures mem.model.nodes.Keys == d.status.Keys
  {
    hide SlotsMirror, SeenMirrors, DueMirrors, PendingCount;
  }

  lemma CancelListsOpen(c: Config, mem: Memory, d: Disk, canceled: seq<NodeId>)
    requires Closed(c.g) && Safe(c, d) && Mirrors(c, mem, d)
    requires ListsCanceled(canceled, mem.model.nodes, CancelAll(mem.model).nodes) && c.cancelable
    ensures Distinct(canceled) && AllOpen(d, canceled) && AllTerminal(CancelRows(d.status, canceled))
    ensures MayCancelAll(c, d.status, canceled)
  {
    hide Safe, Mirrors, Closed, Distinct;
    TerminalRows(c, mem, d);
    forall v | v in mem.model.nodes ensures v in canceled <==> !mem.model.nodes[v].Terminal() { }
  }

  lemma CancelGuarded(c: Config, mem: Memory, d: Disk, op: Op)
    requires Closed(c.g) && Safe(c, d) && Mirrors(c, mem, d) && Enabled(c, mem, d, op) && op.Cancel?
    ensures AllGuarded(c, d, Writes(c, mem, d, op)) && ApplyAll(d, Writes(c, mem, d, op)) == After(c, mem, d, op)
  {
    hide Safe, AllGuarded, ApplyAll, CancelWrites, ListsCanceled, CancelAll, AllTerminal, ShowsOnlyStored;
    assert !Finished(d.run);
    hide Mirrors;
    var ws, end := CancelWrites(op.canceled), [FinishRun(RunCanceled), PublishEvent(RunFinished(op.outcome))];
    CancelListsOpen(c, mem, d, op.canceled);
    CancelWritesGuarded(c, d, op.canceled);
    var e := d.(status := CancelRows(d.status, op.canceled), events := d.events + CancelEvents(op.canceled));
    SafeAtEveryCrashPoint(c, d, ws, |ws|);
    assert ws[..|ws|] == ws;
    SafeShows(c, e);
    hide CancelRows, CancelEvents;
    EndGuarded(c, e, RunCanceled, op.outcome);
    Then(c, d, ws, end);
  }

  lemma VerdictSafe(nodes: Nodes)
    requires AllTerminal(nodes)
    ensures var r := Verdict(nodes);
      Finished(r) && OutcomeSafe(nodes, r) && MapRun(r) == MapOutcome(VerdictOutcome(r))
  {
  }

  lemma SameWhenDone(c: Config, mem: Memory, d: Disk)
    requires Closed(c.g) && Safe(c, d) && Mirrors(c, mem, d) && AllTerminal(mem.model.nodes)
    ensures d.status == mem.model.nodes && !Finished(d.run) && ShowsOnlyStored(d)
  {
    TerminalRows(c, mem, d);
    hide ShowsOnlyStored, RowsSafe, AttemptsSafe, WithinCapacity, OutcomeSafe;
  }

  lemma FinalizeGuarded(c: Config, mem: Memory, d: Disk)
    requires Closed(c.g) && Safe(c, d) && Mirrors(c, mem, d) && AllTerminal(mem.model.nodes)
    ensures var ws := Writes(c, mem, d, Finalize);
      AllGuarded(c, d, ws) && ApplyAll(d, ws) == After(c, mem, d, Finalize)
  {
    hide Safe, Mirrors, AllTerminal, AllGuarded, ApplyAll, ShowsOnlyStored, Verdict, OutcomeSafe, Closed, VerdictOutcome,
      MapOutcome, MapRun, Finished;
    SameWhenDone(c, mem, d);
    VerdictSafe(d.status);
    EndGuarded(c, d, Verdict(mem.model.nodes), VerdictOutcome(Verdict(mem.model.nodes)));
  }

  lemma SafeShows(c: Config, d: Disk)
    requires Safe(c, d)
    ensures ShowsOnlyStored(d)
  {
  }

  lemma RecoveryGuarded(c: Config, mem: Memory, d: Disk, op: Op)
    requires Closed(c.g) && Safe(c, d) && Mirrors(c, mem, d) && Enabled(c, mem, d, op) && (op.Reap? || op.Wake?)
    ensures AllGuarded(c, d, Writes(c, mem, d, op)) && ApplyAll(d, Writes(c, mem, d, op)) == After(c, mem, d, op)
  {
    hide Safe, Mirrors, PredsDone, SpentUpTo, Reaped;
    match op {
      case Reap(a, worker) =>
        if Holds(mem, a.node) { RowOf(c, mem, d, a.node); }
        hide AllGuarded, ApplyAll;
        ReapGuarded(c, d, a, worker, Holds(mem, a.node));
      case Wake(n) =>
        if n in mem.model.nodes && mem.model.nodes[n].RetryWait? {
          RowOf(c, mem, d, n);
          ParkedRow(c, d, n);
          WakeGuarded(c, d, n);
        }
    }
  }

  lemma ParkedRow(c: Config, d: Disk, n: NodeId)
    requires Safe(c, d) && n in d.status && d.status[n].RetryWait?
    ensures SpentUpTo(d, n, AttemptCount(d, n))
  {
    assert RowSafe(c, d, n);
  }

  lemma OpGuarded(c: Config, mem: Memory, d: Disk, op: Op)
    requires Closed(c.g) && Safe(c, d) && Mirrors(c, mem, d) && Enabled(c, mem, d, op)
    ensures AllGuarded(c, d, Writes(c, mem, d, op)) && ApplyAll(d, Writes(c, mem, d, op)) == After(c, mem, d, op)
  {
    hide Safe, Mirrors, Enabled, AllGuarded, ApplyAll, Writes, After;
    match op {
      case Dispatch(_, _, _, _) => DispatchGuarded(c, mem, d, op);
      case Deliver(_, _, _) => DeliverGuarded(c, mem, d, op);
      case Cancel(_, _) => CancelGuarded(c, mem, d, op);
      case Finalize => EnabledFinalize(c, mem, d); FinalizeGuarded(c, mem, d);
      case _ => RecoveryGuarded(c, mem, d, op);
    }
  }

  lemma EnabledFinalize(c: Config, mem: Memory, d: Disk)
    requires Enabled(c, mem, d, Finalize)
    ensures AllTerminal(mem.model.nodes)
  {
  }
}
