/** Where a crash leaves a node in flight that neither the lease scan nor a
  result can move any more (engine/core/src/distributed_run_loop.cpp). */
module CrashWindows {
  import opened Ids
  import opened Graphs
  import opened StateMachines
  import opened LedgerKeys
  import opened Storage
  import opened Views
  import opened DiskSafety
  import opened Protocol
  import opened OpSafety
  import opened Recovery
  import opened Runs

  /** The latest attempt of n has an open lease, which the scan will reap, or it
    was published and its result is still accepted. */
  ghost predicate Recoverable(c: Config, d: Disk, n: NodeId) {
    var a := Attempt(n, AttemptCount(d, n));
    LeaseOpen(d, a) || (a in d.tasks && !Claimed(c, d, a))
  }

  ghost predicate Lost(c: Config, d: Disk, n: NodeId) {
    n in d.status && d.status[n].InFlight() && !Recoverable(c, d, n)
  }

  /** The numbers of completed calls after which a crash loses n. A dispatch that
    is not recorded yet is saved only by an earlier attempt that slips; a claim
    with its lease closed before, and a reap of an attempt that was claimed or
    never published, are lost at once. */
  ghost predicate Loses(c: Config, mem: Memory, d: Disk, op: Op, calls: nat, n: NodeId) {
    match op
    case Dispatch(m, _, _, _) => m == n && ((calls == 1 && !Recoverable(c, d, n)) || 2 <= calls <= 3)
    case Deliver(a, reply, _) =>
      a.node == n && Applies(c, mem, d, a) && ((calls == 1 && !LeaseOpen(d, a)) || (calls == 2 && !reply.Completed?))
    case Reap(a, _) => a.node == n && Holds(mem, n) && calls == 1 && !(a in d.tasks && !Claimed(c, d, a))
    case _ => false
  }

  /** What cutting an operation there makes of n. */
  ghost predicate LosesOnlyThere(c: Config, mem: Memory, d: Disk, op: Op, calls: nat, n: NodeId)
    requires calls <= |Writes(c, mem, d, op)|
  {
    var e := Prefix(c, mem, d, op, calls);
    && (Lost(c, e, n) <==> (Lost(c, d, n) || Loses(c, mem, d, op, calls, n)) && OpenRow(e, n))
    && (Loses(c, mem, d, op, calls, n) ==> OpenRow(e, n))
  }

  // ------------------------------------------------------------------------
  // Rows the calls leave alone
  // ------------------------------------------------------------------------

  /** The call does not move n except to a terminal state, and leaves its
    attempts alone. */
  ghost predicate Harmless(c: Config, w: Write, n: NodeId) {
    match w
    case SetStatus(m, _) => m != n
    case SetRetryWait(a, _) => a.node != n
    case RecordAttempt(a) => a.node != n
    case FinishAttempt(a, _) => a.node != n
    case ExpireLease(a, _) => a.node != n
    case Claim(key) => forall k: nat :: key != LedgerKey(c.run, Attempt(n, k))
    case _ => true
  }

  /** Nor does it publish n or give it a lease. */
  ghost predicate Unrelated(c: Config, w: Write, n: NodeId) {
    Harmless(c, w, n) &&
    match w
    case PublishTask(a) => a.node != n
    case InitLease(a, _) => a.node != n
    case AcquireLease(a, _, _, _) => a.node != n
    case _ => true
  }

  lemma HarmlessKeeps(c: Config, d: Disk, w: Write, n: NodeId)
    requires !Lost(c, d, n) && Harmless(c, w, n)
    ensures !Lost(c, Applied(d, w), n)
  {
    var a, d' := Attempt(n, AttemptCount(d, n)), Applied(d, w);
    assert AttemptCount(d', n) == AttemptCount(d, n);
  }

  /** A lost node stays lost as long as it is open. */
  lemma UnrelatedKeeps(c: Config, d: Disk, w: Write, n: NodeId)
    requires Unrelated(c, w, n)
    ensures Lost(c, Applied(d, w), n) <==> Lost(c, d, n) && OpenRow(Applied(d, w), n)
  {
    var a, d' := Attempt(n, AttemptCount(d, n)), Applied(d, w);
    assert AttemptCount(d', n) == AttemptCount(d, n);
    if !Lost(c, d, n) { HarmlessKeeps(c, d, w, n); }
    hide AttemptCount;
    assert Claimed(c, d, a) ==> Claimed(c, d', a);
  }

  lemma {:induction false} AllHarmlessKeep(c: Config, d: Disk, ws: seq<Write>, n: NodeId)
    requires !Lost(c, d, n) && forall w :: w in ws ==> Harmless(c, w, n)
    ensures !Lost(c, ApplyAll(d, ws), n)
    decreases |ws|
  {
    hide Lost, Harmless, Applied;
    if ws != [] {
      HarmlessKeeps(c, d, ws[0], n);
      AllHarmlessKeep(c, Applied(d, ws[0]), ws[1..], n);
    }
  }

  lemma {:induction false} AllUnrelatedKeep(c: Config, d: Disk, ws: seq<Write>, n: NodeId)
    requires forall w :: w in ws ==> Unrelated(c, w, n)
    ensures Lost(c, ApplyAll(d, ws), n) <==> Lost(c, d, n) && OpenRow(ApplyAll(d, ws), n)
    decreases |ws|
  {
    hide Unrelated, Applied, Recoverable, Grows;
    if ws != [] {
      var mid := Applied(d, ws[0]);
      assert Unrelated(c, ws[0], n);
      UnrelatedKeeps(c, d, ws[0], n);
      AllUnrelatedKeep(c, mid, ws[1..], n);
      ApplyAllGrows(mid, ws[1..]);
      RowsStay(d, ws[0]);
      OpenBefore(mid, ApplyAll(mid, ws[1..]), n);
    }
  }

  lemma RowsStay(d: Disk, w: Write)
    ensures d.status.Keys == Applied(d, w).status.Keys
  {
  }

  lemma OpenBefore(d: Disk, d': Disk, n: NodeId)
    requires Grows(d, d')
    ensures OpenRow(d', n) && n in d.status ==> OpenRow(d, n)
  {
  }

  /** Once head has run and not lost n, harmless calls do not lose it. */
  lemma KeptAfter(c: Config, d: Disk, ws: seq<Write>, head: nat, calls: nat, n: NodeId)
    requires head <= calls <= |ws| && !Lost(c, ApplyAll(d, ws[..head]), n)
    requires forall w :: w in ws[head..] ==> Harmless(c, w, n)
    ensures !Lost(c, ApplyAll(d, ws[..calls]), n)
  {
    hide Lost, Harmless, Applied;
    ApplyAllConcat(d, ws[..head], ws[head..calls]);
    assert ws[..head] + ws[head..calls] == ws[..calls];
    AllHarmlessKeep(c, ApplyAll(d, ws[..head]), ws[head..calls], n);
  }

  /** A terminal row is not lost. */
  lemma KeptOnceTerminal(c: Config, d: Disk, ws: seq<Write>, head: nat, calls: nat, n: NodeId)
    requires head <= calls <= |ws|
    requires var e := ApplyAll(d, ws[..head]); n in e.status && e.status[n].Terminal()
    ensures !Lost(c, ApplyAll(d, ws[..calls]), n)
  {
    hide Applied;
    ApplyAllConcat(d, ws[..head], ws[head..calls]);
    assert ws[..head] + ws[head..calls] == ws[..calls];
    ApplyAllGrows(ApplyAll(d, ws[..head]), ws[head..calls]);
  }

  lemma ApplyOne(d: Disk, ws: seq<Write>)
    requires |ws| >= 1
    ensures ApplyAll(d, ws[..1]) == Applied(d, ws[0])
  {
    hide Applied;
    assert ws[..1][1..] == [];
  }

  lemma ApplyNext(d: Disk, ws: seq<Write>, i: nat)
    requires i < |ws|
    ensures ApplyAll(d, ws[..i + 1]) == Applied(ApplyAll(d, ws[..i]), ws[i])
  {
    hide Applied;
    ApplyAllConcat(d, ws[..i], [ws[i]]);
    assert ws[..i + 1] == ws[..i] + [ws[i]];
    ApplyOne(ApplyAll(d, ws[..i]), [ws[i]]);
    assert [ws[i]][..1] == [ws[i]];
  }

  lemma {:induction false} CancelsHarmless(c: Config, xs: seq<NodeId>, n: NodeId)
    ensures forall w :: w in CancelWrites(xs) ==> Harmless(c, w, n)
  {
    if xs != [] { CancelsHarmless(c, xs[1..], n); }
  }

  lemma ClaimHarmless(c: Config, a: Attempt, n: NodeId)
    requires a.node != n
    ensures Harmless(c, Claim(LedgerKey(c.run, a)), n)
  {
    forall k: nat ensures LedgerKey(c.run, a) != LedgerKey(c.run, Attempt(n, k)) {
      if LedgerKey(c.run, a) == LedgerKey(c.run, Attempt(n, k)) { KeyInjectiveInRun(c.run, a, Attempt(n, k)); }
    }
  }

  // ------------------------------------------------------------------------
  // Each operation
  // ------------------------------------------------------------------------

  ghost function Prefix(c: Config, mem: Memory, d: Disk, op: Op, calls: nat): Disk
    requires calls <= |Writes(c, mem, d, op)|
  {
    ApplyAll(d, Writes(c, mem, d, op)[..calls])
  }

  /** The node whose row an operation moves first. */
  function Subject(op: Op): Option<NodeId> {
    match op
    case Dispatch(n, _, _, _) => Some(n)
    case Deliver(a, _, _) => Some(a.node)
    case Reap(a, _) => Some(a.node)
    case Wake(n) => Some(n)
    case _ => None
  }

  lemma WritesHarmless(c: Config, mem: Memory, d: Disk, op: Op, n: NodeId)
    requires Subject(op) != Some(n)
    ensures forall w :: w in Writes(c, mem, d, op) ==> Harmless(c, w, n)
  {
    hide Considered, Applies, Claimed, LedgerKey, Holds, CancelWrites, Verdict;
    match op {
      case Dispatch(_, _, _, canceled) => CancelsHarmless(c, canceled, n);
      case Deliver(a, _, canceled) => CancelsHarmless(c, canceled, n); ClaimHarmless(c, a, n);
      case Cancel(_, canceled) => CancelsHarmless(c, canceled, n);
      case _ =>
    }
  }

  lemma {:induction false} CancelsUnrelated(c: Config, xs: seq<NodeId>, n: NodeId)
    ensures forall w :: w in CancelWrites(xs) ==> Unrelated(c, w, n)
  {
    if xs != [] { CancelsUnrelated(c, xs[1..], n); }
  }

  lemma WritesUnrelated(c: Config, mem: Memory, d: Disk, op: Op, n: NodeId)
    requires Subject(op) != Some(n)
    ensures forall w :: w in Writes(c, mem, d, op) ==> Unrelated(c, w, n)
  {
    hide Considered, Applies, Claimed, LedgerKey, Holds, CancelWrites, Verdict;
    match op {
      case Dispatch(_, _, _, canceled) => CancelsUnrelated(c, canceled, n);
      case Deliver(a, _, canceled) => CancelsUnrelated(c, canceled, n); ClaimHarmless(c, a, n);
      case Cancel(_, canceled) => CancelsUnrelated(c, canceled, n);
      case _ =>
    }
  }

  lemma OthersLose(c: Config, mem: Memory, d: Disk, op: Op, calls: nat, n: NodeId)
    requires Subject(op) != Some(n) && calls <= |Writes(c, mem, d, op)|
    ensures LosesOnlyThere(c, mem, d, op, calls, n)
  {
    hide Lost, Unrelated, Writes, Applies, Recoverable, OpenRow;
    var ws := Writes(c, mem, d, op)[..calls];
    WritesUnrelated(c, mem, d, op, n);
    assert forall w :: w in ws ==> w in Writes(c, mem, d, op);
    AllUnrelatedKeep(c, d, ws, n);
  }

  lemma RestingNotLost(c: Config, d: Disk, n: NodeId)
    requires n in d.status ==> !d.status[n].InFlight()
    ensures !Lost(c, d, n)
  {
  }

  lemma DispatchWindow(c: Config, mem: Memory, d: Disk, op: Op, calls: nat)
    requires Closed(c.g) && Safe(c, d) && Mirrors(c, mem, d) && Enabled(c, mem, d, op) && op.Dispatch?
    requires calls <= |Writes(c, mem, d, op)|
    ensures LosesOnlyThere(c, mem, d, op, calls, op.node)
  {
    hide Safe, Mirrors, Closed, SpentUpTo, PredsDone, HasRoom, Lost, Recoverable, ApplyAll, Claimed, Recorded, LeaseOpen,
      ListsCanceled, Break;
    var n := op.node;
    DispatchableFromMemory(c, mem, d, n);
    FreshAttempt(c, d, n);
    hide Enabled;
    var a := Attempt(n, AttemptCount(d, n) + 1);
    var ws := Writes(c, mem, d, op);
    DispatchShape(c, mem, d, op);
    hide Writes;
    NoCalls(d, ws);
    RestingNotLost(c, d, n);
    if 1 <= calls <= 4 {
      DispatchTorn(c, d, ws, a, op.expires, calls);
    } else if calls >= 5 {
      DispatchOut(c, d, ws, a, op.expires, op.published, calls);
    }
  }

  lemma NoCalls(d: Disk, ws: seq<Write>)
    ensures ApplyAll(d, ws[..0]) == d
  {
  }

  lemma DispatchShape(c: Config, mem: Memory, d: Disk, op: Op)
    requires op.Dispatch? && Current(mem, op.node) == AttemptCount(d, op.node)
    ensures var ws, a := Writes(c, mem, d, op), Attempt(op.node, AttemptCount(d, op.node) + 1);
      && |ws| >= 6 && ws[..4] == Prelude(a, op.expires)
      && ws[4] == (if op.published then PublishTask(a) else CompleteNode(a.node, Failed))
      && (op.published ==> |ws| == 6 && ws[5] == PublishEvent(NodeDispatched(a.node)))
  {
    hide CancelWrites;
  }

  /** The durable states inside a dispatch. */
  lemma PreludeStates(d: Disk, ws: seq<Write>, a: Attempt, expires: int)
    requires |ws| >= 4 && ws[..4] == Prelude(a, expires)
    requires OpenRow(d, a.node) && !Recorded(d, a) && a !in d.leases
    ensures ApplyAll(d, ws[..1]) == d.(status := d.status[a.node := Dispatched])
    ensures var attempts := d.attempts[a.node := AttemptsOf(d, a.node) + {a.number}];
      && ApplyAll(d, ws[..2]) == d.(status := d.status[a.node := Dispatched], attempts := attempts)
      && ApplyAll(d, ws[..3]) == d.(status := d.status[a.node := Running], attempts := attempts)
    ensures ApplyAll(d, ws[..4]) == Opened(d, a, expires)
  {
    hide ApplyAll, Applied, Recorded, OpenRow;
    assert ws[0] == ws[..4][0] && ws[1] == ws[..4][1] && ws[2] == ws[..4][2] && ws[3] == ws[..4][3];
    PreludeEffect(d, a, expires);
    ApplyOne(d, ws);
    ApplyNext(d, ws, 1);
    ApplyNext(d, ws, 2);
    ApplyNext(d, ws, 3);
  }

  lemma DispatchTorn(c: Config, d: Disk, ws: seq<Write>, a: Attempt, expires: int, calls: nat)
    requires |ws| >= 4 && ws[..4] == Prelude(a, expires) && 1 <= calls <= 4
    requires OpenRow(d, a.node) && a.number == AttemptCount(d, a.node) + 1
    requires !Recorded(d, a) && a !in d.tasks && a !in d.leases
    ensures var e := ApplyAll(d, ws[..calls]);
      OpenRow(e, a.node) && (Lost(c, e, a.node) <==> (calls == 1 && !Recoverable(c, d, a.node)) || 2 <= calls <= 3)
  {
    hide LedgerKey, ApplyAll, Prelude;
    PreludeStates(d, ws, a, expires);
    var e := ApplyAll(d, ws[..calls]);
    assert e.status[a.node].InFlight() && e.tasks == d.tasks;
    if calls == 1 {
      assert AttemptCount(e, a.node) == AttemptCount(d, a.node);
    } else {
      assert a == Attempt(a.node, AttemptCount(e, a.node));
    }
  }

  lemma DispatchOut(c: Config, d: Disk, ws: seq<Write>, a: Attempt, expires: int, published: bool, calls: nat)
    requires |ws| >= 6 && ws[..4] == Prelude(a, expires) && 5 <= calls <= |ws|
    requires ws[4] == if published then PublishTask(a) else CompleteNode(a.node, Failed)
    requires published ==> |ws| == 6 && ws[5] == PublishEvent(NodeDispatched(a.node))
    requires OpenRow(d, a.node) && a.number == AttemptCount(d, a.node) + 1 && !Recorded(d, a) && a !in d.leases
    ensures !Lost(c, ApplyAll(d, ws[..calls]), a.node)
  {
    hide LedgerKey, Lost, ApplyAll, Prelude, Claimed, Recorded;
    PreludeStates(d, ws, a, expires);
    ApplyNext(d, ws, 4);
    if published {
      OpenedThenPublished(c, d, a, expires);
      assert ws[5..] == [ws[5]];
      KeptAfter(c, d, ws, 5, calls, a.node);
    } else {
      assert OpenRow(Opened(d, a, expires), a.node);
      KeptOnceTerminal(c, d, ws, 5, calls, a.node);
    }
  }

  lemma OpenedThenPublished(c: Config, d: Disk, a: Attempt, expires: int)
    requires OpenRow(d, a.node) && a.number == AttemptCount(d, a.node) + 1 && !Recorded(d, a)
    ensures !Lost(c, Applied(Opened(d, a, expires), PublishTask(a)), a.node)
  {
    hide Claimed, Opened;
    var o := Opened(d, a, expires);
    OpenedLease(d, a, expires);
    var e := Applied(o, PublishTask(a));
    assert AttemptCount(e, a.node) == AttemptCount(o, a.node);
    assert a == Attempt(a.node, AttemptCount(e, a.node));
  }

  lemma OpenedLease(d: Disk, a: Attempt, expires: int)
    requires a.number == AttemptCount(d, a.node) + 1 && !Recorded(d, a)
    ensures var o := Opened(d, a, expires); AttemptCount(o, a.node) == a.number && LeaseOpen(o, a)
  {
  }

  lemma ResultWindow(c: Config, mem: Memory, d: Disk, op: Op, calls: nat)
    requires Closed(c.g) && Safe(c, d) && Mirrors(c, mem, d) && Enabled(c, mem, d, op) && op.Deliver?
    requires Applies(c, mem, d, op.attempt) && calls <= |Writes(c, mem, d, op)|
    ensures LosesOnlyThere(c, mem, d, op, calls, op.attempt.node)
  {
    hide Safe, Mirrors, Closed, PredsDone, Lost, ApplyAll, ListsCanceled, Break;
    var a, n := op.attempt, op.attempt.node;
    ApplicableFromMemory(c, mem, d, a);
    TaskRecorded(c, d, a);
    AwaitedNotLost(c, d, a);
    if op.reply.Retry? { assert CancelWrites(op.canceled) == []; }
    hide Enabled;
    var ws := Writes(c, mem, d, op);
    ResultShape(c, mem, d, op);
    hide Writes, Applies;
    NoCalls(d, ws);
    if op.reply.Retry? { assert ws[3..] == [ws[..4][3]]; }
    if 0 < calls { ResultTorn(c, d, ws, a, op.reply, calls); }
  }

  lemma AwaitedNotLost(c: Config, d: Disk, a: Attempt)
    requires a in d.tasks && Latest(d, a) && !Claimed(c, d, a)
    ensures !Lost(c, d, a.node)
  {
    assert a == Attempt(a.node, AttemptCount(d, a.node));
  }

  lemma TaskRecorded(c: Config, d: Disk, a: Attempt)
    requires Safe(c, d) && a in d.tasks
    ensures Recorded(d, a)
  {
    assert AttemptSafe(c, d, a);
  }

  lemma ResultShape(c: Config, mem: Memory, d: Disk, op: Op)
    requires op.Deliver? && Applies(c, mem, d, op.attempt)
    ensures var ws := Writes(c, mem, d, op);
      && |ws| >= 4 && ws[..4] == ResultHead(c, op.attempt, op.reply)
      && ws[4..] == CancelWrites(op.canceled)
  {
    hide CancelWrites, Applies;
  }

  lemma ResultTorn(c: Config, d: Disk, ws: seq<Write>, a: Attempt, reply: Reply, calls: nat)
    requires |ws| >= 4 && ws[..4] == ResultHead(c, a, reply) && 1 <= calls <= |ws|
    requires Applicable(c, d, a) && Recorded(d, a)
    requires reply.Retry? ==> forall w :: w in ws[3..] ==> Harmless(c, w, a.node)
    ensures var e, lost := ApplyAll(d, ws[..calls]), (calls == 1 && !LeaseOpen(d, a)) || (calls == 2 && !reply.Completed?);
      (Lost(c, e, a.node) <==> lost) && (lost ==> OpenRow(e, a.node))
  {
    hide PredsDone, Harmless;
    var n := a.node;
    ClaimGuarded(c, d, a);
    hide LedgerKey;
    ApplyOne(d, ws);
    ApplyNext(d, ws, 1);
    var d1, d2 := ApplyAll(d, ws[..1]), ApplyAll(d, ws[..2]);
    assert ws[0] == ws[..4][0] && ws[1] == ws[..4][1] && ws[2] == ws[..4][2];
    assert a == Attempt(n, AttemptCount(d1, n)) && d1 == ClaimedDisk(c, d, a);
    if reply.Completed? {
      if calls > 1 { KeptOnceTerminal(c, d, ws, 2, calls, n); }
    } else if calls > 2 {
      ApplyNext(d, ws, 2);
      if reply.Retry? {
        KeptAfter(c, d, ws, 3, calls, n);
      } else {
        KeptOnceTerminal(c, d, ws, 3, calls, n);
      }
    } else if calls == 2 {
      assert a == Attempt(n, AttemptCount(d2, n)) && Claimed(c, d2, a);
    }
  }

  lemma IgnoredWindow(c: Config, mem: Memory, d: Disk, op: Op, calls: nat)
    requires op.Deliver? && !Applies(c, mem, d, op.attempt) && calls <= |Writes(c, mem, d, op)|
    ensures Prefix(c, mem, d, op, calls) == d
  {
    hide LedgerKey, ApplyAll;
    var ws := Writes(c, mem, d, op);
    NoCalls(d, ws);
    if calls > 0 {
      assert calls == 1;
      ApplyOne(d, ws);
    }
  }

  lemma ReapWindow(c: Config, mem: Memory, d: Disk, op: Op, calls: nat)
    requires Closed(c.g) && Safe(c, d) && Mirrors(c, mem, d) && Enabled(c, mem, d, op) && op.Reap?
    requires calls <= |Writes(c, mem, d, op)|
    ensures LosesOnlyThere(c, mem, d, op, calls, op.attempt.node)
  {
    hide Safe, Mirrors, Closed, LedgerKey, ApplyAll, Lost, Claimed, Holds, Applied;
    var a, n := op.attempt, op.attempt.node;
    var ws := Writes(c, mem, d, op);
    FlightAgrees(c, mem, d, n);
    OpenLeaseIsLatest(c, d, a);
    NoCalls(d, ws);
    ReapedOnce(c, d, a, op.worker);
    if calls > 0 {
      ApplyOne(d, ws);
      if calls > 1 { ReapSettled(c, d, ApplyAll(d, ws[..1]), ws, a, op.worker, calls, Holds(mem, n)); }
    }
  }

  lemma ReapedOnce(c: Config, d: Disk, a: Attempt, worker: string)
    requires LeaseOpen(d, a) && d.leases[a].worker == worker && a == Attempt(a.node, AttemptCount(d, a.node))
    ensures !Lost(c, d, a.node)
    ensures var e := Applied(d, ExpireLease(a, worker));
      && e.status == d.status
      && (Lost(c, e, a.node) <==> a.node in d.status && d.status[a.node].InFlight() && !(a in d.tasks && !Claimed(c, d, a)))
  {
    hide LedgerKey;
    var e := Applied(d, ExpireLease(a, worker));
    assert e == d.(leases := CloseLease(d, a, LeaseExpired));
    assert AttemptCount(e, a.node) == AttemptCount(d, a.node);
  }

  lemma FlightAgrees(c: Config, mem: Memory, d: Disk, n: NodeId)
    requires Closed(c.g) && Safe(c, d) && Mirrors(c, mem, d)
    ensures Holds(mem, n) <==> n in d.status && d.status[n].InFlight()
  {
    if n in mem.model.nodes { RowOf(c, mem, d, n); } else { SameKeys(c, mem, d); }
  }

  lemma OpenLeaseIsLatest(c: Config, d: Disk, a: Attempt)
    requires Safe(c, d) && LeaseOpen(d, a)
    ensures a == Attempt(a.node, AttemptCount(d, a.node))
  {
    assert AttemptSafe(c, d, a);
  }

  lemma ReapSettled(c: Config, d: Disk, d1: Disk, ws: seq<Write>, a: Attempt, worker: string, calls: nat,
      held: bool)
    requires ws == [ExpireLease(a, worker)] + (if held then [SetStatus(a.node, Ready)] else []) +
                   [PublishEvent(NodeLeaseExpired(a.node))]
    requires d1 == ApplyAll(d, ws[..1]) && d1.status == d.status && 1 < calls <= |ws|
    requires held <==> a.node in d.status && d.status[a.node].InFlight()
    ensures !Lost(c, ApplyAll(d, ws[..calls]), a.node)
  {
    hide ApplyAll;
    if held {
      ApplyNext(d, ws, 1);
      assert ws[2..] == [PublishEvent(NodeLeaseExpired(a.node))];
      KeptAfter(c, d, ws, 2, calls, a.node);
    } else {
      assert ws[1..] == [PublishEvent(NodeLeaseExpired(a.node))];
      KeptAfter(c, d, ws, 1, calls, a.node);
    }
  }

  lemma WakeWindow(c: Config, mem: Memory, d: Disk, op: Op, calls: nat)
    requires Mirrors(c, mem, d) && Enabled(c, mem, d, op) && op.Wake? && calls <= |Writes(c, mem, d, op)|
    ensures LosesOnlyThere(c, mem, d, op, calls, op.node)
  {
    hide Mirrors, ApplyAll, Recoverable, Lost;
    DueIsParked(c, mem, d, op.node);
    var ws := Writes(c, mem, d, op);
    NoCalls(d, ws);
    RestingNotLost(c, d, op.node);
    if calls > 0 {
      ApplyOne(d, ws);
      RestingNotLost(c, ApplyAll(d, ws[..1]), op.node);
    }
  }

  lemma IgnoredLoses(c: Config, mem: Memory, d: Disk, op: Op, calls: nat)
    requires op.Deliver? && !Applies(c, mem, d, op.attempt) && calls <= |Writes(c, mem, d, op)|
    ensures LosesOnlyThere(c, mem, d, op, calls, op.attempt.node)
  {
    IgnoredWindow(c, mem, d, op, calls);
    hide Writes, Applies, Recoverable;
  }

  /** Cut anywhere, an operation loses a node exactly in its windows, and a lost
    node stays lost as long as its row is open. */
  lemma PrefixLoses(c: Config, mem: Memory, d: Disk, op: Op, calls: nat, n: NodeId)
    requires Closed(c.g) && Safe(c, d) && Mirrors(c, mem, d) && Enabled(c, mem, d, op)
    requires calls <= |Writes(c, mem, d, op)|
    ensures LosesOnlyThere(c, mem, d, op, calls, n)
  {
    hide Safe, Mirrors, Enabled, Writes, LosesOnlyThere, Closed, Applies;
    if Subject(op) != Some(n) {
      OthersLose(c, mem, d, op, calls, n);
    } else {
      match op {
        case Dispatch(_, _, _, _) => DispatchWindow(c, mem, d, op, calls);
        case Deliver(a, _, _) =>
          if Applies(c, mem, d, a) { ResultWindow(c, mem, d, op, calls); } else { IgnoredLoses(c, mem, d, op, calls); }
        case Reap(_, _) => ReapWindow(c, mem, d, op, calls);
        case Wake(_) => WakeWindow(c, mem, d, op, calls);
      }
    }
  }
}
