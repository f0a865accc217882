/** Stranded nodes over whole runs: when a node is stranded, and what can still
  move it (engine/core/src/distributed_run_loop.cpp). */
module StrandedRuns {
  import opened Ids
  import opened Graphs
  import opened StateMachines
  import opened LedgerKeys
  import opened Storage
  import opened DiskSafety
  import opened Protocol
  import opened OpSafety
  import opened Recovery
  import opened Runs
  import opened RunLaws
  import opened CrashWindows
  import opened Strandings

  /** The step is a crash in one of v's windows. */
  ghost predicate StrandingCrash(c: Config, w: World, l: Label, v: NodeId) {
    l.Crash? && Strands(c, w.mem, w.disk, l.op, l.calls, v)
  }

  // ------------------------------------------------------------------------
  // When a node is stranded
  // ------------------------------------------------------------------------

  /** A worker takes or renews a lease. */
  lemma WorkerKeepsLost(c: Config, d: Disk, call: Write, v: NodeId)
    requires call.RenewLease? || (call.AcquireLease? && call.attempt in d.leases)
    ensures Lost(c, Applied(d, call), v) <==> Lost(c, d, v)
    ensures Applied(d, call).status == d.status
  {
    hide LedgerKey;
    assert AttemptCount(Applied(d, call), v) == AttemptCount(d, v);
  }

  lemma SideCallStrands(c: Config, d: Disk, call: Write, v: NodeId)
    requires call.Claim? || call.PublishEvent?
    requires Unrelated(c, call, v)
    ensures Stranded(c, Applied(d, call), v) <==> Stranded(c, d, v)
    ensures Applied(d, call).status == d.status
  {
    hide Lost, Orphaned, Harmless;
    UnrelatedKeeps(c, d, call, v);
    LostIsOpen(c, d, v);
  }

  lemma LostIsOpen(c: Config, d: Disk, v: NodeId)
    ensures Stranded(c, d, v) ==> OpenRow(d, v)
  {
    hide Recoverable, BrokenPred;
  }

  lemma TaskHasLease(c: Config, d: Disk, a: Attempt)
    requires Safe(c, d) && a in d.tasks
    ensures a in d.leases
  {
    assert AttemptSafe(c, d, a);
  }

  lemma AliveParts(c: Config, w: World)
    requires Good(c, w) && Alive(w)
    ensures Safe(c, w.disk) && Mirrors(c, w.mem, w.disk)
  {
  }

  lemma WorkerStrands(c: Config, w: World, l: Label, w': World, v: NodeId)
    requires Good(c, w) && Advance(c, w, l, w') && l.Worker?
    ensures (Stranded(c, w'.disk, v) <==> Stranded(c, w.disk, v)) && w'.disk.status == w.disk.status
  {
    hide Safe, Mirrors, Lost, Orphaned, Applied;
    if l.call.AcquireLease? { TaskHasLease(c, w.disk, l.call.attempt); }
    WorkerKeepsLost(c, w.disk, l.call, v);
  }

  /** A step strands a node exactly if it is a crash in one of its windows. */
  lemma StepStrands(c: Config, w: World, l: Label, w': World, v: NodeId)
    requires Closed(c.g) && Good(c, w) && Advance(c, w, l, w')
    ensures Stranded(c, w'.disk, v) <==> (Stranded(c, w.disk, v) || StrandingCrash(c, w, l, v)) && OpenRow(w'.disk, v)
    ensures StrandingCrash(c, w, l, v) ==> OpenRow(w'.disk, v)
  {
    hide Good, Enabled, Writes, Next, Stranded, Closed, ApplyAll, LedgerKey, Strands, Recovered, Applied, OpenRow;
    LostIsOpen(c, w.disk, v);
    match l {
      case Do(op) =>
        EnabledRuns(c, w, op);
        AliveParts(c, w);
        var ws := Writes(c, w.mem, w.disk, op);
        assert ws[..|ws|] == ws;
        StrandedIff(c, w.mem, w.disk, op, |ws|, v);
        NoneStrandedAtEnd(c, w.mem, w.disk, op, v);
      case Crash(op, calls) =>
        EnabledRuns(c, w, op);
        AliveParts(c, w);
        StrandedIff(c, w.mem, w.disk, op, calls, v);
      case Worker(call) =>
        WorkerStrands(c, w, l, w', v);
        LostIsOpen(c, w'.disk, v);
      case OtherRun(key) =>
        SideCallStrands(c, w.disk, Claim(key), v);
        LostIsOpen(c, w'.disk, v);
      case Announce =>
        SideCallStrands(c, w.disk, PublishEvent(RunResumed), v);
        LostIsOpen(c, w'.disk, v);
    }
  }

  ghost predicate StrandedBefore(c: Config, ws: seq<World>, ls: seq<Label>, i: nat, v: NodeId)
    requires i <= |ls| < |ws|
  {
    exists k :: 0 <= k < i && StrandingCrash(c, ws[k], ls[k], v)
  }

  lemma StepKeepsOpen(c: Config, w: World, l: Label, w': World, v: NodeId)
    requires Closed(c.g) && Good(c, w) && Advance(c, w, l, w')
    ensures OpenRow(w'.disk, v) ==> OpenRow(w.disk, v)
  {
    hide Good, Enabled, Writes, Next, Closed, ApplyAll, LedgerKey, Recovered, Advance;
    StepKeepsGood(c, w, l, w');
    StepGrows(c, w, l, w');
    GoodKeys(c, w);
    GoodKeys(c, w');
    OpenBefore(w.disk, w'.disk, v);
  }

  lemma GoodKeys(c: Config, w: World)
    requires Good(c, w)
    ensures w.disk.status.Keys == c.g.nodes
  {
  }

  lemma InitialNotStranded(c: Config, w: World, v: NodeId)
    requires Initial(c, w)
    ensures !Stranded(c, w.disk, v)
  {
  }

  /** Over all runs: a node is stranded exactly if a crash fell in one of its
    windows and its row is still open. */
  lemma {:induction false} StrandedAtIff(c: Config, ws: seq<World>, ls: seq<Label>, i: nat, v: NodeId)
    requires Closed(c.g) && IsExecution(c, ws, ls) && i < |ws|
    ensures Stranded(c, ws[i].disk, v) <==> StrandedBefore(c, ws, ls, i, v) && OpenRow(ws[i].disk, v)
  {
    hide Good, Advance, Initial, Stranded, StrandingCrash, OpenRow;
    if i == 0 {
      InitialNotStranded(c, ws[0], v);
    } else {
      StrandedAtIff(c, ws, ls, i - 1, v);
      RunsAreGood(c, ws, ls, i - 1);
      var l := ls[i - 1];
      StepStrands(c, ws[i - 1], l, ws[i], v);
      StepKeepsOpen(c, ws[i - 1], l, ws[i], v);
    }
  }

  // ------------------------------------------------------------------------
  // What can still move a stranded node
  // ------------------------------------------------------------------------

  /** The step is a cancellation of the run, whole or cut short. */
  predicate CancelsRun(l: Label) {
    (l.Do? || l.Crash?) && l.op.Cancel?
  }

  /** The node that an operation fails for good. */
  ghost function FailingNode(c: Config, mem: Memory, d: Disk, op: Op): Option<NodeId> {
    match op
    case Dispatch(n, _, published, _) => if published then None else Some(n)
    case Deliver(a, reply, _) =>
      if Applies(c, mem, d, a) && (reply.GiveUp? || reply.Reject?) then Some(a.node) else None
    case _ => None
  }

  /** The step fails some node above v, whole or cut short. */
  ghost predicate FailsAbove(c: Config, w: World, l: Label, v: NodeId) {
    (l.Do? || l.Crash?) &&
    match FailingNode(c, w.mem, w.disk, l.op)
    case Some(x) => Below(c.g, x, v)
    case None => false
  }

  lemma LostRow(c: Config, mem: Memory, d: Disk, op: Op, calls: nat, n: NodeId)
    requires Closed(c.g) && Safe(c, d) && Mirrors(c, mem, d) && Enabled(c, mem, d, op) && !op.Cancel? && Lost(c, d, n)
    ensures var rows := RowsAfter(c, mem, d, op, calls); n in rows && rows[n] == d.status[n]
  {
    hide Safe, Mirrors, Closed, ListsCanceled, Break, Stored, Fated, HasSlot, Applies, Recoverable;
    match op {
      case Dispatch(m, _, published, xs) =>
        ReadyShape(c, mem, d, m);
        if !published {
          BreakStarted(c.g, mem.model, m, Failed);
          BreakMirrors(c, mem, d, m, Failed, xs);
        }
      case Deliver(a, reply, xs) =>
        if Applies(c, mem, d, a) {
          AppliedNotLost(c, mem, d, op);
          RunningInMemory(c, mem, d, a);
          if reply.GiveUp? || reply.Reject? { BreakMirrors(c, mem, d, a.node, StateAfter(reply), xs); }
        }
      case Reap(a, worker) =>
        OpenLeaseIsLatest(c, d, a);
        hide Holds;
        ReapedOnce(c, d, a, worker);
      case Wake(m) => DueIsParked(c, mem, d, m);
      case Finalize =>
    }
  }

  lemma RunningInMemory(c: Config, mem: Memory, d: Disk, a: Attempt)
    requires Applies(c, mem, d, a)
    ensures a.node in mem.model.nodes && mem.model.nodes[a.node].Running?
  {
  }

  lemma AppliedNotLost(c: Config, mem: Memory, d: Disk, op: Op)
    requires Closed(c.g) && Safe(c, d) && Mirrors(c, mem, d) && Enabled(c, mem, d, op)
    requires op.Deliver? && Applies(c, mem, d, op.attempt)
    ensures !Lost(c, d, op.attempt.node)
  {
    hide Safe, Mirrors, ListsCanceled, Break, Fated;
    ApplicableFromMemory(c, mem, d, op.attempt);
    AwaitedNotLost(c, d, op.attempt);
  }

  /** Whether whole or cut short, an operation that cancels nothing leaves a lost
    node's row as it is. */
  lemma LostStays(c: Config, w: World, l: Label, w': World, n: NodeId)
    requires Closed(c.g) && Good(c, w) && Advance(c, w, l, w') && Lost(c, w.disk, n) && !CancelsRun(l)
    ensures n in w'.disk.status && w'.disk.status[n] == w.disk.status[n] && Lost(c, w'.disk, n)
  {
    hide Good, Enabled, Writes, Next, Closed, ApplyAll, LedgerKey, Recovered, Applied, RowsAfter, Recoverable, Orphaned, Strands;
    match l {
      case Do(op) =>
        EnabledRuns(c, w, op);
        AliveParts(c, w);
        var ws := Writes(c, w.mem, w.disk, op);
        assert ws[..|ws|] == ws;
        PrefixRows(c, w.mem, w.disk, op, |ws|);
        LostRow(c, w.mem, w.disk, op, |ws|, n);
        PrefixLoses(c, w.mem, w.disk, op, |ws|, n);
      case Crash(op, calls) =>
        EnabledRuns(c, w, op);
        AliveParts(c, w);
        PrefixRows(c, w.mem, w.disk, op, calls);
        LostRow(c, w.mem, w.disk, op, calls, n);
        PrefixLoses(c, w.mem, w.disk, op, calls, n);
      case Worker(call) => WorkerKeepsRow(c, w, l, w', n);
      case OtherRun(key) => UnrelatedKeeps(c, w.disk, Claim(key), n); SideCallStrands(c, w.disk, Claim(key), n);
      case Announce =>
        UnrelatedKeeps(c, w.disk, PublishEvent(RunResumed), n);
        SideCallStrands(c, w.disk, PublishEvent(RunResumed), n);
    }
  }

  lemma WorkerKeepsRow(c: Config, w: World, l: Label, w': World, v: NodeId)
    requires Good(c, w) && Advance(c, w, l, w') && l.Worker?
    ensures (Lost(c, w'.disk, v) <==> Lost(c, w.disk, v)) && w'.disk.status == w.disk.status
  {
    hide Safe, Mirrors, Lost, Applied;
    if l.call.AcquireLease? { TaskHasLease(c, w.disk, l.call.attempt); }
    WorkerKeepsLost(c, w.disk, l.call, v);
  }

  ghost predicate NoCancelBetween(ls: seq<Label>, i: nat, j: nat)
    requires j <= |ls|
  {
    forall k {:trigger ls[k]} :: i <= k < j ==> !CancelsRun(ls[k])
  }

  /** A lost node is never moved again, whatever follows, unless the run is
    canceled; and so the run does not end. */
  lemma {:induction false} LostForGood(c: Config, ws: seq<World>, ls: seq<Label>, i: nat, j: nat, n: NodeId)
    requires Closed(c.g) && IsExecution(c, ws, ls) && i <= j < |ws| && j <= |ls| && NoCancelBetween(ls, i, j)
    requires Lost(c, ws[i].disk, n)
    ensures Lost(c, ws[j].disk, n) && ws[j].disk.status[n] == ws[i].disk.status[n] && !Finished(ws[j].disk.run)
    decreases j
  {
    hide Good, Advance, Initial, Recoverable, CancelsRun, Finished;
    RunsAreGood(c, ws, ls, j);
    if i < j {
      assert NoCancelBetween(ls, i, j - 1);
      LostForGood(c, ws, ls, i, j - 1, n);
      RunsAreGood(c, ws, ls, j - 1);
      var l := ls[j - 1];
      LostStays(c, ws[j - 1], l, ws[j], n);
    }
    OpenIsUnfinished(c, ws[j], n);
  }

  lemma OpenIsUnfinished(c: Config, w: World, n: NodeId)
    requires Good(c, w)
    ensures OpenRow(w.disk, n) ==> !Finished(w.disk.run)
  {
    hide RowsSafe, AttemptsSafe, WithinCapacity, EndsWell, Mirrors;
  }

  lemma OrphanRow(c: Config, mem: Memory, d: Disk, op: Op, calls: nat, v: NodeId)
    requires Closed(c.g) && Safe(c, d) && Mirrors(c, mem, d) && Enabled(c, mem, d, op) && !op.Cancel?
    requires Orphaned(c.g, d.status, v)
    requires FailingNode(c, mem, d, op).None? || !Below(c.g, FailingNode(c, mem, d, op).value, v)
    ensures var rows := RowsAfter(c, mem, d, op, calls); v in rows && rows[v] == d.status[v]
  {
    hide Safe, Mirrors, Closed, ListsCanceled, Break, Stored, Fated, HasSlot, Applies, BrokenPred, Below;
    match op {
      case Dispatch(m, _, published, xs) =>
        LiveNotOrphaned(c, mem, d, m);
        if !published { RejectedLists(c, mem, d, m, xs); }
      case Deliver(a, reply, xs) =>
        if Applies(c, mem, d, a) {
          RunningInMemory(c, mem, d, a);
          LiveNotOrphaned(c, mem, d, a.node);
          if reply.GiveUp? || reply.Reject? { ResultLists(c, mem, d, a.node, StateAfter(reply), xs); }
        }
      case Reap(a, _) => FlightAgrees(c, mem, d, a.node);
      case Wake(m) => DueIsParked(c, mem, d, m);
      case Finalize =>
    }
  }

  lemma OrphanStays(c: Config, w: World, l: Label, w': World, v: NodeId)
    requires Closed(c.g) && Good(c, w) && Advance(c, w, l, w') && Orphaned(c.g, w.disk.status, v)
    requires !CancelsRun(l) && !FailsAbove(c, w, l, v)
    ensures v in w'.disk.status && Orphaned(c.g, w'.disk.status, v)
  {
    hide Good, Enabled, Writes, Next, Closed, ApplyAll, LedgerKey, Recovered, Applied, RowsAfter, BrokenPred, Tears, FailingNode, Below;
    match l {
      case Do(op) =>
        EnabledRuns(c, w, op);
        AliveParts(c, w);
        var ws := Writes(c, w.mem, w.disk, op);
        assert ws[..|ws|] == ws;
        PrefixRows(c, w.mem, w.disk, op, |ws|);
        OrphanRow(c, w.mem, w.disk, op, |ws|, v);
        PrefixTears(c, w.mem, w.disk, op, |ws|, v);
      case Crash(op, calls) =>
        EnabledRuns(c, w, op);
        AliveParts(c, w);
        PrefixRows(c, w.mem, w.disk, op, calls);
        OrphanRow(c, w.mem, w.disk, op, calls, v);
        PrefixTears(c, w.mem, w.disk, op, calls, v);
      case Worker(call) => WorkerKeepsRow(c, w, l, w', v);
      case OtherRun(key) => SideCallStrands(c, w.disk, Claim(key), v);
      case Announce => SideCallStrands(c, w.disk, PublishEvent(RunResumed), v);
    }
  }

  /** A node blocked under a broken one is moved, if ever, only by a cancellation
    of the run or by a failure of another node above it; until then the run does
    not end. */
  lemma {:induction false} OrphanMovedOnly(c: Config, ws: seq<World>, ls: seq<Label>, i: nat, j: nat, v: NodeId)
    requires Closed(c.g) && IsExecution(c, ws, ls) && i <= j < |ws| && j <= |ls| && NoCancelBetween(ls, i, j)
    requires forall k {:trigger ls[k]} :: i <= k < j ==> !FailsAbove(c, ws[k], ls[k], v)
    requires Orphaned(c.g, ws[i].disk.status, v)
    ensures Orphaned(c.g, ws[j].disk.status, v) && ws[j].disk.status[v] == Blocked && !Finished(ws[j].disk.run)
    decreases j
  {
    hide Good, Advance, Initial, BrokenPred, CancelsRun, Finished, FailsAbove;
    RunsAreGood(c, ws, ls, j);
    if i < j {
      assert NoCancelBetween(ls, i, j - 1);
      OrphanMovedOnly(c, ws, ls, i, j - 1, v);
      RunsAreGood(c, ws, ls, j - 1);
      var l := ls[j - 1];
      OrphanStays(c, ws[j - 1], l, ws[j], v);
    }
    OpenIsUnfinished(c, ws[j], v);
  }

  /** A failure above v fails a node whose row is open. */
  lemma FailingIsOpen(c: Config, w: World, l: Label, w': World, v: NodeId)
    requires Closed(c.g) && Good(c, w) && Advance(c, w, l, w') && FailsAbove(c, w, l, v)
    ensures exists x :: Below(c.g, x, v) && OpenRow(w.disk, x)
  {
    hide Safe, Mirrors, Writes, Next, Closed, ApplyAll, Recovered, ListsCanceled, Break, Fated, Below;
    EnabledRuns(c, w, l.op);
    var x := FailingNode(c, w.mem, w.disk, l.op).value;
    OpenInMemory(c, w.mem, w.disk, x);
  }

  lemma {:induction false} SettledAbove(c: Config, ws: seq<World>, ls: seq<Label>, i: nat, j: nat, v: NodeId)
    requires Closed(c.g) && IsExecution(c, ws, ls) && i <= j < |ws|
    requires forall x :: Below(c.g, x, v) ==> !OpenRow(ws[i].disk, x)
    ensures forall x :: Below(c.g, x, v) ==> !OpenRow(ws[j].disk, x)
    decreases j
  {
    hide Good, Advance, Initial, Below, OpenRow;
    if i < j {
      SettledAbove(c, ws, ls, i, j - 1, v);
      RunsAreGood(c, ws, ls, j - 1);
      var l := ls[j - 1];
      forall x | Below(c.g, x, v) ensures !OpenRow(ws[j].disk, x) { StepKeepsOpen(c, ws[j - 1], l, ws[j], x); }
    }
  }

  /** If nothing above it is open any more, only a cancellation moves it. */
  lemma OrphanForGood(c: Config, ws: seq<World>, ls: seq<Label>, i: nat, j: nat, v: NodeId)
    requires Closed(c.g) && IsExecution(c, ws, ls) && i <= j < |ws| && j <= |ls| && NoCancelBetween(ls, i, j)
    requires Orphaned(c.g, ws[i].disk.status, v) && forall x :: Below(c.g, x, v) ==> !OpenRow(ws[i].disk, x)
    ensures Orphaned(c.g, ws[j].disk.status, v) && !Finished(ws[j].disk.run)
  {
    hide Good, Advance, Initial, BrokenPred, CancelsRun, Finished, FailsAbove, Below, OpenRow, NoCancelBetween;
    forall k {:trigger ls[k]} | i <= k < j ensures !FailsAbove(c, ws[k], ls[k], v) {
      var l := ls[k];
      RunsAreGood(c, ws, ls, k);
      SettledAbove(c, ws, ls, i, k, v);
      if FailsAbove(c, ws[k], l, v) { FailingIsOpen(c, ws[k], l, ws[k + 1], v); }
    }
    OrphanMovedOnly(c, ws, ls, i, j, v);
  }
}
