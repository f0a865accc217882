/** What holds of a run loop whatever rows its creation left it: its model is
  sound, the slots it holds are those of the nodes in flight, and no row is
  unlocked before its predecessors
  (engine/core/src/distributed_run_loop.cpp). */
module PartialRows {
  import opened Ids
  import opened Graphs
  import opened StateMachines
  import opened LedgerKeys
  import opened Storage
  import opened DiskSafety
  import opened Protocol
  import opened OpSafety
  import opened Recovery
  import opened Runs
  import opened RunEndings
  import opened CrashWindows
  import opened Outages
  import opened StartUps

  ghost predicate RowsInOrder(g: Graph, nodes: Nodes) {
    forall v {:trigger PredsDone(g, nodes, v)} :: v in nodes && nodes[v].Unlocked() ==> PredsDone(g, nodes, v)
  }

  ghost predicate HeldMirrors(c: Config, mem: Memory) {
    mem.held == if c.gated then InFlight(mem.model.nodes) else {}
  }

  ghost predicate MemoryTidy(c: Config, mem: Memory) {
    if mem.model.run.RunRunning? then Sound(c.g, mem.model) && HeldMirrors(c, mem) else mem.held == {}
  }

  ghost predicate DiskTidy(c: Config, d: Disk) {
    d.status.Keys <= c.g.nodes && RowsInOrder(c.g, d.status)
  }

  ghost predicate Tidy(c: Config, w: World) {
    MemoryTidy(c, w.mem) && DiskTidy(c, w.disk) && SuccessIsStored(w.mem, w.disk)
  }

  // ------------------------------------------------------------------------
  // Starting
  // ------------------------------------------------------------------------

  lemma FilledInOrder(c: Config, d: Disk)
    requires DiskTidy(c, d)
    ensures var nodes := Filled(c.g, Restored(d.status)); nodes.Keys == c.g.nodes && InOrder(c.g, nodes)
  {
    var nodes := Filled(c.g, Restored(d.status));
    forall v | v in nodes && nodes[v].Unlocked() ensures PendingCount(c.g, nodes, v) == 0 {
      assert PredsDone(c.g, d.status, v);
      NothingPending(c.g, nodes, v);
    }
  }

  /** Nodes without a row are not in flight. */
  lemma RecoveredFlight(c: Config, d: Disk)
    requires d.status.Keys <= c.g.nodes
    ensures InFlight(StartFrom(c.g, Filled(c.g, Restored(d.status))).nodes) == InFlight(d.status)
  {
    hide PendingCount;
  }

  lemma RecoveredTidy(c: Config, d: Disk)
    requires DiskTidy(c, d)
    ensures Tidy(c, World(Recovered(c, d), d))
  {
    hide Sound, Filled, StartFrom, SuccessIsStored, SlotsUsed, AttemptNumbers, Timers, InFlight, InOrder, RowsInOrder;
    FilledInOrder(c, d);
    StartFromSound(c.g, Filled(c.g, Restored(d.status)));
    StartedStored(c, World(Recovered(c, d), d));
    RecoveredFlight(c, d);
    RecoveredRuns(c, d);
  }

  lemma CreatedTidy(c: Config, order: seq<NodeId>, k: nat, ledger: set<string>, announced: bool)
    requires Ordered(c, order) && k <= |order|
    ensures DiskTidy(c, Created(order, k, ledger, announced))
  {
    var d := Created(order, k, ledger, announced);
    forall v | v in d.status ensures v in c.g.nodes { assert v in Elements(order); }
  }

  lemma FreshTidy(c: Config, w: World)
    requires Closed(c.g) && Fresh(c, w)
    ensures Tidy(c, w)
  {
    var nodes := AllBlocked(c.g);
    StartFromSound(c.g, nodes);
    StartedStored(c, w);
    hide Sound, PendingCount;
    assert InFlight(Unblock(c.g, nodes)) == {};
  }

  // ------------------------------------------------------------------------
  // Rows
  // ------------------------------------------------------------------------

  /** The call unlocks a row only after its predecessors have succeeded. */
  ghost predicate UnlocksLate(g: Graph, nodes: Nodes, w: Write) {
    match w
    case SetStatus(n, s) => s.Unlocked() ==> PredsDone(g, nodes, n)
    case SetRetryWait(a, _) => PredsDone(g, nodes, a.node)
    case CompleteNode(n, s) => s.Unlocked() ==> PredsDone(g, nodes, n)
    case _ => true
  }

  lemma CallKeepsOrder(c: Config, d: Disk, w: Write)
    requires DiskTidy(c, d) && UnlocksLate(c.g, d.status, w)
    ensures DiskTidy(c, Applied(d, w))
  {
    var d' := Applied(d, w);
    AppliedGrows(d, w);
    RowsStay(d, w);
    forall v | v in d'.status && d'.status[v].Unlocked() ensures PredsDone(c.g, d'.status, v) {
      assert PredsDone(c.g, d.status, v) by { hide PredsDone; }
      PredsDoneStays(c.g, d, d', v);
    }
  }

  lemma LateStays(g: Graph, d: Disk, d': Disk, w: Write)
    requires Grows(d, d') && UnlocksLate(g, d.status, w)
    ensures UnlocksLate(g, d'.status, w)
  {
  }

  lemma {:induction false} CallsKeepOrder(c: Config, d: Disk, ws: seq<Write>)
    requires DiskTidy(c, d) && forall w :: w in ws ==> UnlocksLate(c.g, d.status, w)
    ensures DiskTidy(c, ApplyAll(d, ws))
    decreases |ws|
  {
    hide DiskTidy, UnlocksLate, Applied, Grows;
    if ws != [] {
      assert UnlocksLate(c.g, d.status, ws[0]);
      CallKeepsOrder(c, d, ws[0]);
      AppliedGrows(d, ws[0]);
      forall w | w in ws[1..] ensures UnlocksLate(c.g, Applied(d, ws[0]).status, w) {
        assert w in ws;
        LateStays(c.g, d, Applied(d, ws[0]), w);
      }
      CallsKeepOrder(c, Applied(d, ws[0]), ws[1..]);
    }
  }

  lemma {:induction false} CancelsUnlockNothing(g: Graph, nodes: Nodes, xs: seq<NodeId>)
    ensures forall w :: w in CancelWrites(xs) ==> UnlocksLate(g, nodes, w)
  {
    if xs != [] { CancelsUnlockNothing(g, nodes, xs[1..]); }
  }

  /** A live node's predecessors have been stored as succeeded. */
  lemma LivePredsStored(c: Config, mem: Memory, d: Disk, n: NodeId)
    requires Closed(c.g) && Sound(c.g, mem.model) && SuccessIsStored(mem, d)
    requires n in mem.model.nodes && mem.model.nodes[n].Live()
    ensures PredsDone(c.g, d.status, n)
  {
    hide Sound;
    forall u | Edge(u, n) in c.g.edges ensures HasSucceeded(d.status, u) { UnlockedPred(c.g, mem.model, Edge(u, n)); }
  }

  lemma HeardUnlocksLate(c: Config, d: Disk, a: Attempt, reply: Reply, xs: seq<NodeId>, up: Weather)
    requires PredsDone(c.g, d.status, a.node)
    ensures forall w :: w in Hear(c, d, a, reply, xs, up).calls ==> UnlocksLate(c.g, d.status, w)
  {
    hide LedgerKey, CancelWrites, Accepted, Applied, PredsDone;
    CancelsUnlockNothing(c.g, d.status, xs);
  }

  lemma OpUnlocksLate(c: Config, mem: Memory, d: Disk, op: Op)
    requires Closed(c.g) && Enabled(c, mem, d, op) && Sound(c.g, mem.model) && SuccessIsStored(mem, d)
    ensures forall w :: w in FlakyWrites(c, mem, d, op, ALL_UP) ==> UnlocksLate(c.g, d.status, w)
  {
    hide Hear, Told, Sound, SuccessIsStored, PredsDone, ListsCanceled, Break, CancelWrites, LedgerKey, Applies, Verdict, Fated,
      HasSlot;
    match op {
      case Dispatch(n, _, _, xs) =>
        LivePredsStored(c, mem, d, n);
        CancelsUnlockNothing(c.g, d.status, xs);
      case Deliver(a, reply, xs) =>
        if Considered(mem, a) {
          LivePredsStored(c, mem, d, a.node);
          HeardUnlocksLate(c, d, a, reply, xs, ALL_UP);
        }
      case Reap(a, _) => if Holds(mem, a.node) { LivePredsStored(c, mem, d, a.node); }
      case Wake(n) => if n in mem.model.nodes && mem.model.nodes[n].RetryWait? { LivePredsStored(c, mem, d, n); }
      case Cancel(_, xs) => CancelsUnlockNothing(c.g, d.status, xs);
      case Finalize =>
    }
  }

  // ------------------------------------------------------------------------
  // Memory
  // ------------------------------------------------------------------------

  /** Breaking a live node takes no other out of flight. */
  lemma BreakFlight(g: Graph, m: Model, n: NodeId, s: NodeState)
    requires Closed(g) && Sound(g, m) && n in m.nodes && m.nodes[n].Live() && HasFailed(s)
    ensures InFlight(Break(g, m, n, s).nodes) == InFlight(m.nodes) - {n}
  {
    hide Sound;
    var nodes := m.nodes[n := s];
    forall v | CancelTarget(g, nodes, n, v) ensures v in m.nodes && !m.nodes[v].InFlight() {
      CancelTargetsAreUnfinished(g, nodes, n);
      var u := CancelTargetPred(g, nodes, n, v);
      UnlockedPred(g, m, Edge(u, v));
    }
    hide CancelTarget;
  }

  lemma SucceedFlight(g: Graph, m: Model, n: NodeId)
    requires n in m.nodes
    ensures InFlight(Succeed(g, m, n).nodes) == InFlight(m.nodes) - {n}
  {
    hide PendingCount;
  }

  lemma MoveFlight(m: Model, n: NodeId, s: NodeState)
    requires n in m.nodes
    ensures InFlight(Move(m, n, s).nodes) == if s.InFlight() then InFlight(m.nodes) + {n} else InFlight(m.nodes) - {n}
  {
  }

  lemma ReleasedTidy(c: Config, mem: Memory, mem1: Memory, n: NodeId)
    requires HeldMirrors(c, mem) && mem1.held == mem.held
    requires Sound(c.g, mem1.model) && mem1.model.run.RunRunning? && InFlight(mem1.model.nodes) == InFlight(mem.model.nodes) - {n}
    ensures MemoryTidy(c, Release(c, mem1, n))
  {
    hide Sound;
  }

  lemma DispatchTidy(c: Config, mem: Memory, d: Disk, op: Op)
    requires Closed(c.g) && Enabled(c, mem, d, op) && MemoryTidy(c, mem) && op.Dispatch?
    ensures MemoryTidy(c, Next(c, mem, d, op))
  {
    hide Sound, ListsCanceled, Fated, HasSlot, Break, Started;
    var n, m := op.node, mem.model;
    StartedIsMove(m, n);
    BreakStarted(c.g, m, n, Failed);
    if op.published {
      MoveKeeps(c.g, m, n, Running);
      MoveFlight(m, n, Running);
    } else {
      BreakKeeps(c.g, m, n, Failed);
      BreakFlight(c.g, m, n, Failed);
      BreakRuns(c.g, m, n, Failed);
      assert mem.held + {n} - {n} == mem.held && mem.held - {n} == mem.held;
    }
  }

  lemma BreakRuns(g: Graph, m: Model, n: NodeId, s: NodeState)
    ensures Break(g, m, n, s).run == m.run
  {
  }

  lemma JudgedTidy(c: Config, mem: Memory, a: Attempt, reply: Reply)
    requires Closed(c.g) && MemoryTidy(c, mem) && mem.model.run.RunRunning?
    requires a.node in mem.model.nodes && mem.model.nodes[a.node].Running?
    ensures MemoryTidy(c, Release(c, Judged(c, mem, a, reply), a.node))
  {
    hide Sound, Break, Succeed, Release;
    var m, n := mem.model, a.node;
    match reply {
      case Completed =>
        SucceedKeeps(c.g, m, n);
        SucceedFlight(c.g, m, n);
        SucceedRuns(c.g, m, n);
      case Retry(_) =>
        MoveKeeps(c.g, m, n, RetryWait);
        MoveFlight(m, n, RetryWait);
      case _ =>
        BreakKeeps(c.g, m, n, StateAfter(reply));
        BreakFlight(c.g, m, n, StateAfter(reply));
        BreakRuns(c.g, m, n, StateAfter(reply));
    }
    ReleasedTidy(c, mem, Judged(c, mem, a, reply), n);
  }

  lemma SucceedRuns(g: Graph, m: Model, n: NodeId)
    ensures Succeed(g, m, n).run == m.run
  {
  }

  lemma OpKeepsMemory(c: Config, mem: Memory, d: Disk, op: Op)
    requires Closed(c.g) && Enabled(c, mem, d, op) && MemoryTidy(c, mem)
    ensures MemoryTidy(c, FlakyNext(c, mem, d, op, ALL_UP))
  {
    hide Sound, ListsCanceled, Fated, HasSlot, Break, Hear, Judged, Release, Told, Considered, Verdict, Started, CancelAll;
    match op {
      case Dispatch(_, _, _, _) => DispatchTidy(c, mem, d, op);
      case Deliver(a, reply, xs) =>
        if Considered(mem, a) {
          ConsideredRuns(mem, a);
          var verdict := Hear(c, d, a, reply, xs, ALL_UP).verdict;
          if verdict.Some? { JudgedTidy(c, mem, a, verdict.value); }
        } else {
          IgnoredTidy(c, mem, d, op);
        }
      case Reap(a, _) =>
        if Holds(mem, a.node) {
          MoveKeeps(c.g, mem.model, a.node, Ready);
          MoveFlight(mem.model, a.node, Ready);
          ReleasedTidy(c, mem, mem.(model := Move(mem.model, a.node, Ready)), a.node);
        }
      case Wake(n) => WakeTidy(c, mem, d, n);
      case Cancel(_, _) => CancelTidy(c, mem, d, op);
      case Finalize => FinalizeTidy(c, mem, d);
    }
  }

  lemma ConsideredRuns(mem: Memory, a: Attempt)
    requires Considered(mem, a)
    ensures a.node in mem.model.nodes && mem.model.nodes[a.node].Running?
  {
  }

  lemma IgnoredTidy(c: Config, mem: Memory, d: Disk, op: Op)
    requires op.Deliver? && !Considered(mem, op.attempt) && MemoryTidy(c, mem)
    ensures MemoryTidy(c, Next(c, mem, d, op))
  {
    hide Sound;
  }

  lemma WakeTidy(c: Config, mem: Memory, d: Disk, n: NodeId)
    requires MemoryTidy(c, mem) && mem.model.run.RunRunning?
    ensures MemoryTidy(c, Next(c, mem, d, Wake(n)))
  {
    hide Sound;
    if n in mem.model.nodes && mem.model.nodes[n].RetryWait? {
      MoveKeeps(c.g, mem.model, n, Ready);
      MoveFlight(mem.model, n, Ready);
      assert InFlight(mem.model.nodes) - {n} == InFlight(mem.model.nodes);
    }
  }

  lemma CancelTidy(c: Config, mem: Memory, d: Disk, op: Op)
    requires op.Cancel?
    ensures MemoryTidy(c, Next(c, mem, d, op))
  {
    hide Sound;
  }

  lemma FinalizeTidy(c: Config, mem: Memory, d: Disk)
    requires MemoryTidy(c, mem) && mem.model.run.RunRunning? && AllTerminal(mem.model.nodes)
    ensures MemoryTidy(c, Next(c, mem, d, Finalize))
  {
    hide Sound;
    assert InFlight(mem.model.nodes) == {};
  }

  // ------------------------------------------------------------------------
  // Every step
  // ------------------------------------------------------------------------

  lemma CutKeepsOrder(c: Config, w: World, op: Op, calls: nat)
    requires Closed(c.g) && Tidy(c, w) && Enabled(c, w.mem, w.disk, op) && calls <= |FlakyWrites(c, w.mem, w.disk, op, ALL_UP)|
    ensures DiskTidy(c, ApplyAll(w.disk, FlakyWrites(c, w.mem, w.disk, op, ALL_UP)[..calls]))
  {
    hide DiskTidy, SuccessIsStored, Enabled, FlakyWrites, UnlocksLate, Sound;
    var ws := FlakyWrites(c, w.mem, w.disk, op, ALL_UP);
    EnabledRuns(c, w, op);
    OpUnlocksLate(c, w.mem, w.disk, op);
    assert forall x :: x in ws[..calls] ==> x in ws;
    CallsKeepOrder(c, w.disk, ws[..calls]);
  }

  lemma GoKeepsTidy(c: Config, w: World, op: Op)
    requires Closed(c.g) && Tidy(c, w) && Enabled(c, w.mem, w.disk, op)
    ensures Tidy(c, World(FlakyNext(c, w.mem, w.disk, op, ALL_UP),
                          TriedAll(w.disk, FlakyWrites(c, w.mem, w.disk, op, ALL_UP), ALL_UP)))
  {
    hide DiskTidy, MemoryTidy, SuccessIsStored, Enabled, FlakyWrites, FlakyNext, TriedAll;
    var ws := FlakyWrites(c, w.mem, w.disk, op, ALL_UP);
    CutKeepsOrder(c, w, op, |ws|);
    assert ws[..|ws|] == ws;
    AllUpApplies(w.disk, ws);
    OpKeepsMemory(c, w.mem, w.disk, op);
    GoKeepsStored(c, w.mem, w.disk, op, ALL_UP);
  }

  lemma SideKeepsTidy(c: Config, w: World, call: Write)
    requires Tidy(c, w) && (call.AcquireLease? || call.RenewLease? || call.Claim? || call.PublishEvent?)
    ensures Tidy(c, w.(disk := Applied(w.disk, call)))
  {
    hide MemoryTidy, DiskTidy;
    SideKeepsStored(w.mem, w.disk, call);
    CallKeepsOrder(c, w.disk, call);
  }
}
