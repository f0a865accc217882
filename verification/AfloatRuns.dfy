/** Runs whose crashes strand no node: they can always go on, except for parked
  nodes whose timer a restart has lost
  (engine/core/src/distributed_run_loop.cpp). */
module AfloatRuns {
  import opened Ids
  import opened Graphs
  import opened StateMachines
  import opened LedgerKeys
  import opened Storage
  import opened Views
  import opened DiskSafety
  import opened Protocol
  import opened OpSafety
  import opened Recovery
  import opened Runs
  import opened RunEndings
  import opened CrashWindows
  import opened Strandings
  import opened StrandedRuns
  import opened SchedulerStates
  import Sorting

  /** No crash of the run strands a node. */
  ghost predicate NeverStranded(c: Config, ws: seq<World>, ls: seq<Label>) {
    && IsExecution(c, ws, ls)
    && forall i, v {:trigger StrandingCrash(c, ws[i], ls[i], v)} :: 0 <= i < |ls| ==> !StrandingCrash(c, ws[i], ls[i], v)
  }

  /** No node is stranded. */
  ghost predicate Afloat(c: Config, d: Disk) {
    forall v {:trigger Stranded(c, d, v)} :: !Stranded(c, d, v)
  }

  lemma StaysAfloat(c: Config, ws: seq<World>, ls: seq<Label>, i: nat)
    requires Closed(c.g) && NeverStranded(c, ws, ls) && i < |ws|
    ensures Afloat(c, ws[i].disk)
  {
    hide Advance, Initial, Stranded, StrandingCrash;
    forall v ensures !Stranded(c, ws[i].disk, v) { StrandedAtIff(c, ws, ls, i, v); }
  }

  /** A run is afloat at every step exactly if no crash ever strands a node. */
  lemma AfloatThroughoutIff(c: Config, ws: seq<World>, ls: seq<Label>)
    requires Closed(c.g) && IsExecution(c, ws, ls)
    ensures (forall i :: 0 <= i < |ws| ==> Afloat(c, ws[i].disk)) <==> NeverStranded(c, ws, ls)
  {
    hide Good, Stranded, Advance, Initial, StrandingCrash, OpenRow;
    if NeverStranded(c, ws, ls) {
      forall i | 0 <= i < |ws| ensures Afloat(c, ws[i].disk) { StaysAfloat(c, ws, ls, i); }
    }
    if forall i :: 0 <= i < |ws| ==> Afloat(c, ws[i].disk) {
      forall i, v | 0 <= i < |ls| ensures !StrandingCrash(c, ws[i], ls[i], v) {
        RunsAreGood(c, ws, ls, i);
        var l := ls[i];
        StepStrands(c, ws[i], l, ws[i + 1], v);
        assert Afloat(c, ws[i + 1].disk);
      }
    }
  }

  lemma GoodMirrors(c: Config, w: World)
    requires Good(c, w) && Alive(w)
    ensures Safe(c, w.disk) && Mirrors(c, w.mem, w.disk)
  {
  }

  // ------------------------------------------------------------------------
  // Going on
  // ------------------------------------------------------------------------

  /** v can go on: it can be dispatched, its lease will be reaped once it has
    expired, its result will be applied when it arrives, or it waits for its
    timer. */
  ghost predicate CanGoOn(c: Config, mem: Memory, d: Disk, v: NodeId) {
    v in mem.model.nodes &&
    match mem.model.nodes[v]
    case Ready => HasSlot(c, mem, v)
    case Running =>
      var a := Attempt(v, AttemptCount(d, v));
      LeaseOpen(d, a) || (a in d.tasks && Applies(c, mem, d, a))
    case RetryWait => v in mem.due
    case _ => false
  }

  /** v is parked, and nothing will wake it. */
  ghost predicate TimerLost(mem: Memory, v: NodeId) {
    v in mem.model.nodes && mem.model.nodes[v].RetryWait? && v !in mem.due
  }

  /** Only a timer that was due at or before the epoch is ever lost; a restart
    loses exactly those. */
  lemma LostTimers(c: Config, mem: Memory, d: Disk, v: NodeId)
    requires Closed(c.g) && Safe(c, d) && Mirrors(c, mem, d)
    ensures TimerLost(mem, v) ==> v in d.until && d.until[v] <= 0
    ensures TimerLost(Recovered(c, d), v) <==> v in d.status && d.status[v].RetryWait? && v in d.until && d.until[v] <= 0
  {
    hide Safe, Mirrors, StartFrom;
    RecoveredMirrors(c, d) by { SafeKeys(c, d); MirrorsOpen(c, mem, d); }
    ParkedRows(c, mem, d, v);
    ParkedRows(c, Recovered(c, d), d, v);
  }

  lemma MirrorsOpen(c: Config, mem: Memory, d: Disk)
    requires Mirrors(c, mem, d)
    ensures !Finished(d.run)
  {
  }

  /** A parked node is a parked row, and its timer is missing only if it is due
    at or before the epoch. */
  lemma ParkedRows(c: Config, mem: Memory, d: Disk, v: NodeId)
    requires Closed(c.g) && Safe(c, d) && Mirrors(c, mem, d)
    ensures v in mem.model.nodes && mem.model.nodes[v].RetryWait? <==> v in d.status && d.status[v].RetryWait?
    ensures v in d.status && d.status[v].RetryWait? ==> v in d.until && (v !in mem.due ==> d.until[v] <= 0)
  {
    SameKeys(c, mem, d);
    SafeKeys(c, d);
    if v in mem.model.nodes {
      RowOf(c, mem, d, v);
      assert RowSafe(c, d, v);
    }
    hide Safe, StartFrom, SlotsMirror, SeenMirrors;
  }

  /** A node in flight can go on exactly if it is not lost. */
  lemma RunningCanGoOn(c: Config, mem: Memory, d: Disk, v: NodeId)
    requires Closed(c.g) && Safe(c, d) && Mirrors(c, mem, d) && Holds(mem, v)
    ensures CanGoOn(c, mem, d, v) <==> !Lost(c, d, v)
  {
    FlightAgrees(c, mem, d, v);
    RowOf(c, mem, d, v);
    var a := Attempt(v, AttemptCount(d, v));
    hide Safe, StartFrom, SlotsMirror, DueMirrors, LedgerKey;
    assert a in mem.seen ==> Claimed(c, d, a) || a.number < AttemptCount(d, a.node);
  }

  lemma SlotTaker(c: Config, mem: Memory, d: Disk, v: NodeId) returns (u: NodeId)
    requires SlotsMirror(c, mem, d.status) && !HasSlot(c, mem, v) && c.policy(v).capacity > 0
    ensures u in d.status && d.status[u].InFlight()
  {
    var key := c.policy(v).key;
    assert Used(mem, key) == |InFlightWith(c, d.status, key)|;
    u :| u in InFlightWith(c, d.status, key);
  }

  ghost predicate PositiveCapacities(c: Config) {
    forall n :: n in c.g.nodes ==> c.policy(n).key == "" || c.policy(n).capacity > 0
  }

  lemma LiveCanGoOn(c: Config, mem: Memory, d: Disk, v: NodeId)
    requires Closed(c.g) && Safe(c, d) && Mirrors(c, mem, d) && forall u :: !Lost(c, d, u)
    requires v in mem.model.nodes && mem.model.nodes[v].Live() && !TimerLost(mem, v)
    requires c.policy(v).key == "" || c.policy(v).capacity > 0
    ensures exists u :: CanGoOn(c, mem, d, u)
  {
    hide Safe, Lost;
    if Holds(mem, v) {
      RunningCanGoOn(c, mem, d, v);
    } else if mem.model.nodes[v].Ready? {
      if HasSlot(c, mem, v) {
        assert CanGoOn(c, mem, d, v);
      } else {
        var u := SlotTaker(c, mem, d, v);
        FlightAgrees(c, mem, d, u);
        RunningCanGoOn(c, mem, d, u);
      }
    } else {
      assert CanGoOn(c, mem, d, v);
    }
  }

  lemma AfloatParts(c: Config, d: Disk)
    requires Afloat(c, d)
    ensures (forall v :: !Lost(c, d, v)) && forall v :: !Orphaned(c.g, d.status, v)
  {
    hide Lost, Orphaned;
    forall v ensures !Lost(c, d, v) && !Orphaned(c.g, d.status, v) { assert !Stranded(c, d, v); }
  }

  /** Where every capacity is positive, a run that no crash has stranded can go on
    exactly if some node is live that has not lost its timer. */
  lemma NoDeadlockIff(c: Config, ws: seq<World>, ls: seq<Label>, i: nat)
    requires Closed(c.g) && NeverStranded(c, ws, ls) && i < |ws| && Alive(ws[i]) && PositiveCapacities(c)
    ensures var mem, d := ws[i].mem, ws[i].disk;
      (exists v :: CanGoOn(c, mem, d, v)) <==>
      exists v :: v in mem.model.nodes && mem.model.nodes[v].Live() && !TimerLost(mem, v)
  {
    hide Safe, Mirrors, Afloat, NeverStranded, CanGoOn, TimerLost, Lost, Orphaned;
    NeverStrandedRuns(c, ws, ls);
    StaysAfloat(c, ws, ls, i);
    RunsAreGood(c, ws, ls, i);
    var mem, d := ws[i].mem, ws[i].disk;
    AfloatParts(c, d);
    SafeKeys(c, d);
    SameKeys(c, mem, d);
    if v :| v in mem.model.nodes && mem.model.nodes[v].Live() && !TimerLost(mem, v) { LiveCanGoOn(c, mem, d, v); }
    if v :| CanGoOn(c, mem, d, v) { GoingOnIsLive(c, mem, d, v); }
  }

  lemma GoingOnIsLive(c: Config, mem: Memory, d: Disk, v: NodeId)
    requires CanGoOn(c, mem, d, v)
    ensures v in mem.model.nodes && mem.model.nodes[v].Live() && !TimerLost(mem, v)
  {
  }

  lemma NeverStrandedRuns(c: Config, ws: seq<World>, ls: seq<Label>)
    requires NeverStranded(c, ws, ls)
    ensures IsExecution(c, ws, ls)
  {
  }

  /** So an unfinished run that no crash has stranded is never deadlocked as long
    as no parked node is due at or before the epoch. */
  lemma NoDeadlock(c: Config, t: seq<NodeId>, ws: seq<World>, ls: seq<Label>, i: nat)
    requires Closed(c.g) && IsTopo(c.g, t) && NeverStranded(c, ws, ls) && i < |ws| && Alive(ws[i]) && PositiveCapacities(c)
    requires !AllTerminal(ws[i].mem.model.nodes)
    requires var d := ws[i].disk; forall v :: v in d.status && d.status[v].RetryWait? && v in d.until ==> d.until[v] > 0
    ensures exists v :: CanGoOn(c, ws[i].mem, ws[i].disk, v)
  {
    hide Safe, Mirrors, Afloat, CancelClosed, NeverStranded, CanGoOn, Sound, Lost, Orphaned;
    NeverStrandedRuns(c, ws, ls);
    StaysAfloat(c, ws, ls, i);
    RunsAreGood(c, ws, ls, i);
    var mem, d := ws[i].mem, ws[i].disk;
    AfloatParts(c, d);
    NoOrphanIffClosed(c, d);
    LiveModelIsSound(c, mem, d);
    MemoryClosedIff(c, mem, d);
    NeverStuck(c.g, t, mem.model);
    var v :| v in mem.model.nodes && mem.model.nodes[v].Live();
    ParkedRows(c, mem, d, v);
    assert !TimerLost(mem, v);
    NoDeadlockIff(c, ws, ls, i);
  }

  // ------------------------------------------------------------------------
  // What going on means
  // ------------------------------------------------------------------------

  /** A fate, where one is given, is an end that an attempt can come to. */
  ghost predicate FatesAreEnds(c: Config) {
    forall n {:trigger c.fate(n)} :: c.fate(n).Some? ==> IsCompletion(c.fate(n).value)
  }

  /** op is enabled, does not cancel the run, and moves v. */
  ghost predicate MovesNode(c: Config, mem: Memory, d: Disk, op: Op, v: NodeId) {
    && Enabled(c, mem, d, op) && !op.Cancel?
    && var m' := Next(c, mem, d, op).model;
    v in mem.model.nodes && v in m'.nodes && m'.nodes[v] != mem.model.nodes[v]
  }

  /** A live node can go on exactly if some operation other than a cancellation
    of the run moves it. */
  lemma GoesOnIffMoved(c: Config, mem: Memory, d: Disk, v: NodeId)
    requires Closed(c.g) && Safe(c, d) && Mirrors(c, mem, d) && mem.model.run.RunRunning? && FatesAreEnds(c)
    requires v in mem.model.nodes && mem.model.nodes[v].Live()
    ensures CanGoOn(c, mem, d, v) <==> exists op :: MovesNode(c, mem, d, op, v)
  {
    hide Safe, Mirrors, CanGoOn, MovesNode;
    if CanGoOn(c, mem, d, v) { var op := MoveOf(c, mem, d, v); }
    if op :| MovesNode(c, mem, d, op, v) { MovedCouldGoOn(c, mem, d, op, v); }
  }

  /** At a loop head a node in flight is lost exactly if no operation but a
    cancellation of the run moves it. */
  lemma LostIffUnmoved(c: Config, mem: Memory, d: Disk, n: NodeId)
    requires Closed(c.g) && Safe(c, d) && Mirrors(c, mem, d) && mem.model.run.RunRunning? && FatesAreEnds(c) && Holds(mem, n)
    ensures Lost(c, d, n) <==> forall op :: !MovesNode(c, mem, d, op, n)
  {
    hide Safe, Mirrors, CanGoOn, MovesNode, Lost;
    RunningCanGoOn(c, mem, d, n);
    GoesOnIffMoved(c, mem, d, n);
  }

  /** Some node can go on exactly if some operation other than a cancellation of
    the run moves one. */
  lemma GoingOnIff(c: Config, mem: Memory, d: Disk)
    requires Closed(c.g) && Safe(c, d) && Mirrors(c, mem, d) && mem.model.run.RunRunning? && FatesAreEnds(c)
    ensures (exists v :: CanGoOn(c, mem, d, v)) <==>
            exists op :: Enabled(c, mem, d, op) && !op.Cancel? && Next(c, mem, d, op).model.nodes != mem.model.nodes
  {
    hide Safe, Mirrors, Enabled, Next, CanGoOn;
    if v :| CanGoOn(c, mem, d, v) {
      var op := MoveOf(c, mem, d, v);
      assert Next(c, mem, d, op).model.nodes[v] != mem.model.nodes[v];
    }
    if op :| Enabled(c, mem, d, op) && !op.Cancel? && Next(c, mem, d, op).model.nodes != mem.model.nodes {
      var v := SomeMoveGoesOn(c, mem, d, op);
    }
  }

  lemma MoveOf(c: Config, mem: Memory, d: Disk, v: NodeId) returns (op: Op)
    requires CanGoOn(c, mem, d, v) && mem.model.run.RunRunning? && FatesAreEnds(c)
    ensures MovesNode(c, mem, d, op, v)
  {
    hide FatesAreEnds;
    var a := Attempt(v, AttemptCount(d, v));
    match mem.model.nodes[v] {
      case Ready => op := Dispatch(v, 0, true, []);
      case Running =>
        if LeaseOpen(d, a) {
          op := Reap(a, d.leases[a].worker);
        } else {
          op := Delivered(c, mem, d, a);
          return;
        }
      case RetryWait => op := Wake(v);
    }
    NextModel(c, mem, d, op);
    hide Next, Applies, ListsCanceled, Break;
  }

  /** The result that a's fate calls for. */
  lemma Delivered(c: Config, mem: Memory, d: Disk, a: Attempt) returns (op: Op)
    requires a in d.tasks && Applies(c, mem, d, a) && mem.model.run.RunRunning? && FatesAreEnds(c)
    ensures MovesNode(c, mem, d, op, a.node)
  {
    hide MovesNode, Applies;
    var fate := c.fate(a.node);
    assert fate.Some? ==> IsCompletion(fate.value);
    if fate.None? || fate.value.Succeeded? {
      op := Deliver(a, Completed, []);
      CompletedMoves(c, mem, d, a);
    } else {
      op := FailedMoves(c, mem, d, a, if fate.value.Failed? then Reject else GiveUp);
    }
  }

  lemma CompletedMoves(c: Config, mem: Memory, d: Disk, a: Attempt)
    requires a in d.tasks && Applies(c, mem, d, a) && mem.model.run.RunRunning? && Fated(c, a.node, Succeeded)
    ensures MovesNode(c, mem, d, Deliver(a, Completed, []), a.node)
  {
    NextModel(c, mem, d, Deliver(a, Completed, []));
    hide Next, LedgerKey;
    SucceededAt(c.g, mem.model, a.node);
    hide Succeed;
  }

  lemma FailedMoves(c: Config, mem: Memory, d: Disk, a: Attempt, reply: Reply) returns (op: Op)
    requires a in d.tasks && Applies(c, mem, d, a) && mem.model.run.RunRunning?
    requires (reply.Reject? || reply.GiveUp?) && Fated(c, a.node, StateAfter(reply))
    ensures MovesNode(c, mem, d, op, a.node)
  {
    var m, s := mem.model, StateAfter(reply);
    var xs := Sorting.Ascending(set v | v in m.nodes && NewlyCanceled(c.g, m, a.node, s, v));
    ListedNewly(c.g, m, a.node, s, xs);
    op := Deliver(a, reply, xs);
    NextModel(c, mem, d, op);
    hide Next, ListsCanceled, LedgerKey;
    BrokenAt(c.g, m, a.node, s);
    hide Break;
  }

  ghost predicate NewlyCanceled(g: Graph, m: Model, n: NodeId, s: NodeState, v: NodeId) {
    var after := Break(g, m, n, s).nodes;
    v in m.nodes && v in after && after[v].Canceled? && !m.nodes[v].Canceled?
  }

  lemma ListedNewly(g: Graph, m: Model, n: NodeId, s: NodeState, xs: seq<NodeId>)
    requires xs == Sorting.Ascending(set v | v in m.nodes && NewlyCanceled(g, m, n, s, v))
    ensures ListsCanceled(xs, m.nodes, Break(g, m, n, s).nodes)
  {
    hide Break, Sorting.Ascending;
    IdsDistinct(xs);
  }

  lemma SucceededAt(g: Graph, m: Model, n: NodeId)
    requires n in m.nodes
    ensures n in Succeed(g, m, n).nodes && Succeed(g, m, n).nodes[n] == Succeeded
  {
    hide PendingCount;
  }

  lemma BrokenAt(g: Graph, m: Model, n: NodeId, s: NodeState)
    requires n in m.nodes && HasFailed(s)
    ensures n in Break(g, m, n, s).nodes && Break(g, m, n, s).nodes[n] == s
  {
    CancelTargetsAreUnfinished(g, m.nodes[n := s], n);
    hide CancelTarget;
  }

  lemma MovedCouldGoOn(c: Config, mem: Memory, d: Disk, op: Op, v: NodeId)
    requires Closed(c.g) && Safe(c, d) && Mirrors(c, mem, d) && MovesNode(c, mem, d, op, v) && mem.model.nodes[v].Live()
    ensures CanGoOn(c, mem, d, v)
  {
    hide Safe, Mirrors, Next, ListsCanceled, Fated, HasSlot, Applies, CanGoOn, Break, Succeed, Started, Sound;
    LiveModelIsSound(c, mem, d);
    NextModel(c, mem, d, op);
    match op {
      case Dispatch(n, _, published, xs) =>
        DispatchMovesOne(c, mem, n, published, v);
        ReadyGoesOn(c, mem, d, n);
      case Deliver(a, reply, xs) =>
        AppliesRunning(c, mem, d, a);
        ResultMovesOne(c, mem, a, reply, v);
        ApplicableFromMemory(c, mem, d, a);
        AwaitedNotLost(c, d, a);
        RunningCanGoOn(c, mem, d, a.node);
      case Reap(a, worker) =>
        OpenLeaseIsLatest(c, d, a);
        ReapedOnce(c, d, a, worker);
        RunningCanGoOn(c, mem, d, a.node);
      case Wake(n) => WokenGoesOn(c, mem, d, n);
      case Finalize =>
    }
  }

  lemma ReadyGoesOn(c: Config, mem: Memory, d: Disk, n: NodeId)
    requires n in mem.model.nodes && mem.model.nodes[n].Ready? && HasSlot(c, mem, n)
    ensures CanGoOn(c, mem, d, n)
  {
  }

  lemma WokenGoesOn(c: Config, mem: Memory, d: Disk, n: NodeId)
    requires n in mem.model.nodes && mem.model.nodes[n].RetryWait? && n in mem.due
    ensures CanGoOn(c, mem, d, n)
  {
  }

  /** A failure moves no live node but its own. */
  lemma BreakMovesOne(g: Graph, m: Model, n: NodeId, s: NodeState, v: NodeId)
    requires Closed(g) && Sound(g, m) && n in m.nodes && m.nodes[n].Live() && HasFailed(s)
    requires v in m.nodes && m.nodes[v].Live() && v != n
    ensures v in Break(g, m, n, s).nodes && Break(g, m, n, s).nodes[v] == m.nodes[v]
  {
    hide Sound;
    var nodes := m.nodes[n := s];
    if CancelTarget(g, nodes, n, v) {
      var u := CancelTargetPred(g, nodes, n, v);
      UnlockedPred(g, m, Edge(u, v));
      if u != n { CancelTargetsAreUnfinished(g, nodes, n); }
    }
  }

  lemma DispatchMovesOne(c: Config, mem: Memory, n: NodeId, published: bool, v: NodeId)
    requires Closed(c.g) && Sound(c.g, mem.model) && n in mem.model.nodes && mem.model.nodes[n].Live()
    requires v in mem.model.nodes && mem.model.nodes[v].Live()
    requires var m := mem.model; var m' := if published then Started(m, n) else Break(c.g, Started(m, n), n, Failed);
      v in m'.nodes && m'.nodes[v] != m.nodes[v]
    ensures v == n
  {
    hide Sound, Break;
    BreakStarted(c.g, mem.model, n, Failed);
    if v != n { BreakMovesOne(c.g, mem.model, n, Failed, v); }
  }

  lemma ResultMovesOne(c: Config, mem: Memory, a: Attempt, reply: Reply, v: NodeId)
    requires Closed(c.g) && Sound(c.g, mem.model) && a.node in mem.model.nodes && mem.model.nodes[a.node].Live()
    requires v in mem.model.nodes && mem.model.nodes[v].Live()
    requires var m' := Judged(c, mem, a, reply).model; v in m'.nodes && m'.nodes[v] != mem.model.nodes[v]
    ensures v == a.node
  {
    hide Sound, Break, PendingCount;
    if v != a.node && (reply.GiveUp? || reply.Reject?) { BreakMovesOne(c.g, mem.model, a.node, StateAfter(reply), v); }
  }

  lemma AppliesRunning(c: Config, mem: Memory, d: Disk, a: Attempt)
    ensures Applies(c, mem, d, a) ==> Holds(mem, a.node)
  {
  }

  /** An operation that moves any node starts from one that can go on. */
  lemma SomeMoveGoesOn(c: Config, mem: Memory, d: Disk, op: Op) returns (v: NodeId)
    requires Closed(c.g) && Safe(c, d) && Mirrors(c, mem, d)
    requires Enabled(c, mem, d, op) && !op.Cancel? && Next(c, mem, d, op).model.nodes != mem.model.nodes
    ensures CanGoOn(c, mem, d, v)
  {
    hide Safe, Mirrors, Next, ListsCanceled, Break, Fated, HasSlot, Applies, CanGoOn;
    NextModel(c, mem, d, op);
    match op {
      case Dispatch(n, _, _, _) =>
        v := n;
        ReadyGoesOn(c, mem, d, n);
      case Deliver(a, _, _) =>
        v := a.node;
        AppliesRunning(c, mem, d, a);
        ApplicableFromMemory(c, mem, d, a);
        AwaitedNotLost(c, d, a);
        RunningCanGoOn(c, mem, d, a.node);
      case Reap(a, worker) =>
        v := a.node;
        OpenLeaseIsLatest(c, d, a);
        ReapedOnce(c, d, a, worker);
        RunningCanGoOn(c, mem, d, a.node);
      case Wake(n) =>
        v := n;
        WokenGoesOn(c, mem, d, n);
      case Finalize =>
    }
  }
}
