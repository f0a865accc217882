/** Memory at a loop head is a function of the durable state: what the live loop
  holds is what reconstruct_from_store would rebuild
  (engine/core/src/distributed_run_loop.cpp, engine/core/src/state_machine.cpp). */
module Recovery {
  import opened Ids
  import opened Graphs
  import opened StateMachines
  import opened LedgerKeys
  import opened Storage
  import opened DiskSafety
  import opened Protocol
  import opened OpSafety

  // ------------------------------------------------------------------------
  // Rebuilding commutes with every change of state
  // ------------------------------------------------------------------------

  lemma StartFromMove(g: Graph, nodes: Nodes, n: NodeId, s: NodeState)
    requires n in nodes && StartFrom(g, nodes).nodes[n].Live() && s.Live()
    ensures StartFrom(g, nodes[n := s]) == Move(StartFrom(g, nodes), n, s)
  {
    SameSucceeded(g, nodes, nodes[n := s]);
    hide PendingCount;
    assert CompletedIn(nodes[n := s]) == CompletedIn(nodes);
    assert CountDeps(g, nodes[n := s]) == CountDeps(g, nodes);
    assert Unblock(g, nodes[n := s]) == Unblock(g, nodes)[n := s];
  }

  lemma StartFromSucceed(g: Graph, nodes: Nodes, n: NodeId)
    requires nodes.Keys == g.nodes && n in nodes && StartFrom(g, nodes).nodes[n].Live()
    ensures StartFrom(g, nodes[n := Succeeded]) == Succeed(g, StartFrom(g, nodes), n)
  {
    var started := Unblock(g, nodes);
    assert !nodes[n].Succeeded?;
    hide PendingCount;
    assert CompletedIn(nodes[n := Succeeded]) == CompletedIn(nodes) + {n};
    UnblockTwice(g, nodes, n);
  }

  lemma UnblockTwice(g: Graph, nodes: Nodes, n: NodeId)
    requires nodes.Keys == g.nodes && n in nodes && !nodes[n].Succeeded?
    ensures var once, twice := nodes[n := Succeeded], Unblock(g, nodes)[n := Succeeded];
      CountDeps(g, once) == CountDeps(g, twice) && Unblock(g, once) == Unblock(g, twice)
  {
    hide PendingCount, CountDeps;
    var once, twice := nodes[n := Succeeded], Unblock(g, nodes)[n := Succeeded];
    SameSucceeded(g, once, twice);
    CountsAgree(g, once, twice);
    forall v | v in nodes ensures Unblock(g, once)[v] == Unblock(g, twice)[v] {
      SucceedPending(g, nodes, n, v);
    }
  }

  lemma CountsAgree(g: Graph, nodes: Nodes, nodes': Nodes)
    requires nodes.Keys == nodes'.Keys && forall v :: PendingCount(g, nodes', v) == PendingCount(g, nodes, v)
    ensures CountDeps(g, nodes') == CountDeps(g, nodes)
  {
    hide PendingCount;
  }

  lemma StartFromBreak(g: Graph, nodes: Nodes, n: NodeId, s: NodeState, xs: seq<NodeId>)
    requires n in nodes && StartFrom(g, nodes).nodes[n].Live() && HasFailed(s)
    requires ListsCanceled(xs, StartFrom(g, nodes).nodes, Break(g, StartFrom(g, nodes), n, s).nodes)
    ensures StartFrom(g, CancelRows(nodes[n := s], xs)) == Break(g, StartFrom(g, nodes), n, s)
  {
    hide PendingCount, CancelTarget, ListsCanceled, CountDeps, CancelFrom;
    var m := StartFrom(g, nodes);
    var after := CancelRows(nodes[n := s], xs);
    BreakLists(g, m, n, s, m.nodes, xs);
    BreakByList(g, m, n, s, xs);
    SameSucceeded(g, nodes, after);
    CountsAgree(g, nodes, after);
    CompletedAfterBreak(nodes, n, s, xs);
    assert Break(g, m, n, s).nodes.Keys == m.nodes.Keys by { BreakKeepsNodes(g, m, n, s); }
    forall v | v in nodes ensures Unblock(g, after)[v] == Break(g, m, n, s).nodes[v] { }
    assert Unblock(g, after) == Break(g, m, n, s).nodes;
  }

  lemma CompletedAfterBreak(nodes: Nodes, n: NodeId, s: NodeState, xs: seq<NodeId>)
    requires n in nodes && HasFailed(s) && n !in xs
    requires forall v :: v in xs ==> v in nodes && !nodes[v].Terminal()
    ensures CompletedIn(CancelRows(nodes[n := s], xs)) == CompletedIn(nodes) + {n}
  {
  }

  lemma BreakByList(g: Graph, m: Model, n: NodeId, s: NodeState, xs: seq<NodeId>)
    requires n in m.nodes && HasFailed(s)
    requires ListsCanceled(xs, m.nodes, Break(g, m, n, s).nodes)
    ensures forall v :: v in m.nodes ==>
                          Break(g, m, n, s).nodes[v] == if v in xs then Canceled else m.nodes[n := s][v]
  {
    CancelTargetsAreUnfinished(g, m.nodes[n := s], n);
    hide CancelTarget;
  }

  // ------------------------------------------------------------------------
  // Rows, slots and timers
  // ------------------------------------------------------------------------

  lemma RestoredMove(nodes: Nodes, n: NodeId, s: NodeState, xs: seq<NodeId>)
    requires n in nodes
    ensures Restored(CancelRows(nodes[n := s], xs)) == CancelRows(Restored(nodes)[n := Restore(s)], xs)
    ensures Restored(nodes[n := s]) == Restored(nodes)[n := Restore(s)]
  {
  }

  lemma SafeIsInOrder(c: Config, d: Disk)
    requires Closed(c.g) && Safe(c, d)
    ensures Restored(d.status).Keys == c.g.nodes && InOrder(c.g, Restored(d.status))
  {
    var nodes := Restored(d.status);
    forall v | v in nodes && nodes[v].Unlocked() ensures PendingCount(c.g, nodes, v) == 0 {
      assert RowSafe(c, d, v);
      NothingPending(c.g, nodes, v);
    }
  }

  lemma SafeIsSound(c: Config, d: Disk)
    requires Closed(c.g) && Safe(c, d)
    ensures Sound(c.g, StartFrom(c.g, Restored(d.status)))
  {
    hide Safe, InOrder;
    SafeIsInOrder(c, d);
    StartFromSound(c.g, Restored(d.status));
  }

  /** Only blocked nodes are canceled by a failure. */
  lemma CanceledWereBlocked(g: Graph, m: Model, n: NodeId, s: NodeState, xs: seq<NodeId>)
    requires Closed(g) && Sound(g, m) && n in m.nodes && m.nodes[n].Live() && HasFailed(s)
    requires ListsCanceled(xs, m.nodes, Break(g, m, n, s).nodes)
    ensures forall v :: v in xs ==> v in m.nodes && m.nodes[v].Blocked?
  {
    hide Sound, CancelTarget;
    BreakByList(g, m, n, s, xs);
    forall v | v in xs ensures v in m.nodes && m.nodes[v].Blocked? {
      var u := CancelTargetPred(g, m.nodes[n := s], n, v);
      if u != n { CancelTargetsAreUnfinished(g, m.nodes[n := s], n); }
      UnlockedPred(g, m, Edge(u, v));
    }
  }

  lemma InFlightAdd(c: Config, nodes: Nodes, n: NodeId, s: NodeState, key: string)
    requires n in nodes && !nodes[n].InFlight() && s.InFlight()
    ensures |InFlightWith(c, nodes[n := s], key)| ==
            |InFlightWith(c, nodes, key)| + if c.policy(n).key == key then 1 else 0
  {
    if c.policy(n).key == key {
      assert InFlightWith(c, nodes[n := s], key) == InFlightWith(c, nodes, key) + {n};
    } else {
      assert InFlightWith(c, nodes[n := s], key) == InFlightWith(c, nodes, key);
    }
  }

  lemma OccupySlots(c: Config, mem: Memory, nodes: Nodes, n: NodeId, s: NodeState)
    requires SlotsMirror(c, mem, nodes) && n in nodes && !nodes[n].InFlight() && s.InFlight()
    ensures SlotsMirror(c, Occupy(c, mem, n), nodes[n := s])
  {
    var mem' := Occupy(c, mem, n);
    forall key | key != "" ensures Used(mem', key) == |InFlightWith(c, nodes[n := s], key)| {
      var before := Used(mem, key);
      InFlightAdd(c, nodes, n, s, key);
    }
  }

  lemma ReleaseSlots(c: Config, mem: Memory, nodes: Nodes, n: NodeId, s: NodeState)
    requires SlotsMirror(c, mem, nodes) && n in nodes && nodes[n].InFlight() && !s.InFlight()
    ensures SlotsMirror(c, Release(c, mem, n), nodes[n := s])
  {
    var mem' := Release(c, mem, n);
    forall key | key != "" ensures Used(mem', key) == |InFlightWith(c, nodes[n := s], key)| {
      var before := Used(mem, key);
      InFlightAdd(c, nodes[n := s], n, nodes[n], key);
      assert nodes[n := s][n := nodes[n]] == nodes;
    }
  }

  ghost predicate SameSlots(mem: Memory, mem': Memory) {
    mem'.held == mem.held && forall key {:trigger Used(mem', key)} :: Used(mem', key) == Used(mem, key)
  }

  /** Slots depend on which rows are in flight only. */
  lemma SameFlight(c: Config, mem: Memory, mem': Memory, nodes: Nodes, nodes': Nodes)
    requires SlotsMirror(c, mem, nodes) && SameSlots(mem, mem')
    requires forall v :: (v in nodes && nodes[v].InFlight()) <==> (v in nodes' && nodes'[v].InFlight())
    ensures SlotsMirror(c, mem', nodes')
  {
    forall key | key != "" ensures Used(mem', key) == |InFlightWith(c, nodes', key)| {
      var before := Used(mem, key);
      assert InFlightWith(c, nodes', key) == InFlightWith(c, nodes, key);
    }
    assert InFlight(nodes') == InFlight(nodes);
  }

  // ------------------------------------------------------------------------
  // Recovery
  // ------------------------------------------------------------------------

  /** A loop rebuilt from a safe durable state mirrors it, wherever the previous
    process died. */
  lemma RecoveredMirrors(c: Config, d: Disk)
    requires !Finished(d.run) && d.status.Keys == c.g.nodes
    ensures Mirrors(c, Recovered(c, d), d)
  {
    hide StartFrom, SlotsMirror, SlotsUsed;
    FilledIsSame(c.g, Restored(d.status));
    RecoveredSlots(c, Recovered(c, d), d);
  }

  lemma RecoveredSlots(c: Config, mem: Memory, d: Disk)
    requires mem.usage == SlotsUsed(c, d.status) && mem.held == if c.gated then InFlight(d.status) else {}
    ensures SlotsMirror(c, mem, d.status)
  {
    forall key | key != "" ensures Used(mem, key) == |InFlightWith(c, d.status, key)| {
      if x :| x in InFlightWith(c, d.status, key) {
        assert key in mem.usage;
      } else {
        assert InFlightWith(c, d.status, key) == {};
      }
    }
  }

  // ------------------------------------------------------------------------
  // Every operation keeps memory a view of the durable state
  // ------------------------------------------------------------------------

  lemma NoCancel(nodes: Nodes)
    ensures CancelRows(nodes, []) == nodes
  {
  }

  lemma CountGrows(d: Disk, d': Disk, n: NodeId)
    requires Grows(d, d')
    ensures AttemptCount(d, n) <= AttemptCount(d', n)
  {
    SubsetSize(AttemptsOf(d, n), AttemptsOf(d', n));
  }

  lemma SeenKept(c: Config, mem: Memory, mem': Memory, d: Disk, d': Disk)
    requires SeenMirrors(c, mem, d) && Grows(d, d')
    requires forall a :: a in mem'.seen && a !in mem.seen ==> Claimed(c, d', a) || a.number < AttemptCount(d', a.node)
    ensures SeenMirrors(c, mem', d')
  {
    forall a | a in mem'.seen ensures Claimed(c, d', a) || a.number < AttemptCount(d', a.node) {
      CountGrows(d, d', a.node);
    }
  }

  lemma BreakStarted(g: Graph, m: Model, n: NodeId, s: NodeState)
    requires n in m.nodes
    ensures Break(g, Started(m, n), n, s) == Break(g, m, n, s)
  {
    assert Started(m, n).nodes[n := s] == m.nodes[n := s];
  }

  lemma StartedIsMove(m: Model, n: NodeId)
    requires n in m.nodes
    ensures Started(m, n) == Move(m, n, Running)
  {
    assert Started(m, n).nodes == m.nodes[n := Running];
  }

  /** What a failure of n does to the model, the slots and the timers when its
    row moves from r to s. */
  lemma BreakMirrors(c: Config, mem: Memory, d: Disk, n: NodeId, s: NodeState, xs: seq<NodeId>)
    requires Closed(c.g) && Safe(c, d) && Mirrors(c, mem, d) && HasFailed(s)
    requires n in mem.model.nodes && mem.model.nodes[n].Live() && !mem.model.nodes[n].RetryWait?
    requires ListsCanceled(xs, mem.model.nodes, Break(c.g, mem.model, n, s).nodes)
    ensures var nodes := CancelRows(d.status[n := s], xs);
      && StartFrom(c.g, Restored(nodes)) == Break(c.g, mem.model, n, s)
      && (forall v :: v in xs ==> v in d.status && d.status[v].Blocked?)
      && n !in xs && n in d.status
  {
    hide Safe, Sound, Break, ListsCanceled, SlotsMirror, DueMirrors, SeenMirrors, Closed;
    SafeIsSound(c, d);
    CanceledWereBlocked(c.g, mem.model, n, s, xs);
    BreakLists(c.g, mem.model, n, s, mem.model.nodes, xs);
    RestoredMove(d.status, n, s, xs);
    StartFromBreak(c.g, Restored(d.status), n, s, xs);
  }

  /** n's slots follow its row. */
  ghost predicate SlotsFollow(c: Config, mem: Memory, mem': Memory, was: NodeState, n: NodeId, s: NodeState) {
    if !was.InFlight() && s.InFlight() then SameSlots(Occupy(c, mem, n), mem')
    else if was.InFlight() && !s.InFlight() then SameSlots(Release(c, mem, n), mem')
    else SameSlots(mem, mem')
  }

  ghost predicate TimersFollow(mem: Memory, mem': Memory, d: Disk, d': Disk, n: NodeId, s: NodeState) {
    if s.RetryWait? then
      n in d'.until && d'.until == d.until[n := d'.until[n]] && mem'.due == mem.due[n := d'.until[n]]
    else d'.until == d.until && mem'.due == mem.due - {n}
  }

  /** One row moves to s, and the blocked rows xs are canceled with it. */
  ghost predicate RowMoves(d: Disk, d': Disk, n: NodeId, s: NodeState, xs: seq<NodeId>) {
    && n in d.status && n !in xs && d'.status == CancelRows(d.status[n := s], xs) && d'.run == d.run
    && forall v :: v in xs ==> v in d.status && d.status[v].Blocked?
  }

  lemma MovedSlots(c: Config, mem: Memory, mem': Memory, d: Disk, d': Disk, n: NodeId, s: NodeState, xs: seq<NodeId>)
    requires SlotsMirror(c, mem, d.status) && RowMoves(d, d', n, s, xs) && SlotsFollow(c, mem, mem', d.status[n], n, s)
    ensures SlotsMirror(c, mem', d'.status)
  {
    var was, moved := d.status[n], d.status[n := s];
    if !was.InFlight() && s.InFlight() {
      OccupySlots(c, mem, d.status, n, s);
      hide SlotsMirror;
      SameFlight(c, Occupy(c, mem, n), mem', moved, d'.status);
    } else if was.InFlight() && !s.InFlight() {
      ReleaseSlots(c, mem, d.status, n, s);
      hide SlotsMirror;
      SameFlight(c, Release(c, mem, n), mem', moved, d'.status);
    } else {
      hide SlotsMirror;
      SameFlight(c, mem, mem', d.status, d'.status);
    }
  }

  lemma MovedTimers(mem: Memory, mem': Memory, d: Disk, d': Disk, n: NodeId, s: NodeState, xs: seq<NodeId>)
    requires DueMirrors(mem, d) && RowMoves(d, d', n, s, xs) && TimersFollow(mem, mem', d, d', n, s)
    ensures DueMirrors(mem', d')
  {
  }

  lemma MovedMirrors(c: Config, mem: Memory, mem': Memory, d: Disk, d': Disk, n: NodeId, s: NodeState, xs: seq<NodeId>)
    requires Mirrors(c, mem, d) && Grows(d, d') && RowMoves(d, d', n, s, xs)
    requires mem'.model == StartFrom(c.g, Restored(d'.status))
    requires SlotsFollow(c, mem, mem', d.status[n], n, s) && TimersFollow(mem, mem', d, d', n, s)
    requires forall v :: v in d'.status ==> Current(mem', v) == AttemptCount(d', v)
    requires forall a :: a in mem'.seen && a !in mem.seen ==> Claimed(c, d', a) || a.number < AttemptCount(d', a.node)
    ensures Mirrors(c, mem', d')
  {
    MovedSlots(c, mem, mem', d, d', n, s, xs);
    MovedTimers(mem, mem', d, d', n, s, xs);
    SeenKept(c, mem, mem', d, d');
  }

  lemma NotParked(mem: Memory, d: Disk, n: NodeId)
    requires DueMirrors(mem, d) && n in d.status && !d.status[n].RetryWait?
    ensures mem.due - {n} == mem.due
  {
  }

  lemma LiveMove(c: Config, mem: Memory, d: Disk, n: NodeId, s: NodeState)
    requires Mirrors(c, mem, d) && n in mem.model.nodes && n in d.status && mem.model.nodes[n].Live() && s.Live()
    requires s != Dispatched
    ensures StartFrom(c.g, Restored(d.status[n := s])) == Move(mem.model, n, s)
    ensures DueMirrors(mem, d)
  {
    hide SlotsMirror, SeenMirrors, StartFrom;
    StartFromMove(c.g, Restored(d.status), n, s);
    RestoredMove(d.status, n, s, []);
  }

  lemma CountsAfterRecord(mem: Memory, d: Disk, a: Attempt, mem': Memory, d': Disk)
    requires forall v :: v in d.status ==> Current(mem, v) == AttemptCount(d, v)
    requires !Recorded(d, a) && a.number == AttemptCount(d, a.node) + 1 && a.node in d.status
    requires d'.status.Keys == d.status.Keys
    requires d'.attempts == d.attempts[a.node := AttemptsOf(d, a.node) + {a.number}]
    requires mem'.current == mem.current[a.node := a.number]
    ensures forall v :: v in d'.status ==> Current(mem', v) == AttemptCount(d', v)
  {
    forall v | v in d'.status ensures Current(mem', v) == AttemptCount(d', v) {
      assert Current(mem, v) == AttemptCount(d, v);
    }
  }

  lemma MirrorsParts(c: Config, mem: Memory, d: Disk)
    requires Mirrors(c, mem, d)
    ensures DueMirrors(mem, d) && SlotsMirror(c, mem, d.status)
    ensures forall v :: v in d.status ==> Current(mem, v) == AttemptCount(d, v)
  {
  }

  /** What a dispatch changes on disk and in memory, field by field. */
  lemma DispatchRows(c: Config, mem: Memory, d: Disk, op: Op)
    requires op.Dispatch? && op.node in d.status && op.node !in op.canceled && (op.published ==> op.canceled == [])
    requires forall v :: v in op.canceled ==> v in d.status && d.status[v].Blocked?
    ensures var n, d' := op.node, After(c, mem, d, op);
      var s := if op.published then Running else Failed;
      && RowMoves(d, d', n, s, op.canceled) && d'.status.Keys == d.status.Keys && d'.until == d.until
      && d'.status == CancelRows(d.status[n := s], op.canceled)
      && d'.attempts == d.attempts[n := AttemptsOf(d, n) + {AttemptCount(d, n) + 1}]
  {
    var n := op.node;
    assert d.status[n := Running][n := Failed] == d.status[n := Failed];
    NoCancel(d.status[n := Running]);
  }

  lemma DispatchMemory(c: Config, mem: Memory, d: Disk, op: Op, was: NodeState)
    requires op.Dispatch? && op.node in mem.model.nodes && !was.InFlight() && op.node !in mem.held
    requires c.policy(op.node).key != "" ==> Used(mem, c.policy(op.node).key) >= 0
    ensures var n, mem' := op.node, Next(c, mem, d, op);
      && mem'.model == (if op.published then Move(mem.model, n, Running) else Break(c.g, mem.model, n, Failed))
      && mem'.seen == mem.seen && mem'.due == mem.due && mem'.current == mem.current[n := Current(mem, n) + 1]
      && SlotsFollow(c, mem, mem', was, n, if op.published then Running else Failed)
  {
    var n := op.node;
    var mem1 := mem.(model := Started(mem.model, n), current := mem.current[n := Current(mem, n) + 1]);
    StartedIsMove(mem.model, n);
    BreakStarted(c.g, mem.model, n, Failed);
    hide Started, Move, Break, Used, Occupy, Release, SameSlots;
    var occupied, occupied1 := Occupy(c, mem, n), Occupy(c, mem1, n);
    OccupyKeeps(c, mem, mem1, n);
    if op.published {
      SlotsAsListed(occupied, occupied1);
    } else {
      OccupiedThenReleased(c, mem, n);
      ReleaseKeeps(c, occupied, occupied1, n);
      var released := Release(c, occupied1, n);
      assert released.usage == Release(c, occupied, n).usage;
      SlotsAsListed(Release(c, occupied, n), released.(model := Break(c.g, Started(mem.model, n), n, Failed)));
      SlotsCompose(mem, Release(c, occupied, n), released.(model := Break(c.g, Started(mem.model, n), n, Failed)));
    }
  }

  lemma OccupyKeeps(c: Config, mem: Memory, mem1: Memory, n: NodeId)
    requires mem1.usage == mem.usage && mem1.held == mem.held
    ensures Occupy(c, mem1, n) == mem1.(usage := Occupy(c, mem, n).usage, held := Occupy(c, mem, n).held)
  {
  }

  lemma ReleaseKeeps(c: Config, mem: Memory, mem1: Memory, n: NodeId)
    requires mem1.usage == mem.usage && mem1.held == mem.held
    ensures Release(c, mem1, n) == mem1.(usage := Release(c, mem, n).usage, held := Release(c, mem, n).held)
  {
  }

  lemma SlotsAsListed(mem: Memory, mem': Memory)
    requires mem'.usage == mem.usage && mem'.held == mem.held
    ensures SameSlots(mem, mem')
  {
  }

  lemma SlotsCompose(a: Memory, b: Memory, c: Memory)
    requires SameSlots(a, b) && SameSlots(b, c)
    ensures SameSlots(a, c)
  {
    forall key ensures Used(c, key) == Used(a, key) {
      assert Used(c, key) == Used(b, key) == Used(a, key);
    }
  }

  /** Taking slots and giving them back leaves them as they were. */
  lemma OccupiedThenReleased(c: Config, mem: Memory, n: NodeId)
    requires n !in mem.held && (c.policy(n).key != "" ==> Used(mem, c.policy(n).key) >= 0)
    ensures SameSlots(mem, Release(c, Occupy(c, mem, n), n))
  {
  }

  lemma DispatchEffect(c: Config, mem: Memory, d: Disk, op: Op)
    requires op.Dispatch? && op.node in d.status && op.node in mem.model.nodes && op.node !in op.canceled
    requires op.published ==> op.canceled == []
    requires !d.status[op.node].InFlight() && !d.status[op.node].RetryWait? && DueMirrors(mem, d) && SlotsMirror(c, mem, d.status)
    requires forall v :: v in op.canceled ==> v in d.status && d.status[v].Blocked?
    ensures var n, mem', d' := op.node, Next(c, mem, d, op), After(c, mem, d, op);
      var s := if op.published then Running else Failed;
      && RowMoves(d, d', n, s, op.canceled) && d'.status.Keys == d.status.Keys
      && d'.status == CancelRows(d.status[n := s], op.canceled)
      && d'.attempts == d.attempts[n := AttemptsOf(d, n) + {AttemptCount(d, n) + 1}]
      && mem'.model == (if op.published then Move(mem.model, n, Running) else Break(c.g, mem.model, n, Failed))
      && mem'.seen == mem.seen && mem'.current == mem.current[n := Current(mem, n) + 1]
      && SlotsFollow(c, mem, mem', d.status[n], n, s) && TimersFollow(mem, mem', d, d', n, s)
  {
    hide Next, After, RowMoves, SlotsFollow, Move, Break, CancelRows, AttemptCount, AttemptsOf;
    assert Used(mem, c.policy(op.node).key) >= 0 || c.policy(op.node).key == "";
    hide SlotsMirror;
    DispatchRows(c, mem, d, op);
    DispatchMemory(c, mem, d, op, d.status[op.node]);
    NotParked(mem, d, op.node);
  }

  lemma ReadyRow(c: Config, mem: Memory, d: Disk, n: NodeId)
    requires Closed(c.g) && Safe(c, d) && Mirrors(c, mem, d) && n in mem.model.nodes && mem.model.nodes[n].Ready?
    ensures n in d.status && !d.status[n].InFlight() && !d.status[n].RetryWait? && SpentUpTo(d, n, AttemptCount(d, n))
  {
    hide Safe, Mirrors, SpentUpTo, PredsDone;
    RowOf(c, mem, d, n);
  }

  lemma PublishedMirrors(c: Config, mem: Memory, d: Disk, op: Op)
    requires Closed(c.g) && Safe(c, d) && Mirrors(c, mem, d) && Enabled(c, mem, d, op) && op.Dispatch? && op.published
    ensures Mirrors(c, Next(c, mem, d, op), After(c, mem, d, op))
  {
    OpGrows(c, mem, d, op);
    PublishedReady(c, mem, d, op);
    hide Safe, Mirrors, Enabled, Grows, StartFrom, Next, After, RowMoves, SlotsFollow, TimersFollow, Claimed, AttemptCount,
      Current;
    PublishedMove(c, mem, d, op);
    MovedMirrors(c, mem, Next(c, mem, d, op), d, After(c, mem, d, op), op.node, Running, []);
  }

  lemma PublishedReady(c: Config, mem: Memory, d: Disk, op: Op)
    requires Enabled(c, mem, d, op) && op.Dispatch? && op.published
    ensures op.node in mem.model.nodes && mem.model.nodes[op.node].Ready? && op.canceled == []
  {
    hide HasSlot, Fated;
  }

  lemma PublishedMove(c: Config, mem: Memory, d: Disk, op: Op)
    requires Closed(c.g) && Safe(c, d) && Mirrors(c, mem, d) && op.Dispatch? && op.published && op.canceled == []
    requires op.node in mem.model.nodes && mem.model.nodes[op.node].Ready?
    ensures var n, d', mem' := op.node, After(c, mem, d, op), Next(c, mem, d, op);
      && n in d.status && RowMoves(d, d', n, Running, []) && mem'.model == StartFrom(c.g, Restored(d'.status))
      && mem'.seen == mem.seen
      && SlotsFollow(c, mem, mem', d.status[n], n, Running) && TimersFollow(mem, mem', d, d', n, Running)
      && forall v :: v in d'.status ==> Current(mem', v) == AttemptCount(d', v)
  {
    hide Safe, Mirrors, StartFrom, Move, Started, SpentUpTo, DueMirrors, Next, After, RowMoves, SlotsFollow,
      TimersFollow, Claimed, Recorded, LeaseOpen, CancelRows, Break, AttemptCount, AttemptsOf, Current, SlotsMirror, Restored;
    var n, d', mem' := op.node, After(c, mem, d, op), Next(c, mem, d, op);
    MirrorsParts(c, mem, d);
    ReadyRow(c, mem, d, n);
    FreshAttempt(c, d, n);
    DispatchEffect(c, mem, d, op);
    hide Safe, Mirrors;
    NoCancel(d.status[n := Running]);
    LiveMove(c, mem, d, n, Running);
    CountsAfterRecord(mem, d, Attempt(n, AttemptCount(d, n) + 1), mem', d');
  }

  lemma RejectedMirrors(c: Config, mem: Memory, d: Disk, op: Op)
    requires Closed(c.g) && Safe(c, d) && Mirrors(c, mem, d) && Enabled(c, mem, d, op) && op.Dispatch? && !op.published
    ensures Mirrors(c, Next(c, mem, d, op), After(c, mem, d, op))
  {
    hide Safe, Mirrors, Grows, StartFrom, Move, Started, SpentUpTo, DueMirrors, Next, After, RowMoves, SlotsFollow,
      TimersFollow, Claimed, Recorded, LeaseOpen, Break, ListsCanceled, CancelRows;
    var n, d', mem' := op.node, After(c, mem, d, op), Next(c, mem, d, op);
    OpGrows(c, mem, d, op);
    MirrorsParts(c, mem, d);
    ReadyRow(c, mem, d, n);
    FreshAttempt(c, d, n);
    BreakStarted(c.g, mem.model, n, Failed);
    BreakMirrors(c, mem, d, n, Failed, op.canceled);
    DispatchEffect(c, mem, d, op);
    CountsAfterRecord(mem, d, Attempt(n, AttemptCount(d, n) + 1), mem', d');
    MovedMirrors(c, mem, mem', d, d', n, Failed, op.canceled);
  }

  // --- results -------------------------------------------------------------

  ghost function ModelAfter(g: Graph, m: Model, n: NodeId, reply: Reply): Model {
    match reply
    case Completed => Succeed(g, m, n)
    case Retry(_) => Move(m, n, RetryWait)
    case GiveUp => Break(g, m, n, DeadLettered)
    case Reject => Break(g, m, n, Failed)
  }

  lemma ResultRows(c: Config, mem: Memory, d: Disk, op: Op)
    requires op.Deliver? && Applies(c, mem, d, op.attempt)
    requires op.attempt.node in d.status && op.attempt.node !in op.canceled
    requires forall v :: v in op.canceled ==> v in d.status && d.status[v].Blocked?
    ensures var a, d' := op.attempt, After(c, mem, d, op);
      var s := StateAfter(op.reply);
      && RowMoves(d, d', a.node, s, op.canceled) && d'.status == CancelRows(d.status[a.node := s], op.canceled)
      && d'.attempts == d.attempts && Claimed(c, d', a) && d'.status.Keys == d.status.Keys
      && d'.until == if op.reply.Retry? then d.until[a.node := op.reply.until] else d.until
  {
    hide Applies;
  }

  lemma ResultMemory(c: Config, mem: Memory, d: Disk, op: Op, was: NodeState)
    requires op.Deliver? && Applies(c, mem, d, op.attempt) && was.InFlight()
    ensures var a, mem' := op.attempt, Next(c, mem, d, op);
      && mem'.model == ModelAfter(c.g, mem.model, a.node, op.reply) && mem'.seen == mem.seen + {a}
      && mem'.current == mem.current
      && mem'.due == (if op.reply.Retry? then mem.due[a.node := op.reply.until] else mem.due)
      && SlotsFollow(c, mem, mem', was, a.node, StateAfter(op.reply))
  {
    hide Break, Succeed, Move, Applies;
  }

  lemma ResultTimers(mem: Memory, mem': Memory, d: Disk, d': Disk, n: NodeId, reply: Reply)
    requires DueMirrors(mem, d) && n in d.status && !d.status[n].RetryWait?
    requires d'.until == if reply.Retry? then d.until[n := reply.until] else d.until
    requires mem'.due == if reply.Retry? then mem.due[n := reply.until] else mem.due
    ensures TimersFollow(mem, mem', d, d', n, StateAfter(reply))
  {
    NotParked(mem, d, n);
  }

  lemma ResultModel(c: Config, mem: Memory, d: Disk, op: Op)
    requires Closed(c.g) && Safe(c, d) && Mirrors(c, mem, d) && Enabled(c, mem, d, op) && op.Deliver?
    requires Applies(c, mem, d, op.attempt)
    ensures var n := op.attempt.node;
      && StartFrom(c.g, Restored(CancelRows(d.status[n := StateAfter(op.reply)], op.canceled))) ==
         ModelAfter(c.g, mem.model, n, op.reply)
      && n !in op.canceled && forall v :: v in op.canceled ==> v in d.status && d.status[v].Blocked?
  {
    hide Safe, SlotsMirror, SeenMirrors, DueMirrors, StartFrom, Break, Succeed, Move, CancelRows, ListsCanceled, Closed;
    var n := op.attempt.node;
    RunningRow(c, mem, d, n);
    match op.reply {
      case Completed =>
        SafeKeys(c, d);
        NoCancel(d.status[n := Succeeded]);
        RestoredMove(d.status, n, Succeeded, []);
        StartFromSucceed(c.g, Restored(d.status), n);
      case Retry(_) =>
        NoCancel(d.status[n := RetryWait]);
        LiveMove(c, mem, d, n, RetryWait);
      case GiveUp => BreakMirrors(c, mem, d, n, DeadLettered, op.canceled);
      case Reject => BreakMirrors(c, mem, d, n, Failed, op.canceled);
    }
  }

  lemma SafeKeys(c: Config, d: Disk)
    requires Safe(c, d)
    ensures d.status.Keys == Restored(d.status).Keys == c.g.nodes
  {
  }

  lemma RunningRow(c: Config, mem: Memory, d: Disk, n: NodeId)
    requires Closed(c.g) && Safe(c, d) && Mirrors(c, mem, d) && n in mem.model.nodes && mem.model.nodes[n].Running?
    ensures n in d.status && d.status[n].InFlight()
  {
    hide Safe, Mirrors, SpentUpTo, PredsDone;
    RowOf(c, mem, d, n);
  }

  lemma ResultMirrors(c: Config, mem: Memory, d: Disk, op: Op)
    requires Closed(c.g) && Safe(c, d) && Mirrors(c, mem, d) && Enabled(c, mem, d, op) && op.Deliver?
    requires Applies(c, mem, d, op.attempt)
    ensures Mirrors(c, Next(c, mem, d, op), After(c, mem, d, op))
  {
    hide Safe, Mirrors, Grows, StartFrom, DueMirrors, Next, After, RowMoves, SlotsFollow, TimersFollow, Claimed,
      ModelAfter, CancelRows, Restored, ListsCanceled, Break, Closed;
    var n, d', mem' := op.attempt.node, After(c, mem, d, op), Next(c, mem, d, op);
    OpGrows(c, mem, d, op);
    MirrorsParts(c, mem, d);
    RunningRow(c, mem, d, n);
    ResultModel(c, mem, d, op);
    ResultRows(c, mem, d, op);
    ResultMemory(c, mem, d, op, d.status[n]);
    ResultTimers(mem, mem', d, d', n, op.reply);
    forall v | v in d'.status ensures Current(mem', v) == AttemptCount(d', v) {
      assert Current(mem, v) == AttemptCount(d, v);
    }
    MovedMirrors(c, mem, mem', d, d', n, StateAfter(op.reply), op.canceled);
  }

  lemma IgnoredMirrors(c: Config, mem: Memory, d: Disk, op: Op)
    requires Mirrors(c, mem, d) && op.Deliver? && !Applies(c, mem, d, op.attempt)
    requires op.attempt.node in mem.model.nodes ==> op.attempt.node in d.status
    ensures Mirrors(c, Next(c, mem, d, op), d) && After(c, mem, d, op) == d
  {
    var mem' := Next(c, mem, d, op);
    hide StartFrom;
    SameFlight(c, mem, mem', d.status, d.status);
    GrowsReflexive(d);
    SeenKept(c, mem, mem', d, d);
  }

  // --- reaping and waking ---------------------------------------------------

  lemma ReapMirrors(c: Config, mem: Memory, d: Disk, op: Op)
    requires Closed(c.g) && Safe(c, d) && Mirrors(c, mem, d) && Enabled(c, mem, d, op) && op.Reap?
    ensures Mirrors(c, Next(c, mem, d, op), After(c, mem, d, op))
  {
    hide Safe, Mirrors, Grows, StartFrom, DueMirrors, SlotsMirror, SeenMirrors, Restored, Closed, Reaped, Release,
      SlotsFollow, TimersFollow, RowMoves;
    var n, d', mem' := op.attempt.node, After(c, mem, d, op), Next(c, mem, d, op);
    OpGrows(c, mem, d, op);
    MirrorsParts(c, mem, d);
    if Holds(mem, n) { HeldRow(c, mem, d, n); }
    ReapedRows(d, op.attempt, Holds(mem, n));
    if Holds(mem, n) {
      LiveMove(c, mem, d, n, Ready);
      NotParked(mem, d, n);
      ReapedMemory(c, mem, mem.(model := Move(mem.model, n, Ready)), d, d', n);
      MovedMirrors(c, mem, mem', d, d', n, Ready, []);
    } else {
      UnmovedMirrors(c, mem, d, d');
    }
  }

  lemma ReapedRows(d: Disk, a: Attempt, held: bool)
    requires held ==> a.node in d.status
    ensures var d' := Reaped(d, a, held);
      && d'.attempts == d.attempts && d'.until == d.until && d'.run == d.run
      && d'.status == (if held then d.status[a.node := Ready] else d.status)
      && (held ==> RowMoves(d, d', a.node, Ready, []))
  {
    NoCancel(Reaped(d, a, held).status);
  }

  lemma ReapedMemory(c: Config, mem: Memory, moved: Memory, d: Disk, d': Disk, n: NodeId)
    requires moved == mem.(model := moved.model) && n in d.status && d.status[n].InFlight()
    requires d'.until == d.until && mem.due - {n} == mem.due
    ensures var mem' := Release(c, moved, n);
      && mem'.model == moved.model && mem'.seen == mem.seen && mem'.current == mem.current
      && SlotsFollow(c, mem, mem', d.status[n], n, Ready) && TimersFollow(mem, mem', d, d', n, Ready)
  {
  }

  lemma HeldRow(c: Config, mem: Memory, d: Disk, n: NodeId)
    requires Closed(c.g) && Safe(c, d) && Mirrors(c, mem, d) && Holds(mem, n)
    ensures n in d.status && d.status[n].InFlight()
  {
    hide Safe, Mirrors, SpentUpTo, PredsDone;
    RowOf(c, mem, d, n);
  }

  lemma UnmovedMirrors(c: Config, mem: Memory, d: Disk, d': Disk)
    requires Mirrors(c, mem, d) && Grows(d, d') && d'.status == d.status && d'.until == d.until && d'.run == d.run
    requires d'.attempts == d.attempts
    ensures Mirrors(c, mem, d')
  {
    hide StartFrom;
    SameFlight(c, mem, mem, d.status, d'.status);
    SeenKept(c, mem, mem, d, d');
    forall v | v in d'.status ensures Current(mem, v) == AttemptCount(d', v) {
      assert Current(mem, v) == AttemptCount(d, v);
    }
  }

  lemma WakeMirrors(c: Config, mem: Memory, d: Disk, op: Op)
    requires Closed(c.g) && Safe(c, d) && Mirrors(c, mem, d) && Enabled(c, mem, d, op) && op.Wake?
    ensures Mirrors(c, Next(c, mem, d, op), After(c, mem, d, op))
  {
    hide Safe, Mirrors, Grows, StartFrom, DueMirrors, SlotsMirror, SeenMirrors, Restored, Closed;
    var n, d', mem' := op.node, After(c, mem, d, op), Next(c, mem, d, op);
    OpGrows(c, mem, d, op);
    MirrorsParts(c, mem, d);
    DueIsParked(c, mem, d, n);
    forall v | v in d'.status ensures Current(mem', v) == AttemptCount(d', v) {
      assert Current(mem, v) == AttemptCount(d, v);
    }
    LiveMove(c, mem, d, n, Ready);
    NoCancel(d'.status);
    MovedMirrors(c, mem, mem', d, d', n, Ready, []);
  }

  lemma DueIsParked(c: Config, mem: Memory, d: Disk, n: NodeId)
    requires Mirrors(c, mem, d) && n in mem.due
    ensures n in d.status && d.status[n].RetryWait? && n in mem.model.nodes && mem.model.nodes[n].RetryWait?
  {
  }

  lemma OpMirrors(c: Config, mem: Memory, d: Disk, op: Op)
    requires Closed(c.g) && Safe(c, d) && Mirrors(c, mem, d) && Enabled(c, mem, d, op) && !op.Cancel? && !op.Finalize?
    ensures Mirrors(c, Next(c, mem, d, op), After(c, mem, d, op))
  {
    hide Safe, Mirrors, Enabled, Next, After, Closed;
    match op {
      case Dispatch(_, _, published, _) =>
        if published { PublishedMirrors(c, mem, d, op); } else { RejectedMirrors(c, mem, d, op); }
      case Deliver(a, _, _) =>
        if Applies(c, mem, d, a) {
          ResultMirrors(c, mem, d, op);
        } else {
          SameKeys(c, mem, d);
          IgnoredMirrors(c, mem, d, op);
        }
      case Reap(_, _) => ReapMirrors(c, mem, d, op);
      case Wake(_) => WakeMirrors(c, mem, d, op);
    }
  }

  lemma SameKeys(c: Config, mem: Memory, d: Disk)
    requires Mirrors(c, mem, d)
    ensures mem.model.nodes.Keys == d.status.Keys
  {
  }

  lemma OpGrows(c: Config, mem: Memory, d: Disk, op: Op)
    requires Closed(c.g) && Safe(c, d) && Mirrors(c, mem, d) && Enabled(c, mem, d, op)
    ensures Grows(d, After(c, mem, d, op))
  {
    hide *;
    OpGuarded(c, mem, d, op);
    ApplyAllGrows(d, Writes(c, mem, d, op));
  }
}
