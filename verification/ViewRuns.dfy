/** The run view over whole runs: what the event fold shows is what the store
  holds, as long as crashes fall between operations
  (engine/core/src/distributed_run_loop.cpp,
  features/workflows/lib/run-view-model.ts). */
module ViewRuns {
  import opened Ids
  import opened Graphs
  import opened StateMachines
  import opened LedgerKeys
  import opened Storage
  import opened Views
  import opened DiskSafety
  import opened Protocol
  import opened OpSafety
  import opened Recovery
  import opened Runs
  import opened CrashWindows

  // ------------------------------------------------------------------------
  // Each operation
  // ------------------------------------------------------------------------

  lemma {:induction false} CancelEventsShow(events: seq<Event>, xs: seq<NodeId>, n: NodeId)
    ensures ShownStep(events + CancelEvents(xs), n) ==
            if n in xs && ShownStep(events, n) != StepDone && ShownStep(events, n) != StepFailed then StepCanceled
            else ShownStep(events, n)
    ensures ShownRun(events + CancelEvents(xs)) == ShownRun(events)
    decreases |xs|
  {
    if xs == [] {
      assert events + CancelEvents(xs) == events;
    } else {
      var e := NodeCanceled(xs[0]);
      assert events + CancelEvents(xs) == (events + [e]) + CancelEvents(xs[1..]);
      ShownStepAppend(events, e, n);
      ShownRunAppend(events, e);
      CancelEventsShow(events + [e], xs[1..], n);
      hide ShownStep, ShownRun;
      assert n in xs <==> n == xs[0] || n in xs[1..];
    }
  }

  /** Rows r moved to s, with xs canceled, and the events that say so. */
  lemma ShowMove(d: Disk, d': Disk, n: NodeId, s: NodeState, xs: seq<NodeId>, e: Event)
    requires ShowsStored(d) && n in d.status && n !in xs && d'.run == d.run
    requires d'.status == CancelRows(d.status[n := s], xs)
    requires forall v :: v in xs ==> v in d.status && d.status[v].Blocked?
    requires d'.events == d.events + [e] + CancelEvents(xs) || d'.events == d.events + CancelEvents(xs) + [e]
    requires NodeOf(e) == Some(n) && StepAfter(MapNode(d.status[n]), e) == MapNode(s)
    ensures ShowsStored(d')
  {
    forall v | v in d'.status ensures ShownStep(d'.events, v) == MapNode(d'.status[v]) {
      assert ShownStep(d.events, v) == MapNode(d.status[v]);
      ShownStepAppend(d.events, e, v);
      CancelEventsShow(d.events + [e], xs, v);
      CancelEventsShow(d.events, xs, v);
      ShownStepAppend(d.events + CancelEvents(xs), e, v);
    }
    ShownRunAppend(d.events, e);
    CancelEventsShow(d.events + [e], xs, n);
    CancelEventsShow(d.events, xs, n);
    ShownRunAppend(d.events + CancelEvents(xs), e);
  }

  /** A move within the states that read as running needs no event. */
  lemma ShowQuietMove(d: Disk, d': Disk, n: NodeId, s: NodeState, e: Event)
    requires ShowsStored(d) && n in d.status && d'.run == d.run
    requires d'.status == d.status[n := s] && MapNode(d.status[n]) == MapNode(s)
    requires d'.events == d.events || (d'.events == d.events + [e] && NodeOf(e) == None && !e.RunStarted? && !e.RunFinished?)
    ensures ShowsStored(d')
  {
    ShownRunAppend(d.events, e);
    forall v | v in d'.status ensures ShownStep(d'.events, v) == MapNode(d'.status[v]) {
      ShownStepAppend(d.events, e, v);
      assert ShownStep(d.events, v) == MapNode(d.status[v]);
    }
  }

  lemma ShowCancel(d: Disk, d': Disk, xs: seq<NodeId>, o: Outcome)
    requires ShowsStored(d) && AllOpen(d, xs) && d'.run == RunCanceled && MapOutcome(o) == ViewCanceled
    requires d'.status == CancelRows(d.status, xs) && d'.events == d.events + CancelEvents(xs) + [RunFinished(o)]
    ensures ShowsStored(d')
  {
    var events := d.events + CancelEvents(xs);
    ShownRunAppend(events, RunFinished(o));
    forall v | v in d'.status ensures ShownStep(d'.events, v) == MapNode(d'.status[v]) {
      assert ShownStep(d.events, v) == MapNode(d.status[v]);
      CancelEventsShow(d.events, xs, v);
      ShownStepAppend(events, RunFinished(o), v);
    }
  }

  lemma ShowFinish(d: Disk, d': Disk, o: Outcome)
    requires ShowsStored(d) && MapRun(d'.run) == MapOutcome(o)
    requires d'.status == d.status && d'.events == d.events + [RunFinished(o)]
    ensures ShowsStored(d')
  {
    ShownRunAppend(d.events, RunFinished(o));
    forall v | v in d'.status ensures ShownStep(d'.events, v) == MapNode(d'.status[v]) {
      assert ShownStep(d.events, v) == MapNode(d.status[v]);
      ShownStepAppend(d.events, RunFinished(o), v);
    }
  }

  lemma DispatchShown(c: Config, mem: Memory, d: Disk, op: Op)
    requires Closed(c.g) && Safe(c, d) && Mirrors(c, mem, d) && Enabled(c, mem, d, op) && ShowsStored(d) && op.Dispatch?
    ensures ShowsStored(After(c, mem, d, op))
  {
    hide Safe, Mirrors, Closed, ShowsStored, ListsCanceled, Break, CancelRows;
    var n, d' := op.node, After(c, mem, d, op);
    ReadyRow(c, mem, d, n);
    ReadyShown(c, mem, d, n);
    DispatchLists(c, mem, d, op);
    DispatchRows(c, mem, d, op);
    hide Enabled, CancelEvents;
    NoCancelEvents();
    if op.published {
      assert d'.events == d.events + [NodeDispatched(n)] + CancelEvents([]);
      ShowMove(d, d', n, Running, [], NodeDispatched(n));
    } else {
      ShowMove(d, d', n, Failed, op.canceled, NodeFailed(n));
    }
  }

  lemma NoCancelEvents()
    ensures CancelEvents([]) == []
  {
  }

  lemma DispatchLists(c: Config, mem: Memory, d: Disk, op: Op)
    requires Closed(c.g) && Safe(c, d) && Mirrors(c, mem, d) && Enabled(c, mem, d, op) && op.Dispatch?
    ensures op.published ==> op.canceled == []
    ensures op.node !in op.canceled && forall v :: v in op.canceled ==> v in d.status && d.status[v].Blocked?
  {
    hide Safe, Mirrors, Closed, ListsCanceled, Break, Started, HasSlot, Fated;
    if !op.published {
      BreakStarted(c.g, mem.model, op.node, Failed);
      BreakMirrors(c, mem, d, op.node, Failed, op.canceled);
    }
  }

  lemma QuietShown(c: Config, mem: Memory, d: Disk, op: Op)
    requires Closed(c.g) && Safe(c, d) && Mirrors(c, mem, d) && Enabled(c, mem, d, op) && ShowsStored(d)
    requires op.Reap? || op.Wake?
    ensures ShowsStored(After(c, mem, d, op))
  {
    hide Safe, Mirrors, Closed, ShowsStored;
    var d' := After(c, mem, d, op);
    match op {
      case Reap(a, _) =>
        FlightAgrees(c, mem, d, a.node);
        LeasedRow(c, d, a);
        if Holds(mem, a.node) {
          ShowQuietMove(d, d', a.node, Ready, NodeLeaseExpired(a.node));
        } else {
          assert d'.status == d.status[a.node := d.status[a.node]];
          ShowQuietMove(d, d', a.node, d.status[a.node], NodeLeaseExpired(a.node));
        }
      case Wake(n) =>
        DueIsParked(c, mem, d, n);
        ShowQuietMove(d, d', n, Ready, RunResumed);
    }
  }

  lemma EndShown(c: Config, mem: Memory, d: Disk, op: Op)
    requires Closed(c.g) && Safe(c, d) && Mirrors(c, mem, d) && Enabled(c, mem, d, op) && ShowsStored(d)
    requires op.Cancel? || op.Finalize?
    ensures ShowsStored(After(c, mem, d, op))
  {
    hide Safe, Mirrors, Closed, ShowsStored, ListsCanceled, CancelAll, Verdict, CancelRows;
    var d' := After(c, mem, d, op);
    if op.Cancel? {
      CancelListsOpen(c, mem, d, op.canceled);
      ShowCancel(d, d', op.canceled, op.outcome);
    } else {
      SameWhenDone(c, mem, d);
      VerdictSafe(d.status);
      ShowFinish(d, d', VerdictOutcome(Verdict(mem.model.nodes)));
    }
  }

  /** Without a crash inside it, every operation keeps the event fold equal to
    the projection of the rows. */
  lemma OpShowsStored(c: Config, mem: Memory, d: Disk, op: Op)
    requires Closed(c.g) && Safe(c, d) && Mirrors(c, mem, d) && Enabled(c, mem, d, op) && ShowsStored(d)
    ensures ShowsStored(After(c, mem, d, op))
  {
    hide Safe, Mirrors, Closed, ShowsStored, Enabled, Applies;
    match op {
      case Dispatch(_, _, _, _) => DispatchShown(c, mem, d, op);
      case Deliver(a, _, _) => if Applies(c, mem, d, a) { ResultShown(c, mem, d, op); }
      case Reap(_, _) => QuietShown(c, mem, d, op);
      case Wake(_) => QuietShown(c, mem, d, op);
      case _ => EndShown(c, mem, d, op);
    }
  }

  /** A row that memory holds as ready is blocked or ready in the store. */
  lemma ReadyShown(c: Config, mem: Memory, d: Disk, n: NodeId)
    requires Closed(c.g) && Safe(c, d) && Mirrors(c, mem, d) && n in mem.model.nodes && mem.model.nodes[n].Ready?
    ensures n in d.status && (d.status[n].Blocked? || d.status[n].Ready?)
  {
    hide Safe, Mirrors, SpentUpTo, PredsDone;
    RowOf(c, mem, d, n);
  }

  lemma LeasedRow(c: Config, d: Disk, a: Attempt)
    requires Safe(c, d) && LeaseOpen(d, a)
    ensures a.node in d.status
  {
    assert AttemptSafe(c, d, a);
  }

  lemma ResultShown(c: Config, mem: Memory, d: Disk, op: Op)
    requires Closed(c.g) && Safe(c, d) && Mirrors(c, mem, d) && Enabled(c, mem, d, op) && ShowsStored(d)
    requires op.Deliver? && Applies(c, mem, d, op.attempt)
    ensures ShowsStored(After(c, mem, d, op))
  {
    hide Safe, Mirrors, Closed, ShowsStored, Enabled, CancelRows, ClaimedDisk, CloseLease;
    var n, d' := op.attempt.node, After(c, mem, d, op);
    RunningRow(c, mem, d, n);
    ResultModel(c, mem, d, op);
    ResultRows(c, mem, d, op);
    assert d'.events == d.events + [EventOf(n, op.reply)] + CancelEvents(op.canceled);
    ShowMove(d, d', n, StateAfter(op.reply), op.canceled, EventOf(n, op.reply));
  }

  // ------------------------------------------------------------------------
  // Whole runs
  // ------------------------------------------------------------------------

  /** A crash that falls between two operations. */
  ghost predicate AtLoopHead(c: Config, w: World, l: Label) {
    l.Crash? ==> l.calls == 0 || l.calls == |Writes(c, w.mem, w.disk, l.op)|
  }

  /** A run whose start was announced and whose crashes fall between
    operations. */
  ghost predicate IsWhole(c: Config, ws: seq<World>, ls: seq<Label>) {
    && IsExecution(c, ws, ls) && Fresh(c, ws[0])
    && forall i {:trigger ls[i]} :: 0 <= i < |ls| ==> AtLoopHead(c, ws[i], ls[i])
  }

  lemma DoKeepsShown(c: Config, w: World, op: Op)
    requires Closed(c.g) && Good(c, w) && Alive(w) && Enabled(c, w.mem, w.disk, op) && ShowsStored(w.disk)
    ensures ShowsStored(ApplyAll(w.disk, Writes(c, w.mem, w.disk, op)))
  {
    hide Safe, Mirrors, Enabled, Writes, Next, After, ShowsStored, Closed, AllGuarded;
    OpGuarded(c, w.mem, w.disk, op);
    OpShowsStored(c, w.mem, w.disk, op);
  }

  lemma SideCallKeepsShown(d: Disk, call: Write)
    requires ShowsStored(d)
    requires var e := Applied(d, call);
      e.status == d.status && e.run == d.run && (e.events == d.events || e.events == d.events + [RunResumed])
    ensures ShowsStored(Applied(d, call))
  {
    hide Applied;
    var e := Applied(d, call);
    forall n ensures ShownStep(d.events + [RunResumed], n) == ShownStep(d.events, n) {
      ShownStepAppend(d.events, RunResumed, n);
    }
    ShownRunAppend(d.events, RunResumed);
    forall n | n in e.status ensures ShownStep(e.events, n) == MapNode(e.status[n]) {
      assert ShownStep(d.events, n) == MapNode(d.status[n]);
    }
  }

  lemma StepKeepsShown(c: Config, w: World, l: Label, w': World)
    requires Closed(c.g) && Good(c, w) && ShowsStored(w.disk) && Advance(c, w, l, w') && AtLoopHead(c, w, l)
    ensures ShowsStored(w'.disk)
  {
    hide Good, Enabled, Writes, Next, ShowsStored, Closed, ApplyAll, LedgerKey, Recovered;
    match l {
      case Do(op) => EnabledRuns(c, w, op); DoKeepsShown(c, w, op);
      case Crash(op, calls) =>
        var ws := Writes(c, w.mem, w.disk, op);
        EnabledRuns(c, w, op);
        NoCalls(w.disk, ws);
        assert ws[..|ws|] == ws;
        DoKeepsShown(c, w, op);
      case Worker(call) => SideCallKeepsShown(w.disk, call);
      case OtherRun(key) => SideCallKeepsShown(w.disk, Claim(key));
      case Announce => SideCallKeepsShown(w.disk, PublishEvent(RunResumed));
    }
  }

  lemma FreshIsShown(c: Config, w: World)
    requires Fresh(c, w)
    ensures ShowsStored(w.disk)
  {
    FreshShows(w.disk.events);
  }

  lemma {:induction false} WholeRunsShow(c: Config, ws: seq<World>, ls: seq<Label>, i: nat)
    requires Closed(c.g) && IsWhole(c, ws, ls) && i < |ws|
    ensures ShowsStored(ws[i].disk)
  {
    hide Good, ShowsStored, Advance, Initial, Fresh, AtLoopHead;
    if i == 0 {
      FreshIsShown(c, ws[0]);
    } else {
      WholeRunsShow(c, ws, ls, i - 1);
      RunsAreGood(c, ws, ls, i - 1);
      var l := ls[i - 1];
      StepKeepsShown(c, ws[i - 1], l, ws[i]);
    }
  }

  /** The event fold and the store's rows show the same at every loop head. */
  lemma ViewIsExact(c: Config, ws: seq<World>, ls: seq<Label>, i: nat)
    requires Closed(c.g) && IsWhole(c, ws, ls) && i < |ws|
    ensures var d := ws[i].disk;
      && (forall n :: n in d.status ==> ShownStep(d.events, n) == MapNode(d.status[n]))
      && ShownRun(d.events) == MapRun(d.run)
  {
    hide IsWhole;
    WholeRunsShow(c, ws, ls, i);
    var d := ws[i].disk;
    forall n | n in d.status ensures ShownStep(d.events, n) == MapNode(d.status[n]) { }
  }
}
