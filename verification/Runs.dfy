/** Whole runs of the distributed loop, over any number of crashes and restarts:
  the properties the durable store, the ledger and the leases are for
  (engine/core/src/distributed_run_loop.cpp). */
module Runs {
  import opened Ids
  import opened Graphs
  import opened StateMachines
  import opened LedgerKeys
  import opened Storage
  import opened Views
  import opened DiskSafety
  import opened Protocol
  import opened OpSafety
  import opened Recovery

  datatype World = World(mem: Memory, disk: Disk)

  /** Do is an undisturbed operation. Crash kills the process after the first
    calls calls of one, and a new process resumes from the store. Worker is a
    lease call of a worker that has read the task, OtherRun a ledger claim of
    another run, and Announce the event of a finished resume. */
  datatype Label =
    | Do(op: Op)
    | Crash(op: Op, calls: nat)
    | Worker(call: Write)
    | OtherRun(key: string)
    | Announce

  ghost predicate Alive(w: World) {
    w.mem.model.run.RunRunning?
  }

  /** All rows are there, and the start was announced or not. */
  ghost function FreshDisk(c: Config, ledger: set<string>, announced: bool): Disk {
    Disk(RunState.RunRunning, AllBlocked(c.g), map[], map[], map[], ledger, {}, [], if announced then [RunStarted] else [])
  }

  ghost predicate OwnsNoKey(c: Config, ledger: set<string>) {
    forall a :: LedgerKey(c.run, a) !in ledger
  }

  ghost function FreshMemory(c: Config): Memory {
    Memory(StartFrom(c.g, AllBlocked(c.g)), map[], map[], map[], {}, {})
  }

  /** A run that was started and announced. */
  ghost predicate Fresh(c: Config, w: World) {
    && (exists ledger :: w.disk == FreshDisk(c, ledger, true) && OwnsNoKey(c, ledger))
    && w.mem == FreshMemory(c)
  }

  /** A started run, with other runs' claims already in the ledger; or one whose
    first process created all rows and died before it announced the start. */
  ghost predicate Initial(c: Config, w: World) {
    Fresh(c, w) || ((exists ledger :: w.disk == FreshDisk(c, ledger, false) && OwnsNoKey(c, ledger)) && w.mem == Recovered(c, w.disk))
  }

  ghost predicate Advance(c: Config, w: World, l: Label, w': World) {
    match l
    case Do(op) =>
      Enabled(c, w.mem, w.disk, op) &&
      w' == World(Next(c, w.mem, w.disk, op), ApplyAll(w.disk, Writes(c, w.mem, w.disk, op)))
    case Crash(op, calls) =>
      Enabled(c, w.mem, w.disk, op) && calls <= |Writes(c, w.mem, w.disk, op)| &&
      var d := ApplyAll(w.disk, Writes(c, w.mem, w.disk, op)[..calls]);
      !Finished(d.run) && w' == World(Recovered(c, d), d)
    case Worker(call) =>
      && ((call.AcquireLease? && call.attempt in w.disk.tasks) || call.RenewLease?)
      && w' == w.(disk := Applied(w.disk, call))
    case OtherRun(key) =>
      (forall a :: key != LedgerKey(c.run, a)) && w' == w.(disk := Applied(w.disk, Claim(key)))
    case Announce =>
      Alive(w) && w' == w.(disk := Applied(w.disk, PublishEvent(RunResumed)))
  }

  ghost predicate IsExecution(c: Config, ws: seq<World>, ls: seq<Label>) {
    && |ws| == |ls| + 1 && Initial(c, ws[0])
    && forall i {:trigger ls[i]} :: 0 <= i < |ls| ==> Advance(c, ws[i], ls[i], ws[i + 1])
  }

  // ------------------------------------------------------------------------
  // The invariant
  // ------------------------------------------------------------------------

  ghost predicate Good(c: Config, w: World) {
    && Safe(c, w.disk)
    && (Alive(w) ==> Mirrors(c, w.mem, w.disk))
    && (!Alive(w) ==> Finished(w.disk.run))
  }

  lemma FreshIsSafe(c: Config, ledger: set<string>, announced: bool)
    requires OwnsNoKey(c, ledger)
    ensures Safe(c, FreshDisk(c, ledger, announced))
  {
    var d := FreshDisk(c, ledger, announced);
    forall n | n in c.g.nodes ensures RowSafe(c, d, n) { }
    forall a ensures AttemptSafe(c, d, a) { }
    FreshShows(d.events);
  }

  lemma FreshShows(events: seq<Event>)
    requires events == [] || events == [RunStarted]
    ensures ShownRun(events) == (if events == [] then ViewQueued else ViewRunning)
    ensures forall n :: ShownStep(events, n) == StepPending
  {
    assert [RunStarted] == [] + [RunStarted];
    ShownRunAppend([], RunStarted);
    forall n ensures ShownStep(events, n) == StepPending { ShownStepAppend([], RunStarted, n); }
  }

  lemma InitialIsGood(c: Config, w: World)
    requires Closed(c.g) && Initial(c, w)
    ensures Good(c, w) && Alive(w)
  {
    hide Safe, StartFrom, OwnsNoKey;
    if Fresh(c, w) {
      var ledger :| w.disk == FreshDisk(c, ledger, true) && OwnsNoKey(c, ledger);
      FreshIsSafe(c, ledger, true);
      FreshMirrors(c, w.disk);
      StartFromRuns(c.g, AllBlocked(c.g));
    } else {
      var ledger :| w.disk == FreshDisk(c, ledger, false) && OwnsNoKey(c, ledger);
      FreshIsSafe(c, ledger, false);
      RecoveredMirrors(c, w.disk);
      RecoveredRuns(c, w.disk);
    }
  }

  lemma FreshMirrors(c: Config, d: Disk)
    requires d.status == AllBlocked(c.g) && d.attempts == map[] && d.run == RunState.RunRunning
    ensures Mirrors(c, FreshMemory(c), d)
  {
    hide StartFrom;
    var mem := FreshMemory(c);
    assert Restored(AllBlocked(c.g)) == AllBlocked(c.g);
    forall key | key != "" ensures Used(mem, key) == |InFlightWith(c, d.status, key)| {
      assert InFlightWith(c, d.status, key) == {};
    }
  }

  lemma StartFromRuns(g: Graph, nodes: Nodes)
    ensures StartFrom(g, nodes).run == RunState.RunRunning
  {
  }

  /** One guarded call that no row depends on. */
  lemma SideCallKeepsGood(c: Config, w: World, call: Write)
    requires Good(c, w) && Guard(c, w.disk, call)
    requires var d := Applied(w.disk, call);
      d.status == w.disk.status && d.until == w.disk.until && d.run == w.disk.run && d.attempts == w.disk.attempts
    ensures Good(c, w.(disk := Applied(w.disk, call)))
  {
    hide Safe, Guard, Applied, Mirrors, Grows;
    GuardedKeepsSafe(c, w.disk, call);
    AppliedGrows(w.disk, call);
    if Alive(w) { UnmovedMirrors(c, w.mem, w.disk, Applied(w.disk, call)); }
  }

  lemma CrashKeepsGood(c: Config, w: World, op: Op, calls: nat)
    requires Closed(c.g) && Good(c, w) && Alive(w) && Enabled(c, w.mem, w.disk, op)
    requires calls <= |Writes(c, w.mem, w.disk, op)|
    ensures Safe(c, ApplyAll(w.disk, Writes(c, w.mem, w.disk, op)[..calls]))
  {
    hide Safe, Mirrors, Enabled, Writes;
    OpGuarded(c, w.mem, w.disk, op);
    SafeAtEveryCrashPoint(c, w.disk, Writes(c, w.mem, w.disk, op), calls);
  }

  lemma RecoveredRuns(c: Config, d: Disk)
    ensures Recovered(c, d).model.run == RunState.RunRunning
  {
  }

  lemma EndingFinishes(c: Config, mem: Memory, d: Disk, op: Op)
    requires Enabled(c, mem, d, op)
    ensures Next(c, mem, d, op).model.run.RunRunning? <==> !(op.Cancel? || op.Finalize?)
    ensures op.Cancel? || op.Finalize? ==> Finished(After(c, mem, d, op).run)
  {
    hide ListsCanceled, Applies, PendingCount, CancelFrom;
  }

  lemma EnabledRuns(c: Config, w: World, op: Op)
    requires Enabled(c, w.mem, w.disk, op)
    ensures Alive(w)
  {
  }

  lemma DoKeepsGood(c: Config, w: World, op: Op)
    requires Closed(c.g) && Good(c, w) && Enabled(c, w.mem, w.disk, op)
    ensures Good(c, World(Next(c, w.mem, w.disk, op), ApplyAll(w.disk, Writes(c, w.mem, w.disk, op))))
    ensures ApplyAll(w.disk, Writes(c, w.mem, w.disk, op)) == After(c, w.mem, w.disk, op)
  {
    hide Safe, Mirrors, Enabled, Writes, Next, After, ApplyAll, AllGuarded;
    EnabledRuns(c, w, op);
    var ws := Writes(c, w.mem, w.disk, op);
    OpGuarded(c, w.mem, w.disk, op);
    CrashKeepsGood(c, w, op, |ws|);
    assert ws[..|ws|] == ws;
    EndingFinishes(c, w.mem, w.disk, op);
    if !op.Cancel? && !op.Finalize? { OpMirrors(c, w.mem, w.disk, op); }
  }

  lemma StepKeepsGood(c: Config, w: World, l: Label, w': World)
    requires Closed(c.g) && Good(c, w) && Advance(c, w, l, w')
    ensures Good(c, w')
  {
    hide Good, Enabled, Writes, Next, ApplyAll, Recovered, LedgerKey;
    match l {
      case Do(op) => DoKeepsGood(c, w, op);
      case Crash(op, calls) =>
        EnabledRuns(c, w, op);
        CrashKeepsGood(c, w, op, calls);
        RecoveredMirrors(c, w'.disk);
        RecoveredRuns(c, w'.disk);
        GoodFromParts(c, w');
      case Worker(call) => SideCallKeepsGood(c, w, call);
      case OtherRun(key) => SideCallKeepsGood(c, w, Claim(key));
      case Announce => SideCallKeepsGood(c, w, PublishEvent(RunResumed));
    }
  }

  lemma GoodFromParts(c: Config, w: World)
    requires Safe(c, w.disk) && Alive(w) && Mirrors(c, w.mem, w.disk)
    ensures Good(c, w)
  {
  }

  /** Every world of every run is good. */
  lemma {:induction false} RunsAreGood(c: Config, ws: seq<World>, ls: seq<Label>, i: nat)
    requires Closed(c.g) && IsExecution(c, ws, ls) && i < |ws|
    ensures Good(c, ws[i])
  {
    hide Good, Advance, Initial;
    if i == 0 {
      InitialIsGood(c, ws[0]);
    } else {
      RunsAreGood(c, ws, ls, i - 1);
      var l := ls[i - 1];
      StepKeepsGood(c, ws[i - 1], l, ws[i]);
    }
  }

  // ------------------------------------------------------------------------
  // Sequences of undisturbed operations
  // ------------------------------------------------------------------------

  ghost function Stepped(c: Config, w: World, op: Op): World {
    World(Next(c, w.mem, w.disk, op), ApplyAll(w.disk, Writes(c, w.mem, w.disk, op)))
  }

  /** ops can be performed one after the other from w, and lead to w'. */
  ghost predicate Follows(c: Config, w: World, ops: seq<Op>, w': World)
    decreases |ops|
  {
    if ops == [] then w' == w
    else Enabled(c, w.mem, w.disk, ops[0]) && Follows(c, Stepped(c, w, ops[0]), ops[1..], w')
  }

  ghost function CallsOf(c: Config, w: World, ops: seq<Op>): seq<Write>
    decreases |ops|
  {
    if ops == [] then [] else Writes(c, w.mem, w.disk, ops[0]) + CallsOf(c, Stepped(c, w, ops[0]), ops[1..])
  }

  /** What ops ask of the quota gate. */
  ghost function SlotCallsOf(c: Config, w: World, ops: seq<Op>): seq<SlotCall>
    decreases |ops|
  {
    if ops == [] then [] else SlotCalls(c, w.mem, w.disk, ops[0]) + SlotCallsOf(c, Stepped(c, w, ops[0]), ops[1..])
  }

  lemma {:induction false} FollowsThen(c: Config, w: World, ops: seq<Op>, w': World, more: seq<Op>, w'': World)
    requires Follows(c, w, ops, w') && Follows(c, w', more, w'')
    ensures Follows(c, w, ops + more, w'') && CallsOf(c, w, ops + more) == CallsOf(c, w, ops) + CallsOf(c, w', more)
    ensures SlotCallsOf(c, w, ops + more) == SlotCallsOf(c, w, ops) + SlotCallsOf(c, w', more)
    decreases |ops|
  {
    hide Enabled, Stepped, Writes, SlotCalls;
    if ops == [] {
      assert ops + more == more;
    } else {
      assert (ops + more)[1..] == ops[1..] + more;
      FollowsThen(c, Stepped(c, w, ops[0]), ops[1..], w', more, w'');
    }
  }

  lemma FollowsOne(c: Config, w: World, op: Op)
    requires Enabled(c, w.mem, w.disk, op)
    ensures Follows(c, w, [op], Stepped(c, w, op)) && CallsOf(c, w, [op]) == Writes(c, w.mem, w.disk, op)
    ensures SlotCallsOf(c, w, [op]) == SlotCalls(c, w.mem, w.disk, op)
  {
    hide Enabled, Stepped, Writes, SlotCalls;
    assert [op][1..] == [];
  }
}
