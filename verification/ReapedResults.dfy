/** The late result of an attempt whose lease was reaped
  (engine/core/src/distributed_run_loop.cpp). */
module ReapedResults {
  import opened Ids
  import opened Graphs
  import opened StateMachines
  import opened LedgerKeys
  import opened Storage
  import opened Views
  import opened DiskSafety
  import opened Protocol
  import opened OpSafety
  import opened Recovery
  import opened Runs
  import opened RunLaws
  import opened CrashWindows

  /** a was reaped, but its node reads as in flight and a as its attempt. */
  ghost predicate Slipped(c: Config, d: Disk, a: Attempt) {
    && a.node in d.status && d.status[a.node].InFlight()
    && Latest(d, a) && !Claimed(c, d, a) && Expired(d, a)
  }

  /** At a loop head a published attempt that was reaped is accepted exactly in
    that state. */
  lemma AppliesIffSlipped(c: Config, mem: Memory, d: Disk, a: Attempt)
    requires Closed(c.g) && Safe(c, d) && Mirrors(c, mem, d) && a in d.tasks
    ensures Expired(d, a) && Applies(c, mem, d, a) <==> Slipped(c, d, a)
  {
    hide Safe, Mirrors, LedgerKey;
    if Applies(c, mem, d, a) {
      ApplicableFromMemory(c, mem, d, a);
      RunningRow(c, mem, d, a.node);
    }
    if Slipped(c, d, a) { SlippedApplies(c, mem, d, a); }
  }

  lemma SlippedApplies(c: Config, mem: Memory, d: Disk, a: Attempt)
    requires Closed(c.g) && Safe(c, d) && Mirrors(c, mem, d) && Slipped(c, d, a)
    ensures Applies(c, mem, d, a)
  {
    SameKeys(c, mem, d);
    RowOf(c, mem, d, a.node);
    hide Safe, StartFrom, SlotsMirror, DueMirrors, LedgerKey;
    assert a in mem.seen ==> Claimed(c, d, a) || a.number < AttemptCount(d, a.node);
  }

  // ------------------------------------------------------------------------
  // Calls
  // ------------------------------------------------------------------------

  /** A call that has nothing to do with a's node, or settles it. */
  lemma HarmlessSlip(c: Config, d: Disk, w: Write, a: Attempt)
    requires Harmless(c, w, a.node)
    ensures Slipped(c, Applied(d, w), a) <==> Slipped(c, d, a) && OpenRow(Applied(d, w), a.node)
  {
    var d' := Applied(d, w);
    assert AttemptCount(d', a.node) == AttemptCount(d, a.node);
    assert Claimed(c, d', a) <==> Claimed(c, d, a) by {
      if w.Claim? { assert Attempt(a.node, a.number) == a; }
    }
    hide LedgerKey, AttemptCount;
  }

  lemma {:induction false} AllHarmlessSlip(c: Config, d: Disk, ws: seq<Write>, a: Attempt)
    requires forall w :: w in ws ==> Harmless(c, w, a.node)
    ensures Slipped(c, ApplyAll(d, ws), a) <==> Slipped(c, d, a) && OpenRow(ApplyAll(d, ws), a.node)
    decreases |ws|
  {
    hide Harmless, Applied, Latest, Claimed, Expired, Grows;
    if ws != [] {
      var mid := Applied(d, ws[0]);
      assert Harmless(c, ws[0], a.node);
      HarmlessSlip(c, d, ws[0], a);
      AllHarmlessSlip(c, mid, ws[1..], a);
      ApplyAllGrows(mid, ws[1..]);
      RowsStay(d, ws[0]);
      OpenBefore(mid, ApplyAll(mid, ws[1..]), a.node);
    }
  }

  // ------------------------------------------------------------------------
  // Operations cut short
  // ------------------------------------------------------------------------

  /** The crash falls right after the first call of a's reap, with a's node in
    flight, or right after the first call of the next dispatch of its node. */
  ghost predicate Slips(mem: Memory, d: Disk, op: Op, calls: nat, a: Attempt) {
    && calls == 1
    && match op
       case Reap(b, _) => b == a && Holds(mem, a.node)
       case Dispatch(n, _, _, _) => n == a.node && Latest(d, a) && Expired(d, a)
       case _ => false
  }

  /** Before and after the first calls of an operation. */
  ghost predicate SlipsOnlyThere(c: Config, mem: Memory, d: Disk, op: Op, calls: nat, a: Attempt)
    requires calls <= |Writes(c, mem, d, op)|
  {
    var e := Prefix(c, mem, d, op, calls);
    Slipped(c, e, a) <==> (Slipped(c, d, a) || Slips(mem, d, op, calls, a)) && !Claimed(c, e, a) && OpenRow(e, a.node)
  }

  lemma OthersSlip(c: Config, mem: Memory, d: Disk, op: Op, calls: nat, a: Attempt)
    requires Subject(op) != Some(a.node) && calls <= |Writes(c, mem, d, op)|
    ensures SlipsOnlyThere(c, mem, d, op, calls, a)
  {
    hide Writes, Harmless, Latest, Claimed, Expired, Applied;
    var ws := Writes(c, mem, d, op)[..calls];
    WritesHarmless(c, mem, d, op, a.node);
    assert forall w :: w in ws ==> w in Writes(c, mem, d, op);
    AllHarmlessSlip(c, d, ws, a);
  }

  lemma DispatchSlips(c: Config, mem: Memory, d: Disk, op: Op, calls: nat, a: Attempt)
    requires Closed(c.g) && Safe(c, d) && Mirrors(c, mem, d) && Enabled(c, mem, d, op)
    requires op.Dispatch? && op.node == a.node && calls <= |Writes(c, mem, d, op)|
    ensures SlipsOnlyThere(c, mem, d, op, calls, a)
  {
    hide Safe, Mirrors, Closed, SpentUpTo, PredsDone, HasRoom, ApplyAll, Claimed, Recorded, LeaseOpen, ListsCanceled, Break,
      Slipped, Expired;
    var n := op.node;
    DispatchableFromMemory(c, mem, d, n);
    FreshAttempt(c, d, n);
    hide Enabled;
    var b := Attempt(n, AttemptCount(d, n) + 1);
    var ws := Writes(c, mem, d, op);
    DispatchShape(c, mem, d, op);
    NoCalls(d, ws);
    RestingNotSlipped(c, d, a);
    hide Writes;
    if calls == 1 {
      PreludeStates(d, ws, b, op.expires);
      FirstCallSlips(c, d, a);
    } else if calls >= 2 {
      DispatchPastSlip(c, d, ws, b, op.expires, op.published, calls, a);
    }
  }

  lemma RestingNotSlipped(c: Config, d: Disk, a: Attempt)
    requires a.node in d.status && !d.status[a.node].InFlight()
    ensures !Slipped(c, d, a)
  {
  }

  lemma FirstCallSlips(c: Config, d: Disk, a: Attempt)
    requires OpenRow(d, a.node)
    ensures var e := d.(status := d.status[a.node := Dispatched]);
      Slipped(c, e, a) <==> Latest(d, a) && Expired(d, a) && !Claimed(c, e, a) && OpenRow(e, a.node)
  {
    hide LedgerKey;
  }

  lemma DispatchPastSlip(c: Config, d: Disk, ws: seq<Write>, b: Attempt, expires: int, published: bool, calls: nat, a: Attempt)
    requires |ws| >= 6 && ws[..4] == Prelude(b, expires) && 2 <= calls <= |ws|
    requires ws[4] == if published then PublishTask(b) else CompleteNode(b.node, Failed)
    requires published ==> |ws| == 6 && ws[5] == PublishEvent(NodeDispatched(b.node))
    requires OpenRow(d, b.node) && b.number == AttemptCount(d, b.node) + 1 && b.node == a.node
    requires !Recorded(d, b) && b !in d.leases
    ensures !Slipped(c, ApplyAll(d, ws[..calls]), a)
  {
    hide LedgerKey, ApplyAll, Prelude, Claimed, Recorded, Latest, Expired, AttemptCount;
    PreludeStates(d, ws, b, expires);
    if calls <= 4 {
      NewestNotExpired(d, ApplyAll(d, ws[..calls]), b, a);
    } else if published {
      PublishedStates(d, ws, b, expires, calls);
      NewestNotExpired(d, ApplyAll(d, ws[..calls]), b, a);
    } else {
      ApplyNext(d, ws, 4);
      assert OpenRow(Opened(d, b, expires), b.node);
      SettledForGood(c, d, ws, 5, calls, a);
    }
  }

  lemma PublishedStates(d: Disk, ws: seq<Write>, b: Attempt, expires: int, calls: nat)
    requires |ws| == 6 && ws[4] == PublishTask(b) && ws[5] == PublishEvent(NodeDispatched(b.node)) && 5 <= calls <= 6
    requires ApplyAll(d, ws[..4]) == Opened(d, b, expires)
    ensures var e := ApplyAll(d, ws[..calls]);
      e.attempts == Opened(d, b, expires).attempts && e.leases == Opened(d, b, expires).leases
  {
    hide ApplyAll, Opened;
    ApplyNext(d, ws, 4);
    if calls == 6 { ApplyNext(d, ws, 5); }
  }

  lemma NewestNotExpired(d: Disk, e: Disk, b: Attempt, a: Attempt)
    requires b.node == a.node && b.number == AttemptCount(d, b.node) + 1 && !Recorded(d, b) && b !in d.leases
    requires AttemptsOf(e, b.node) == AttemptsOf(d, b.node) + {b.number}
    requires b in e.leases ==> e.leases[b].status.LeaseRunning?
    ensures !(Latest(e, a) && Expired(e, a))
  {
    assert AttemptCount(e, b.node) == b.number;
    assert Latest(e, a) ==> a == b;
  }

  lemma SettledForGood(c: Config, d: Disk, ws: seq<Write>, head: nat, calls: nat, a: Attempt)
    requires head <= calls <= |ws|
    requires var e := ApplyAll(d, ws[..head]); a.node in e.status && e.status[a.node].Terminal()
    ensures !Slipped(c, ApplyAll(d, ws[..calls]), a)
  {
    hide Applied;
    ApplyAllConcat(d, ws[..head], ws[head..calls]);
    assert ws[..head] + ws[head..calls] == ws[..calls];
    ApplyAllGrows(ApplyAll(d, ws[..head]), ws[head..calls]);
  }

  predicate NoRecord(w: Write) {
    !w.RecordAttempt?
  }

  lemma {:induction false} AttemptsKept(d: Disk, ws: seq<Write>)
    requires forall w :: w in ws ==> NoRecord(w)
    ensures ApplyAll(d, ws).attempts == d.attempts
    decreases |ws|
  {
    if ws != [] {
      assert NoRecord(ws[0]);
      AttemptsKept(Applied(d, ws[0]), ws[1..]);
    }
  }

  lemma {:induction false} CancelsRecordNothing(xs: seq<NodeId>)
    ensures forall w :: w in CancelWrites(xs) ==> NoRecord(w)
  {
    if xs != [] { CancelsRecordNothing(xs[1..]); }
  }

  lemma DeliverRecordsNothing(c: Config, mem: Memory, d: Disk, op: Op)
    requires op.Deliver?
    ensures forall w :: w in Writes(c, mem, d, op) ==> NoRecord(w)
  {
    hide Applies, Considered, LedgerKey, CancelWrites;
    CancelsRecordNothing(op.canceled);
  }

  /** A delivery to the node touches its latest attempt, if it touches any, and
    claims that first. */
  lemma DeliverSlips(c: Config, mem: Memory, d: Disk, op: Op, calls: nat, a: Attempt)
    requires Closed(c.g) && Safe(c, d) && Mirrors(c, mem, d) && Enabled(c, mem, d, op)
    requires op.Deliver? && op.attempt.node == a.node && calls <= |Writes(c, mem, d, op)|
    ensures SlipsOnlyThere(c, mem, d, op, calls, a)
  {
    hide Safe, Mirrors, Closed, Writes, ApplyAll, Claimed, Expired, Enabled, Latest, Applies;
    var ws, b := Writes(c, mem, d, op), op.attempt;
    var e := ApplyAll(d, ws[..calls]);
    DeliverInTasks(c, mem, d, op);
    if calls == 0 {
      NoCalls(d, ws);
      SlippedIsOpen(c, d, a);
    } else if Applies(c, mem, d, b) {
      ApplicableFromMemory(c, mem, d, b);
      DeliverRecordsNothing(c, mem, d, op);
      AttemptsKept(d, ws[..calls]);
      AppliedClaims(c, mem, d, op, calls);
      OnlyLatestSlips(c, d, e, a, b);
    } else {
      IgnoredWindow(c, mem, d, op, calls);
      SlippedIsOpen(c, d, a);
    }
  }

  lemma DeliverInTasks(c: Config, mem: Memory, d: Disk, op: Op)
    requires Enabled(c, mem, d, op) && op.Deliver?
    ensures op.attempt in d.tasks
  {
  }

  lemma SlippedIsOpen(c: Config, d: Disk, a: Attempt)
    ensures Slipped(c, d, a) ==> !Claimed(c, d, a) && OpenRow(d, a.node)
  {
  }

  lemma OnlyLatestSlips(c: Config, d: Disk, e: Disk, a: Attempt, b: Attempt)
    requires a.node == b.node && Latest(d, b) && e.attempts == d.attempts && Claimed(c, e, b)
    ensures !Slipped(c, e, a) && (Slipped(c, d, a) ==> Claimed(c, e, a))
  {
    assert Latest(d, a) ==> a == b;
    assert AttemptCount(e, a.node) == AttemptCount(d, a.node);
    hide LedgerKey, AttemptCount;
  }

  lemma AppliedClaims(c: Config, mem: Memory, d: Disk, op: Op, calls: nat)
    requires op.Deliver? && Applies(c, mem, d, op.attempt) && 1 <= calls <= |Writes(c, mem, d, op)|
    ensures Claimed(c, ApplyAll(d, Writes(c, mem, d, op)[..calls]), op.attempt)
  {
    hide LedgerKey, CancelWrites, Applies;
    var ws, claim := Writes(c, mem, d, op), Claim(LedgerKey(c.run, op.attempt));
    assert ws[..calls][0] == claim;
    ApplyAllGrows(Applied(d, claim), ws[..calls][1..]);
    ClaimNamed(c, d, op.attempt);
  }

  lemma ReapSlips(c: Config, mem: Memory, d: Disk, op: Op, calls: nat, a: Attempt)
    requires Closed(c.g) && Safe(c, d) && Mirrors(c, mem, d) && Enabled(c, mem, d, op)
    requires op.Reap? && op.attempt.node == a.node && calls <= |Writes(c, mem, d, op)|
    ensures SlipsOnlyThere(c, mem, d, op, calls, a)
  {
    hide Safe, Mirrors, Closed, ApplyAll, Claimed, LedgerKey;
    var ws, b, n := Writes(c, mem, d, op), op.attempt, a.node;
    FlightAgrees(c, mem, d, n);
    OpenLeaseIsLatest(c, d, b);
    NoCalls(d, ws);
    if calls == 0 {
      SlippedIsOpen(c, d, a);
    } else if !Holds(mem, n) {
      ReapQuiet(c, mem, d, op, calls, a);
    } else if calls == 1 {
      ApplyOne(d, ws);
      ReapedSlips(c, d, b, a);
    } else {
      ReapedRests(c, mem, d, op, calls);
      RestingNotSlipped(c, ApplyAll(d, ws[..calls]), a);
      OpenLeaseNotSlipped(c, d, a, b);
    }
  }

  lemma OpenLeaseNotSlipped(c: Config, d: Disk, a: Attempt, b: Attempt)
    requires a.node == b.node && Latest(d, b) && LeaseOpen(d, b)
    ensures !Slipped(c, d, a)
  {
    assert Latest(d, a) ==> a == b;
  }

  lemma ReapedSlips(c: Config, d: Disk, b: Attempt, a: Attempt)
    requires a.node == b.node && LeaseOpen(d, b) && Latest(d, b) && a.node in d.status && d.status[a.node].InFlight()
    ensures var e := Applied(d, ExpireLease(b, d.leases[b].worker));
      && (Slipped(c, e, a) <==> a == b && !Claimed(c, e, a) && OpenRow(e, a.node))
      && !Slipped(c, d, a)
  {
    OpenLeaseNotSlipped(c, d, a, b);
    var e := Applied(d, ExpireLease(b, d.leases[b].worker));
    assert AttemptCount(e, a.node) == AttemptCount(d, a.node);
    assert Latest(d, a) ==> a == b;
    hide LedgerKey, AttemptCount;
  }

  lemma ReapQuiet(c: Config, mem: Memory, d: Disk, op: Op, calls: nat, a: Attempt)
    requires op.Reap? && op.attempt.node == a.node && !Holds(mem, a.node) && 1 <= calls <= |Writes(c, mem, d, op)|
    requires !(a.node in d.status && d.status[a.node].InFlight())
    ensures SlipsOnlyThere(c, mem, d, op, calls, a)
  {
    hide ApplyAll, Claimed, LedgerKey;
    var ws := Writes(c, mem, d, op);
    ApplyOne(d, ws);
    if calls == 2 { ApplyNext(d, ws, 1); }
    assert ApplyAll(d, ws[..calls]).status == d.status;
  }

  lemma ReapedRests(c: Config, mem: Memory, d: Disk, op: Op, calls: nat)
    requires op.Reap? && Holds(mem, op.attempt.node) && 2 <= calls <= |Writes(c, mem, d, op)|
    requires OpenRow(d, op.attempt.node)
    ensures var e, n := ApplyAll(d, Writes(c, mem, d, op)[..calls]), op.attempt.node;
      n in e.status && !e.status[n].InFlight()
  {
    hide ApplyAll, LedgerKey;
    var ws := Writes(c, mem, d, op);
    ApplyOne(d, ws);
    ApplyNext(d, ws, 1);
    if calls == 3 { ApplyNext(d, ws, 2); }
  }

  lemma WakeSlips(c: Config, mem: Memory, d: Disk, op: Op, calls: nat, a: Attempt)
    requires Mirrors(c, mem, d) && Enabled(c, mem, d, op)
    requires op.Wake? && op.node == a.node && calls <= |Writes(c, mem, d, op)|
    ensures SlipsOnlyThere(c, mem, d, op, calls, a)
  {
    hide Mirrors, ApplyAll, Claimed, LedgerKey, Latest, Expired;
    DueIsParked(c, mem, d, op.node);
    var ws := Writes(c, mem, d, op);
    NoCalls(d, ws);
    if calls > 0 { ApplyOne(d, ws); }
  }

  /** Cut anywhere, an operation lets a result slip only in the two windows, and
    it stays slipped until it is claimed or the node is settled. */
  lemma PrefixSlips(c: Config, mem: Memory, d: Disk, op: Op, calls: nat, a: Attempt)
    requires Closed(c.g) && Safe(c, d) && Mirrors(c, mem, d) && Enabled(c, mem, d, op)
    requires calls <= |Writes(c, mem, d, op)|
    ensures SlipsOnlyThere(c, mem, d, op, calls, a)
  {
    hide Safe, Mirrors, Closed, Writes, Enabled, SlipsOnlyThere;
    if Subject(op) != Some(a.node) {
      OthersSlip(c, mem, d, op, calls, a);
    } else {
      match op {
        case Dispatch(_, _, _, _) => DispatchSlips(c, mem, d, op, calls, a);
        case Deliver(_, _, _) => DeliverSlips(c, mem, d, op, calls, a);
        case Reap(_, _) => ReapSlips(c, mem, d, op, calls, a);
        case Wake(_) => WakeSlips(c, mem, d, op, calls, a);
      }
    }
  }

  // ------------------------------------------------------------------------
  // Whole runs
  // ------------------------------------------------------------------------

  ghost predicate SlipCrash(w: World, l: Label, a: Attempt) {
    l.Crash? && Slips(w.mem, w.disk, l.op, l.calls, a)
  }

  lemma StepSlips(c: Config, w: World, l: Label, w': World, a: Attempt)
    requires Closed(c.g) && Good(c, w) && Advance(c, w, l, w')
    ensures Slipped(c, w'.disk, a) <==>
            (Slipped(c, w.disk, a) || SlipCrash(w, l, a)) && !Claimed(c, w'.disk, a) && OpenRow(w'.disk, a.node)
  {
    hide Good, Enabled, Writes, Next, Closed, ApplyAll, LedgerKey, Recovered, Slipped, Claimed, Applied;
    match l {
      case Do(op) =>
        EnabledRuns(c, w, op);
        GoodAlive(c, w);
        var ws := Writes(c, w.mem, w.disk, op);
        assert ws[..|ws|] == ws;
        PrefixSlips(c, w.mem, w.disk, op, |ws|, a);
        WholeNeverSlips(c, w.mem, w.disk, op, a);
      case Crash(op, calls) =>
        EnabledRuns(c, w, op);
        GoodAlive(c, w);
        PrefixSlips(c, w.mem, w.disk, op, calls, a);
      case Worker(call) => SideCallSlips(c, w.disk, call, a);
      case OtherRun(key) => SideCallSlips(c, w.disk, Claim(key), a);
      case Announce => SideCallSlips(c, w.disk, PublishEvent(RunResumed), a);
    }
  }

  lemma GoodAlive(c: Config, w: World)
    requires Good(c, w) && Alive(w)
    ensures Safe(c, w.disk) && Mirrors(c, w.mem, w.disk)
  {
  }

  lemma SideCallSlips(c: Config, d: Disk, call: Write, a: Attempt)
    requires Harmless(c, call, a.node)
    ensures Slipped(c, Applied(d, call), a) <==>
            Slipped(c, d, a) && !Claimed(c, Applied(d, call), a) && OpenRow(Applied(d, call), a.node)
  {
    HarmlessSlip(c, d, call, a);
    hide LedgerKey, Applied;
  }

  lemma WholeNeverSlips(c: Config, mem: Memory, d: Disk, op: Op, a: Attempt)
    ensures !Slips(mem, d, op, |Writes(c, mem, d, op)|, a)
  {
    hide CancelWrites, Applies, LedgerKey;
  }

  ghost predicate SlippedBefore(ws: seq<World>, ls: seq<Label>, i: nat, a: Attempt)
    requires i <= |ls| < |ws|
  {
    exists k :: 0 <= k < i && SlipCrash(ws[k], ls[k], a)
  }

  lemma {:induction false} SlippedIff(c: Config, ws: seq<World>, ls: seq<Label>, i: nat, a: Attempt)
    requires Closed(c.g) && IsExecution(c, ws, ls) && i < |ws|
    ensures Slipped(c, ws[i].disk, a) <==>
            SlippedBefore(ws, ls, i, a) && !Claimed(c, ws[i].disk, a) && OpenRow(ws[i].disk, a.node)
  {
    hide Good, Advance, Initial, Slipped, Claimed, SlipCrash, Grows;
    if i == 0 {
      FreshNotSlipped(c, ws[0], a);
    } else {
      SlippedIff(c, ws, ls, i - 1, a);
      RunsAreGood(c, ws, ls, i - 1);
      var l := ls[i - 1];
      StepSlips(c, ws[i - 1], l, ws[i], a);
      StepGrows(c, ws[i - 1], l, ws[i]);
      OpenAndUnclaimed(c, ws[i - 1].disk, ws[i].disk, a);
      RowsOfStep(c, ws[i - 1], l, ws[i]);
    }
  }

  lemma FreshNotSlipped(c: Config, w: World, a: Attempt)
    requires Initial(c, w)
    ensures !Slipped(c, w.disk, a)
  {
  }

  lemma OpenAndUnclaimed(c: Config, d: Disk, d': Disk, a: Attempt)
    requires Grows(d, d')
    ensures !Claimed(c, d', a) ==> !Claimed(c, d, a)
    ensures OpenRow(d', a.node) && a.node in d.status ==> OpenRow(d, a.node)
  {
    hide LedgerKey;
  }

  lemma RowsOfStep(c: Config, w: World, l: Label, w': World)
    requires Closed(c.g) && Good(c, w) && Advance(c, w, l, w')
    ensures w'.disk.status.Keys == w.disk.status.Keys
  {
    hide Enabled, Writes, Next, Closed, ApplyAll, LedgerKey, Recovered, Advance;
    StepKeepsGood(c, w, l, w');
    hide RowSafe, AttemptsSafe, WithinCapacity, EndsWell, OutcomeSafe, ShowsOnlyStored, Mirrors;
  }

  /** The late result of a reaped attempt would be applied exactly if a crash
    fell right after the first call of its reap, or of the next dispatch of its
    node, and the result was not claimed nor the node settled since. */
  lemma ReapedAppliedIff(c: Config, ws: seq<World>, ls: seq<Label>, i: nat, a: Attempt)
    requires Closed(c.g) && IsExecution(c, ws, ls) && i < |ws| && Alive(ws[i]) && a in ws[i].disk.tasks
    ensures Expired(ws[i].disk, a) && Applies(c, ws[i].mem, ws[i].disk, a) <==>
            SlippedBefore(ws, ls, i, a) && !Claimed(c, ws[i].disk, a) && OpenRow(ws[i].disk, a.node)
  {
    hide Good, Advance, Initial, Slipped, Claimed, SlipCrash, Applies, Expired, IsExecution, SlippedBefore;
    RunsAreGood(c, ws, ls, i);
    GoodAlive(c, ws[i]);
    AppliesIffSlipped(c, ws[i].mem, ws[i].disk, a);
    SlippedIff(c, ws, ls, i, a);
  }

  /** Without such a crash a reaped attempt's late result never changes its
    node, wherever else the process is restarted. */
  lemma ReapedNeverApplied(c: Config, ws: seq<World>, ls: seq<Label>, i: nat, a: Attempt)
    requires Closed(c.g) && IsExecution(c, ws, ls) && i < |ls| && Expired(ws[i].disk, a)
    requires forall k :: 0 <= k < i ==> !SlipCrash(ws[k], ls[k], a)
    ensures !AppliesAt(c, ws[i], ls[i], a)
  {
    hide Claimed, SlipCrash, Applies, Expired, IsExecution, Enabled, Writes, Next, LedgerKey, ApplyAll;
    WorldsOf(c, ws, ls);
    if AppliesAt(c, ws[i], ls[i], a) {
      AppliedIsLatest(c, ws, ls, i, a);
      DeliveringAlive(c, ws, ls, i);
      ReapedAppliedIff(c, ws, ls, i, a);
    }
  }

  lemma WorldsOf(c: Config, ws: seq<World>, ls: seq<Label>)
    requires IsExecution(c, ws, ls)
    ensures |ws| == |ls| + 1
  {
  }

  lemma DeliveringAlive(c: Config, ws: seq<World>, ls: seq<Label>, i: nat)
    requires IsExecution(c, ws, ls) && i < |ls| && (ls[i].Do? || ls[i].Crash?)
    ensures Alive(ws[i])
  {
    hide Initial;
    var l := ls[i];
    assert Advance(c, ws[i], l, ws[i + 1]);
  }

  /** Both windows are real: wherever the operation can be performed on an
    unclaimed attempt, a crash there lets its late result through. */
  lemma ReapedSlipsThrough(c: Config, w: World, op: Op, a: Attempt)
    requires Closed(c.g) && Good(c, w) && Enabled(c, w.mem, w.disk, op) && Slips(w.mem, w.disk, op, 1, a)
    requires !Claimed(c, w.disk, a)
    ensures |Writes(c, w.mem, w.disk, op)| > 1
    ensures var d := Prefix(c, w.mem, w.disk, op, 1);
      && Advance(c, w, Crash(op, 1), World(Recovered(c, d), d))
      && Expired(d, a) && Applies(c, Recovered(c, d), d, a)
  {
    hide Good, Safe, Mirrors, Recovered, LedgerKey, CancelWrites, ListsCanceled, ApplyAll;
    EnabledRuns(c, w, op);
    GoodAlive(c, w);
    OpenRun(c, w);
    FirstCallKeeps(c, w.mem, w.disk, op, a);
    PrefixSlips(c, w.mem, w.disk, op, 1, a);
    var d := Prefix(c, w.mem, w.disk, op, 1);
    var w' := World(Recovered(c, d), d);
    StepKeepsGood(c, w, Crash(op, 1), w');
    RecoveredRuns(c, d);
    GoodAlive(c, w');
    SlippedApplies(c, w'.mem, d, a);
  }

  lemma OpenRun(c: Config, w: World)
    requires Good(c, w) && Alive(w)
    ensures !Finished(w.disk.run)
  {
  }

  lemma FirstCallKeeps(c: Config, mem: Memory, d: Disk, op: Op, a: Attempt)
    requires Closed(c.g) && Safe(c, d) && Mirrors(c, mem, d) && Enabled(c, mem, d, op) && Slips(mem, d, op, 1, a)
    ensures |Writes(c, mem, d, op)| > 1
    ensures var e := Prefix(c, mem, d, op, 1); OpenRow(e, a.node) && (Claimed(c, e, a) <==> Claimed(c, d, a)) && e.run == d.run
  {
    hide Safe, Mirrors, LedgerKey, CancelWrites, ListsCanceled, ApplyAll, Break;
    var ws := Writes(c, mem, d, op);
    if op.Reap? { FlightAgrees(c, mem, d, a.node); } else { DispatchableFromMemory(c, mem, d, a.node); }
    ApplyOne(d, ws);
  }
}
