/** What every run of the distributed loop guarantees, crashes and restarts,
  duplicated and reordered results included. */
module RunLaws {
  import opened Ids
  import opened Graphs
  import opened StateMachines
  import opened LedgerKeys
  import opened Storage
  import opened Views
  import opened DiskSafety
  import opened Protocol
  import opened OpSafety
  import opened Recovery
  import opened Runs

  // ------------------------------------------------------------------------
  // Durable before unlock
  // ------------------------------------------------------------------------

  /** At every crash point of every run: whatever was published was recorded
    first and has only durably succeeded predecessors, no attempt is published
    twice, and attempts are numbered without a gap. */
  lemma DurableBeforeUnlock(c: Config, ws: seq<World>, ls: seq<Label>, i: nat, op: Op, calls: nat)
    requires Closed(c.g) && IsExecution(c, ws, ls) && i < |ws| && Enabled(c, ws[i].mem, ws[i].disk, op)
    requires calls <= |Writes(c, ws[i].mem, ws[i].disk, op)|
    ensures var d := ApplyAll(ws[i].disk, Writes(c, ws[i].mem, ws[i].disk, op)[..calls]);
      && (forall a :: a in d.tasks ==> Recorded(d, a))
      && (forall a, u :: a in d.tasks && Edge(u, a.node) in c.g.edges ==> u in d.status && d.status[u] == Succeeded)
      && Distinct(d.tasks)
      && (forall n, k :: n in c.g.nodes ==> (k in AttemptsOf(d, n) <==> 1 <= k <= AttemptCount(d, n)))
  {
    RunsAreGood(c, ws, ls, i);
    EnabledRuns(c, ws[i], op);
    CrashKeepsGood(c, ws[i], op, calls);
    SafePublishes(c, ApplyAll(ws[i].disk, Writes(c, ws[i].mem, ws[i].disk, op)[..calls]));
  }

  lemma SafePublishes(c: Config, d: Disk)
    requires Safe(c, d)
    ensures forall a :: a in d.tasks ==> Recorded(d, a)
    ensures forall a, u :: a in d.tasks && Edge(u, a.node) in c.g.edges ==> u in d.status && d.status[u] == Succeeded
    ensures Distinct(d.tasks)
    ensures forall n, k :: n in c.g.nodes ==> (k in AttemptsOf(d, n) <==> 1 <= k <= AttemptCount(d, n))
  {
    forall a | a in d.tasks ensures Recorded(d, a) { assert AttemptSafe(c, d, a); }
    forall a, u | a in d.tasks && Edge(u, a.node) in c.g.edges ensures u in d.status && d.status[u] == Succeeded {
      assert AttemptSafe(c, d, a);
      assert HasSucceeded(d.status, u);
    }
    forall n, k | n in c.g.nodes ensures k in AttemptsOf(d, n) <==> 1 <= k <= AttemptCount(d, n) {
      assert RowSafe(c, d, n);
      UpToContains(AttemptCount(d, n));
    }
  }

  /** What memory holds as terminal is stored, and each counter is the number of
    predecessors that have not durably succeeded. */
  lemma MemoryIsDurable(c: Config, ws: seq<World>, ls: seq<Label>, i: nat, v: NodeId)
    requires Closed(c.g) && IsExecution(c, ws, ls) && i < |ws| && Alive(ws[i]) && v in c.g.nodes
    ensures var m, d := ws[i].mem.model, ws[i].disk;
      && v in m.nodes && v in m.deps && v in d.status
      && (m.nodes[v].Terminal() ==> d.status[v] == m.nodes[v])
      && m.deps[v] == PendingCount(c.g, d.status, v)
  {
    var m, d := ws[i].mem.model, ws[i].disk;
    hide Safe, Mirrors, IsExecution;
    RunsAreGood(c, ws, ls, i);
    TerminalRows(c, ws[i].mem, d);
    SafeKeys(c, d);
    CountersMirror(c, ws[i].mem, d, v);
  }

  lemma CountersMirror(c: Config, mem: Memory, d: Disk, v: NodeId)
    requires Mirrors(c, mem, d) && d.status.Keys == c.g.nodes && v in c.g.nodes
    ensures v in mem.model.deps && mem.model.deps[v] == PendingCount(c.g, d.status, v)
  {
    hide SlotsMirror, SeenMirrors, DueMirrors, PendingCount;
    SameSucceeded(c.g, Restored(d.status), d.status);
  }

  // ------------------------------------------------------------------------
  // Resume is transparent
  // ------------------------------------------------------------------------

  /** At a loop head, a process that rebuilt itself from the store would hold
    what the live one holds: states, counters, completed set, attempt numbers,
    slots; it would accept the same results; and it would have the same timers
    exactly when no timer is due at or before the epoch. */
  lemma ResumeIsTransparent(c: Config, ws: seq<World>, ls: seq<Label>, i: nat)
    requires Closed(c.g) && IsExecution(c, ws, ls) && i < |ws| && Alive(ws[i])
    ensures var mem, d := ws[i].mem, ws[i].disk;
      var rebuilt := Recovered(c, d);
      && rebuilt.model == mem.model && rebuilt.held == mem.held
      && (forall n :: n in c.g.nodes ==> Current(rebuilt, n) == Current(mem, n))
      && (forall key :: key != "" ==> Used(rebuilt, key) == Used(mem, key))
      && (forall a :: a in d.tasks ==> (Applies(c, rebuilt, d, a) <==> Applies(c, mem, d, a)))
      && (rebuilt.due == mem.due <==> forall n :: n in mem.due ==> mem.due[n] > 0)
  {
    var mem, d := ws[i].mem, ws[i].disk;
    RunsAreGood(c, ws, ls, i);
    var rebuilt := Recovered(c, d);
    RecoveredMirrors(c, d);
    TwoMirrors(c, mem, rebuilt, d);
    SafeKeys(c, d);
    SameTimers(c, mem, d);
    hide Safe, Mirrors, Applies;
    forall a | a in d.tasks ensures Applies(c, rebuilt, d, a) <==> Applies(c, mem, d, a) {
      if Applies(c, mem, d, a) { SameAcceptance(c, mem, rebuilt, d, a); }
      if Applies(c, rebuilt, d, a) { SameAcceptance(c, rebuilt, mem, d, a); }
    }
  }

  lemma TwoMirrors(c: Config, mem: Memory, mem': Memory, d: Disk)
    requires Mirrors(c, mem, d) && Mirrors(c, mem', d)
    ensures mem'.model == mem.model && mem'.held == mem.held
    ensures forall n :: n in d.status ==> Current(mem', n) == Current(mem, n)
    ensures forall key :: key != "" ==> Used(mem', key) == Used(mem, key)
  {
  }

  lemma SameTimers(c: Config, mem: Memory, d: Disk)
    requires Mirrors(c, mem, d)
    ensures Recovered(c, d).due == mem.due <==> forall n :: n in mem.due ==> mem.due[n] > 0
  {
    hide SlotsMirror, SeenMirrors, StartFrom, InFlight, SlotsUsed, AttemptNumbers;
    TimersMirror(mem, d);
  }

  lemma TimersMirror(mem: Memory, d: Disk)
    requires DueMirrors(mem, d)
    ensures Timers(d) == mem.due <==> forall n :: n in mem.due ==> mem.due[n] > 0
  {
    assert (forall n :: n in mem.due ==> mem.due[n] > 0) ==> Timers(d).Keys == mem.due.Keys;
  }

  lemma SameAcceptance(c: Config, mem: Memory, mem': Memory, d: Disk, a: Attempt)
    requires Closed(c.g) && Safe(c, d) && Mirrors(c, mem, d) && Mirrors(c, mem', d) && a in d.tasks && Applies(c, mem, d, a)
    ensures Applies(c, mem', d, a)
  {
    ApplicableFromMemory(c, mem, d, a);
    assert AttemptSafe(c, d, a);
    TwoMirrors(c, mem, mem', d);
    hide Safe;
    assert a in mem'.seen ==> Claimed(c, d, a) || a.number < AttemptCount(d, a.node);
  }

  // ------------------------------------------------------------------------
  // Exactly once
  // ------------------------------------------------------------------------

  /** The label makes the loop apply a's result, or dies doing so. */
  ghost predicate AppliesAt(c: Config, w: World, l: Label, a: Attempt) {
    && ((l.Do? && l.op.Deliver? && l.op.attempt == a) ||
        (l.Crash? && l.calls > 0 && l.op.Deliver? && l.op.attempt == a))
    && Applies(c, w.mem, w.disk, a)
  }

  lemma StepGrows(c: Config, w: World, l: Label, w': World)
    requires Advance(c, w, l, w')
    ensures Grows(w.disk, w'.disk)
  {
    hide Enabled, Next, Grows, Applied, ApplyAll, Writes;
    match l {
      case Do(op) => ApplyAllGrows(w.disk, Writes(c, w.mem, w.disk, op));
      case Crash(op, calls) => ApplyAllGrows(w.disk, Writes(c, w.mem, w.disk, op)[..calls]);
      case Worker(call) => AppliedGrows(w.disk, call);
      case OtherRun(key) => AppliedGrows(w.disk, Claim(key));
      case Announce => AppliedGrows(w.disk, PublishEvent(RunResumed));
    }
  }

  lemma {:induction false} RunGrows(c: Config, ws: seq<World>, ls: seq<Label>, i: nat, j: nat)
    requires IsExecution(c, ws, ls) && i <= j < |ws|
    ensures Grows(ws[i].disk, ws[j].disk)
    decreases j - i
  {
    hide Advance, Initial, Grows;
    if i == j {
      GrowsReflexive(ws[i].disk);
    } else {
      RunGrows(c, ws, ls, i, j - 1);
      var l := ls[j - 1];
      StepGrows(c, ws[j - 1], l, ws[j]);
      GrowsTransitive(ws[i].disk, ws[j - 1].disk, ws[j].disk);
    }
  }

  lemma ApplyingClaims(c: Config, w: World, l: Label, w': World, a: Attempt)
    requires Advance(c, w, l, w') && AppliesAt(c, w, l, a)
    ensures Claimed(c, w'.disk, a)
  {
    hide Enabled, Next, LedgerKey;
    var op := l.op;
    var calls := Writes(c, w.mem, w.disk, op);
    var done := if l.Do? then calls else calls[..l.calls];
    var claim := Claim(LedgerKey(c.run, a));
    assert done[0] == claim by { assert calls[0] == claim; }
    ApplyAllGrows(Applied(w.disk, claim), done[1..]);
    assert ApplyAll(w.disk, done) == ApplyAll(Applied(w.disk, claim), done[1..]);
    ClaimNamed(c, w.disk, a);
  }

  lemma ClaimNamed(c: Config, d: Disk, a: Attempt)
    ensures Claimed(c, Applied(d, Claim(LedgerKey(c.run, a))), a)
  {
    assert LedgerKey(c.run, a)[0] == 'r';
  }

  /** However results are duplicated and reordered, and wherever the process is
    restarted, each attempt's result is applied at most once; and it is applied
    to the node's latest attempt only. */
  lemma ExactlyOnce(c: Config, ws: seq<World>, ls: seq<Label>, i: nat, j: nat, a: Attempt)
    requires Closed(c.g) && IsExecution(c, ws, ls) && i < |ls| && j < |ls|
    requires AppliesAt(c, ws[i], ls[i], a) && AppliesAt(c, ws[j], ls[j], a)
    ensures i == j && Latest(ws[i].disk, a)
  {
    hide LedgerKey;
    AppliedIsLatest(c, ws, ls, i, a);
    if i < j {
      AppliedBlocksLater(c, ws, ls, i, j, a);
    } else if j < i {
      AppliedBlocksLater(c, ws, ls, j, i, a);
    }
  }

  lemma AppliedBlocksLater(c: Config, ws: seq<World>, ls: seq<Label>, i: nat, j: nat, a: Attempt)
    requires IsExecution(c, ws, ls) && i < j < |ls| && AppliesAt(c, ws[i], ls[i], a)
    ensures !AppliesAt(c, ws[j], ls[j], a)
  {
    hide LedgerKey, Advance, Initial;
    ApplyingClaims(c, ws[i], ls[i], ws[i + 1], a);
    RunGrows(c, ws, ls, i + 1, j);
  }

  lemma AppliedIsLatest(c: Config, ws: seq<World>, ls: seq<Label>, i: nat, a: Attempt)
    requires Closed(c.g) && IsExecution(c, ws, ls) && i < |ls| && AppliesAt(c, ws[i], ls[i], a)
    ensures Latest(ws[i].disk, a) && a in ws[i].disk.tasks
  {
    hide LedgerKey, Safe, Mirrors, Applies, Next, Writes, ApplyAll;
    RunsAreGood(c, ws, ls, i);
    var l := ls[i];
    EnabledRuns(c, ws[i], l.op);
    ApplicableFromMemory(c, ws[i].mem, ws[i].disk, a);
  }

  // ------------------------------------------------------------------------
  // How often a node runs
  // ------------------------------------------------------------------------

  ghost predicate Expired(d: Disk, a: Attempt) {
    a in d.leases && d.leases[a].status.LeaseExpired?
  }

  /** The attempts of n whose lease was reaped. */
  ghost function ReapedOf(d: Disk, n: NodeId): set<nat> {
    set k | k in AttemptsOf(d, n) && Expired(d, Attempt(n, k))
  }

  ghost function ParkedOf(d: Disk, n: NodeId): set<nat> {
    set k | k in AttemptsOf(d, n) && Attempt(n, k) in d.parked
  }

  lemma ParkBound(c: Config, d: Disk, n: NodeId)
    requires Safe(c, d) && n in c.g.nodes
    ensures c.policy(n).tries > 0 ==> |ParkedOf(d, n)| <= c.policy(n).tries - 1
    ensures c.policy(n).tries <= 0 ==> ParkedOf(d, n) == {}
  {
    var tries := c.policy(n).tries;
    assert RowSafe(c, d, n);
    UpToContains(AttemptCount(d, n));
    forall k | k in ParkedOf(d, n) ensures 1 <= k < tries {
      assert AttemptSafe(c, d, Attempt(n, k));
    }
    hide Safe, RowSafe;
    if tries > 0 {
      UpToContains(tries - 1);
      SubsetSize(ParkedOf(d, n), UpTo(tries - 1));
    }
  }

  lemma EarlierAttemptsSpent(c: Config, d: Disk, n: NodeId)
    requires Safe(c, d) && n in c.g.nodes && AttemptCount(d, n) > 0
    ensures AttemptCount(d, n) - 1 <= |ParkedOf(d, n)| + |ReapedOf(d, n)|
  {
    var count := AttemptCount(d, n);
    assert RowSafe(c, d, n);
    UpToContains(count);
    forall k: nat | 1 <= k <= count - 1 ensures k in ParkedOf(d, n) + ReapedOf(d, n) {
      assert Spent(d, Attempt(n, k));
    }
    hide Safe, RowSafe;
    UpToContains(count - 1);
    SubsetSize(UpTo(count - 1), ParkedOf(d, n) + ReapedOf(d, n));
  }

  /** A node parks at most tries - 1 times and is dispatched at most
    max(1, tries) times more than its leases are reaped. */
  lemma DispatchBound(c: Config, ws: seq<World>, ls: seq<Label>, i: nat, n: NodeId)
    requires Closed(c.g) && IsExecution(c, ws, ls) && i < |ws| && n in c.g.nodes
    ensures var d, tries := ws[i].disk, c.policy(n).tries;
      && |ParkedOf(d, n)| <= (if tries > 1 then tries - 1 else 0)
      && AttemptCount(d, n) <= (if tries > 1 then tries else 1) + |ReapedOf(d, n)|
      && |ReapedOf(d, n)| <= ReapsOf(ls[..i], n)
  {
    hide Safe, IsExecution;
    RunsAreGood(c, ws, ls, i);
    ParkBound(c, ws[i].disk, n);
    if AttemptCount(ws[i].disk, n) > 0 { EarlierAttemptsSpent(c, ws[i].disk, n); }
    ReapsCounted(c, ws, ls, i, n);
  }

  function ReapsOf(ls: seq<Label>, n: NodeId): nat {
    if ls == [] then 0
    else
      var l := ls[|ls| - 1];
      ReapsOf(ls[..|ls| - 1], n) +
      if (l.Do? || l.Crash?) && l.op.Reap? && l.op.attempt.node == n then 1 else 0
  }

  ghost function ExpiredOf(d: Disk, n: NodeId): set<Attempt> {
    set a | a in d.leases && a.node == n && Expired(d, a)
  }

  lemma {:induction false} ExpiredByOne(d: Disk, w: Write, n: NodeId)
    ensures |ExpiredOf(Applied(d, w), n)| <= |ExpiredOf(d, n)| + if w.ExpireLease? && w.attempt.node == n then 1 else 0
  {
    var before, after := ExpiredOf(d, n), ExpiredOf(Applied(d, w), n);
    if w.ExpireLease? && w.attempt.node == n {
      assert after <= before + {w.attempt};
      SubsetSize(after, before + {w.attempt});
    } else {
      assert after <= before;
      SubsetSize(after, before);
    }
  }

  function ExpiriesOf(ws: seq<Write>, n: NodeId): nat {
    if ws == [] then 0
    else (if ws[0].ExpireLease? && ws[0].attempt.node == n then 1 else 0) + ExpiriesOf(ws[1..], n)
  }

  lemma {:induction false} ExpiredByAll(d: Disk, ws: seq<Write>, n: NodeId)
    ensures |ExpiredOf(ApplyAll(d, ws), n)| <= |ExpiredOf(d, n)| + ExpiriesOf(ws, n)
    decreases |ws|
  {
    hide Applied, ExpiredOf;
    if ws != [] {
      ExpiredByOne(d, ws[0], n);
      ExpiredByAll(Applied(d, ws[0]), ws[1..], n);
    }
  }

  lemma {:induction false} ExpiriesConcat(a: seq<Write>, b: seq<Write>, n: NodeId)
    ensures ExpiriesOf(a + b, n) == ExpiriesOf(a, n) + ExpiriesOf(b, n)
  {
    if a == [] {
      assert a + b == b;
    } else {
      assert (a + b)[1..] == a[1..] + b;
      ExpiriesConcat(a[1..], b, n);
    }
  }

  lemma {:induction false} NoExpiry(ws: seq<Write>, n: NodeId)
    requires forall w :: w in ws ==> !w.ExpireLease?
    ensures ExpiriesOf(ws, n) == 0
  {
    if ws != [] { NoExpiry(ws[1..], n); }
  }

  lemma {:induction false} CancelExpiresNothing(xs: seq<NodeId>)
    ensures forall w :: w in CancelWrites(xs) ==> !w.ExpireLease?
  {
    if xs != [] { CancelExpiresNothing(xs[1..]); }
  }

  /** Only a reap expires a lease, and only one. */
  lemma OpExpiries(c: Config, mem: Memory, d: Disk, op: Op, n: NodeId)
    ensures ExpiriesOf(Writes(c, mem, d, op), n) <= if op.Reap? && op.attempt.node == n then 1 else 0
  {
    hide Considered, Applies, Claimed, LedgerKey, Holds, CancelWrites, Verdict;
    var calls := Writes(c, mem, d, op);
    match op {
      case Dispatch(_, _, _, canceled) => CancelExpiresNothing(canceled);
      case Deliver(_, _, canceled) => CancelExpiresNothing(canceled);
      case Cancel(_, canceled) => CancelExpiresNothing(canceled);
      case _ =>
    }
    if op.Reap? {
      assert calls == calls[..1] + calls[1..] && calls[0].ExpireLease?;
      NoExpiry(calls[1..], n);
    } else {
      NoExpiry(calls, n);
    }
  }

  lemma StepReaps(c: Config, w: World, l: Label, w': World, n: NodeId)
    requires Advance(c, w, l, w')
    ensures |ExpiredOf(w'.disk, n)| <= |ExpiredOf(w.disk, n)| + ReapsOf([l], n)
  {
    hide Enabled, Next, Applied, ApplyAll, Writes, ExpiredOf, Recovered, ExpiriesOf;
    assert ReapsOf([], n) == 0;
    match l {
      case Do(op) =>
        ExpiredByAll(w.disk, Writes(c, w.mem, w.disk, op), n);
        OpExpiries(c, w.mem, w.disk, op, n);
      case Crash(op, calls) =>
        var all := Writes(c, w.mem, w.disk, op);
        ExpiredByAll(w.disk, all[..calls], n);
        ExpiriesConcat(all[..calls], all[calls..], n);
        assert all[..calls] + all[calls..] == all;
        OpExpiries(c, w.mem, w.disk, op, n);
      case Worker(call) => ExpiredByOne(w.disk, call, n);
      case OtherRun(key) => ExpiredByOne(w.disk, Claim(key), n);
      case Announce => ExpiredByOne(w.disk, PublishEvent(RunResumed), n);
    }
  }

  lemma {:induction false} ReapsCounted(c: Config, ws: seq<World>, ls: seq<Label>, i: nat, n: NodeId)
    requires Closed(c.g) && IsExecution(c, ws, ls) && i < |ws|
    ensures |ReapedOf(ws[i].disk, n)| <= |ExpiredOf(ws[i].disk, n)| <= ReapsOf(ls[..i], n)
  {
    hide Advance, Initial;
    ReapedAreExpired(ws[i].disk, n, ReapedOf(ws[i].disk, n));
    if i == 0 {
      FreshHasNoLeases(c, ws[0]);
    } else {
      ReapsCounted(c, ws, ls, i - 1, n);
      var l := ls[i - 1];
      StepReaps(c, ws[i - 1], l, ws[i], n);
      assert ls[..i][..i - 1] == ls[..i - 1];
      assert [l][..0] == [];
    }
  }

  lemma FreshHasNoLeases(c: Config, w: World)
    requires Initial(c, w)
    ensures forall n :: ExpiredOf(w.disk, n) == {}
  {
  }

  lemma {:induction false} ReapedAreExpired(d: Disk, n: NodeId, ks: set<nat>)
    requires ks <= ReapedOf(d, n)
    ensures |ks| <= |ExpiredOf(d, n)|
  {
    NumbersAsAttempts(n, ks);
    SubsetSize(set k | k in ks :: Attempt(n, k), ExpiredOf(d, n));
  }

  lemma {:induction false} NumbersAsAttempts(n: NodeId, ks: set<nat>)
    ensures |set k | k in ks :: Attempt(n, k)| == |ks|
  {
    if ks != {} {
      var x :| x in ks;
      NumbersAsAttempts(n, ks - {x});
      assert (set k | k in ks :: Attempt(n, k)) == (set k | k in ks - {x} :: Attempt(n, k)) + {Attempt(n, x)};
    }
  }
}
