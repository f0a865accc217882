/** Runs from the very first call: the process creates the run row and a row for
  each node, and may die after any of these calls
  (engine/core/src/distributed_run_loop.cpp). */
module StartUps {
  import opened Ids
  import opened Graphs
  import opened StateMachines
  import opened LedgerKeys
  import opened Storage
  import opened Views
  import opened DiskSafety
  import opened Protocol
  import opened OpSafety
  import opened Recovery
  import opened Runs
  import opened RunLaws
  import opened Outages

  // ------------------------------------------------------------------------
  // Creation as steps
  // ------------------------------------------------------------------------

  /** Creating: this many calls were made, the first for the run row and then one
    for each node in order. Up: the loop is at a loop head. */
  datatype Stage =
    | Creating(calls: nat, ledger: set<string>)
    | Up(world: World)

  /** One more creation call; the creating process dies; it has created all rows
    and announces the start; or a step of the loop. */
  datatype StartLabel =
    | CreateCall
    | CreationDies
    | Launch
    | Step(move: FlakyLabel)

  function RowCount(calls: nat): nat {
    if calls == 0 then 0 else calls - 1
  }

  /** The durable state with the rows of the first k nodes. */
  ghost function Created(order: seq<NodeId>, k: nat, ledger: set<string>, announced: bool): Disk
    requires k <= |order|
  {
    Disk(RunState.RunRunning, map v | v in order[..k] :: Blocked, map[], map[], map[], ledger, {}, [],
         if announced then [RunStarted] else [])
  }

  ghost function DiskOf(order: seq<NodeId>, s: Stage): Disk
    requires s.Creating? ==> s.calls <= |order| + 1
  {
    match s
    case Creating(calls, ledger) => Created(order, RowCount(calls), ledger, false)
    case Up(w) => w.disk
  }

  /** A step of the loop over a store that is up. */
  ghost predicate FairStep(c: Config, w: World, l: FlakyLabel, w': World) {
    && FlakyAdvance(c, w, l, w')
    && (l.Go? || l.Die? ==> l.up == ALL_UP)
  }

  /** A new process resumes if there is a node row, and starts afresh if not. */
  ghost predicate StartStep(c: Config, order: seq<NodeId>, s: Stage, l: StartLabel, s': Stage) {
    match l
    case CreateCall => s.Creating? && s.calls <= |order| && s' == Creating(s.calls + 1, s.ledger)
    case CreationDies =>
      s.Creating? && s.calls <= |order| + 1 &&
      var k := RowCount(s.calls);
      var d := Created(order, k, s.ledger, false);
      s' == if k == 0 then Creating(0, s.ledger) else Up(World(Recovered(c, d), d))
    case Launch =>
      s.Creating? && s.calls == |order| + 1 && s' == Up(World(FreshMemory(c), Created(order, |order|, s.ledger, true)))
    case Step(move) => s.Up? && s'.Up? && FairStep(c, s.world, move, s'.world)
  }

  ghost predicate IsStartRun(c: Config, order: seq<NodeId>, ss: seq<Stage>, ls: seq<StartLabel>) {
    && |ss| == |ls| + 1 && ss[0].Creating? && ss[0].calls == 0 && OwnsNoKey(c, ss[0].ledger)
    && forall i {:trigger ls[i]} :: 0 <= i < |ls| ==> StartStep(c, order, ss[i], ls[i], ss[i + 1])
  }

  /** A process died after it had created some rows but not all. */
  ghost predicate CutShort(order: seq<NodeId>, s: Stage, l: StartLabel) {
    l.CreationDies? && s.Creating? && 0 < RowCount(s.calls) < |order|
  }

  // ------------------------------------------------------------------------
  // Attempts are recorded where there is a row
  // ------------------------------------------------------------------------

  /** Attempts are numbered without a gap, and published attempts of nodes with
    a row are recorded and published once. */
  ghost predicate Numbered(d: Disk) {
    && (forall n {:trigger AttemptsOf(d, n)} :: AttemptsOf(d, n) == if n in d.status then UpTo(AttemptCount(d, n)) else {})
    && (forall a :: a in d.tasks && a.node in d.status ==> Recorded(d, a))
    && (forall i, k :: 0 <= i < k < |d.tasks| && d.tasks[i] == d.tasks[k] ==> d.tasks[i].node !in d.status)
  }

  ghost predicate Tracks(mem: Memory, d: Disk) {
    forall n {:trigger Current(mem, n)} :: n in d.status ==> Current(mem, n) == AttemptCount(d, n)
  }

  predicate Plain(w: Write) {
    !w.RecordAttempt? && !w.PublishTask?
  }

  ghost predicate SameNumbers(d: Disk, e: Disk) {
    e.attempts == d.attempts && e.tasks == d.tasks && e.status.Keys == d.status.Keys
  }

  lemma {:induction false} PlainKeeps(d: Disk, ws: seq<Write>)
    requires forall w :: w in ws ==> Plain(w)
    ensures SameNumbers(d, ApplyAll(d, ws))
    decreases |ws|
  {
    if ws != [] {
      assert Plain(ws[0]);
      PlainKeeps(Applied(d, ws[0]), ws[1..]);
    }
  }

  lemma NumberedStays(d: Disk, e: Disk)
    requires Numbered(d) && SameNumbers(d, e)
    ensures Numbered(e)
  {
    forall n ensures AttemptsOf(e, n) == if n in e.status then UpTo(AttemptCount(e, n)) else {} {
      assert AttemptsOf(d, n) == AttemptsOf(e, n);
    }
    forall a | a in e.tasks && a.node in e.status ensures Recorded(e, a) { assert Recorded(d, a); }
  }

  lemma {:induction false} CancelsPlain(xs: seq<NodeId>)
    ensures forall w :: w in CancelWrites(xs) ==> Plain(w)
  {
    if xs != [] { CancelsPlain(xs[1..]); }
  }

  lemma HearPlain(c: Config, d: Disk, a: Attempt, reply: Reply, canceled: seq<NodeId>, up: Weather)
    ensures forall w :: w in Hear(c, d, a, reply, canceled, up).calls ==> Plain(w)
  {
    hide LedgerKey, CancelWrites, Accepted, Applied;
    CancelsPlain(canceled);
  }

  lemma OthersPlain(c: Config, mem: Memory, d: Disk, op: Op, up: Weather)
    requires !op.Dispatch?
    ensures forall w :: w in FlakyWrites(c, mem, d, op, up) ==> Plain(w)
  {
    hide Hear, Considered, Applies, LedgerKey, CancelWrites, Verdict, Holds, Told;
    match op {
      case Deliver(a, reply, canceled) => HearPlain(c, d, a, reply, canceled, up);
      case Cancel(_, canceled) => CancelsPlain(canceled);
      case _ =>
    }
  }

  /** The calls of a dispatch cut anywhere: recorded first, then published. */
  lemma DispatchNumbers(d: Disk, b: Attempt, expires: int, published: bool, canceled: seq<NodeId>, calls: nat)
    requires Numbered(d) && (b.node in d.status ==> b.number == AttemptCount(d, b.node) + 1)
    requires calls <= |DispatchWrites(b, expires, published, canceled)|
    ensures var e := ApplyAll(d, DispatchWrites(b, expires, published, canceled)[..calls]);
      && Numbered(e) && e.status.Keys == d.status.Keys
      && (calls == |DispatchWrites(b, expires, published, canceled)| ==>
            forall n :: n in d.status ==> AttemptCount(e, n) == AttemptCount(d, n) + if n == b.node then 1 else 0)
      && (published && calls >= 5 ==> e.tasks == d.tasks + [b])
  {
    hide ApplyAll, Applied, Numbered, AttemptCount, CancelWrites, Recorded;
    var ws := DispatchWrites(b, expires, published, canceled);
    assert |ws| >= 6 && ws[0] == SetStatus(b.node, Dispatched) && ws[1] == RecordAttempt(b);
    assert ws[4] == (if published then PublishTask(b) else CompleteNode(b.node, Failed));
    assert forall w :: w in ws[2..4] ==> Plain(w);
    if calls <= 1 {
      PlainKeeps(d, ws[..calls]);
      NumberedStays(d, ApplyAll(d, ws[..calls]));
    } else {
      PlainKeeps(d, ws[..1]);
      var d1, d2 := ApplyAll(d, ws[..1]), Applied(ApplyAll(d, ws[..1]), RecordAttempt(b));
      NumberedStays(d, d1);
      SameCounts(d, d1);
      RecordNumbers(d1, b);
      TakeOne(d, ws, 1);
      if calls <= 4 {
        TakeOn(d, ws, 2, calls);
        PlainKeeps(d2, ws[2..calls]);
        NumberedStays(d2, ApplyAll(d, ws[..calls]));
      } else {
        TakeOn(d, ws, 2, 4);
        var d4 := ApplyAll(d, ws[..4]);
        PlainKeeps(d2, ws[2..4]);
        NumberedStays(d2, d4);
        SameCounts(d2, d4);
        DispatchTail(d, ws, d4, b, published, canceled, calls);
        SameAttempts(d4, ApplyAll(d, ws[..calls]));
      }
    }
  }

  lemma SameAttempts(d: Disk, e: Disk)
    requires e.attempts == d.attempts
    ensures forall n :: AttemptCount(e, n) == AttemptCount(d, n)
  {
  }

  lemma TakeOne(d: Disk, ws: seq<Write>, k: nat)
    requires k < |ws|
    ensures ApplyAll(d, ws[..k + 1]) == Applied(ApplyAll(d, ws[..k]), ws[k])
  {
    hide Applied;
    assert ws[..k + 1] == ws[..k] + [ws[k]];
    ApplyAllConcat(d, ws[..k], [ws[k]]);
    ApplySingle(ApplyAll(d, ws[..k]), ws[k]);
  }

  lemma TakeOn(d: Disk, ws: seq<Write>, k: nat, m: nat)
    requires k <= m <= |ws|
    ensures ApplyAll(d, ws[..m]) == ApplyAll(ApplyAll(d, ws[..k]), ws[k..m])
  {
    hide Applied;
    assert ws[..m] == ws[..k] + ws[k..m];
    ApplyAllConcat(d, ws[..k], ws[k..m]);
  }

  lemma SameCounts(d: Disk, e: Disk)
    requires SameNumbers(d, e)
    ensures forall n :: AttemptCount(e, n) == AttemptCount(d, n)
    ensures forall a :: Recorded(e, a) <==> Recorded(d, a)
  {
  }

  lemma RecordNumbers(d: Disk, b: Attempt)
    requires Numbered(d) && (b.node in d.status ==> b.number == AttemptCount(d, b.node) + 1)
    ensures var e := Applied(d, RecordAttempt(b));
      && Numbered(e) && e.status.Keys == d.status.Keys && e.tasks == d.tasks
      && (b.node in d.status ==> Recorded(e, b) && b !in d.tasks)
      && forall n :: n in d.status ==> AttemptCount(e, n) == AttemptCount(d, n) + if n == b.node then 1 else 0
  {
    var e := Applied(d, RecordAttempt(b));
    assert AttemptsOf(d, b.node) == if b.node in d.status then UpTo(AttemptCount(d, b.node)) else {};
    UpToContains(AttemptCount(d, b.node));
    if b.node in d.status {
      assert !Recorded(d, b);
      RecordedAt(d, b);
      forall n ensures AttemptsOf(e, n) == if n in e.status then UpTo(AttemptCount(e, n)) else {} {
        assert AttemptsOf(d, n) == if n in d.status then UpTo(AttemptCount(d, n)) else {};
      }
      hide UpTo;
      forall a | a in e.tasks && a.node in e.status ensures Recorded(e, a) { assert Recorded(d, a); }
    }
  }

  lemma RecordedAt(d: Disk, b: Attempt)
    requires b.node in d.status && b.number == AttemptCount(d, b.node) + 1
    requires AttemptsOf(d, b.node) == UpTo(AttemptCount(d, b.node))
    ensures var e := Applied(d, RecordAttempt(b));
      && e == d.(attempts := d.attempts[b.node := UpTo(b.number)])
      && AttemptsOf(e, b.node) == UpTo(b.number) && AttemptCount(e, b.node) == b.number
      && AttemptsOf(d, b.node) <= AttemptsOf(e, b.node)
      && (forall n :: n != b.node ==> AttemptsOf(e, n) == AttemptsOf(d, n))
  {
    var count := AttemptCount(d, b.node);
    UpToContains(count);
    UpToContains(count + 1);
    assert AttemptsOf(d, b.node) + {b.number} == UpTo(b.number);
  }

  lemma PublishNumbers(d: Disk, b: Attempt)
    requires Numbered(d) && (b.node in d.status ==> Recorded(d, b) && b !in d.tasks)
    ensures var e := Applied(d, PublishTask(b));
      Numbered(e) && e.status.Keys == d.status.Keys && e.attempts == d.attempts && e.tasks == d.tasks + [b]
  {
    var e := Applied(d, PublishTask(b));
    forall n ensures AttemptsOf(e, n) == if n in e.status then UpTo(AttemptCount(e, n)) else {} {
      assert AttemptsOf(d, n) == AttemptsOf(e, n);
    }
    hide UpTo;
    forall a | a in e.tasks && a.node in e.status ensures Recorded(e, a) { assert a != b ==> Recorded(d, a); }
  }

  /** What follows the opened lease. */
  lemma DispatchTail(d: Disk, ws: seq<Write>, d4: Disk, b: Attempt, published: bool, canceled: seq<NodeId>, calls: nat)
    requires |ws| >= 6 && 5 <= calls <= |ws| && d4 == ApplyAll(d, ws[..4])
    requires ws[4..] == if published then [PublishTask(b), PublishEvent(NodeDispatched(b.node))]
                        else [CompleteNode(b.node, Failed)] + CancelWrites(canceled) + [PublishEvent(NodeFailed(b.node))]
    requires Numbered(d4) && (b.node in d4.status ==> Recorded(d4, b) && b !in d4.tasks)
    ensures var e := ApplyAll(d, ws[..calls]);
      && Numbered(e) && e.status.Keys == d4.status.Keys && e.attempts == d4.attempts
      && (published ==> e.tasks == d4.tasks + [b])
  {
    hide ApplyAll, Applied, Numbered, Recorded;
    TakeOn(d, ws, 4, calls);
    assert ws[4..calls] == ws[4..][..calls - 4];
    if published {
      TakeOne(d4, ws[4..], 0);
      ApplySingle(d4, PublishTask(b));
      assert ws[4..][..1] == [PublishTask(b)];
      PublishNumbers(d4, b);
      var d5 := Applied(d4, PublishTask(b));
      TakeOn(d4, ws[4..], 1, calls - 4);
      PlainKeeps(d5, ws[4..][1..calls - 4]);
      NumberedStays(d5, ApplyAll(d, ws[..calls]));
    } else {
      CancelsPlain(canceled);
      PlainKeeps(d4, ws[4..calls]);
      NumberedStays(d4, ApplyAll(d, ws[..calls]));
    }
  }

  // ------------------------------------------------------------------------
  // Every run from the first call
  // ------------------------------------------------------------------------

  /** An operation cut anywhere keeps the numbering, and a whole one keeps the
    loop's attempt counters in step with it. */
  lemma OpNumbers(c: Config, mem: Memory, d: Disk, op: Op, calls: nat)
    requires Enabled(c, mem, d, op) && Numbered(d) && Tracks(mem, d)
    requires calls <= |FlakyWrites(c, mem, d, op, ALL_UP)|
    ensures var e := ApplyAll(d, FlakyWrites(c, mem, d, op, ALL_UP)[..calls]);
      && Numbered(e) && e.status.Keys == d.status.Keys
      && (calls == |FlakyWrites(c, mem, d, op, ALL_UP)| ==> Tracks(FlakyNext(c, mem, d, op, ALL_UP), e))
  {
    var ws := FlakyWrites(c, mem, d, op, ALL_UP);
    hide Numbered, AttemptCount, Enabled, ApplyAll, Hear, Told;
    if op.Dispatch? {
      var n := op.node;
      assert n in d.status ==> Current(mem, n) == AttemptCount(d, n);
      DispatchNumbers(d, Attempt(n, Current(mem, n) + 1), op.expires, op.published, op.canceled, calls);
      DispatchCurrent(c, mem, d, op);
      hide FlakyNext, DispatchWrites;
    } else {
      OthersPlain(c, mem, d, op, ALL_UP);
      hide FlakyWrites;
      PlainKeeps(d, ws[..calls]);
      NumberedStays(d, ApplyAll(d, ws[..calls]));
      SameCounts(d, ApplyAll(d, ws[..calls]));
      OthersCurrent(c, mem, d, op);
      hide FlakyNext;
    }
  }

  lemma DispatchCurrent(c: Config, mem: Memory, d: Disk, op: Op)
    requires op.Dispatch?
    ensures forall n :: Current(FlakyNext(c, mem, d, op, ALL_UP), n) == Current(mem, n) + if n == op.node then 1 else 0
  {
    hide Started, Break;
  }

  lemma OthersCurrent(c: Config, mem: Memory, d: Disk, op: Op)
    requires !op.Dispatch?
    ensures forall n :: Current(FlakyNext(c, mem, d, op, ALL_UP), n) == Current(mem, n)
  {
    hide Break, Succeed, Move, CancelAll, Hear, Told, Verdict, Considered, Applies;
  }

  lemma RecoveredTracks(c: Config, d: Disk)
    ensures Tracks(Recovered(c, d), d)
  {
    hide StartFrom, SlotsUsed;
  }

  lemma FairKeepsNumbers(c: Config, w: World, l: FlakyLabel, w': World)
    requires FairStep(c, w, l, w') && Numbered(w.disk) && Tracks(w.mem, w.disk)
    ensures Numbered(w'.disk) && Tracks(w'.mem, w'.disk) && w'.disk.status.Keys == w.disk.status.Keys
  {
    hide Numbered, Tracks, Enabled, FlakyWrites, FlakyNext, ApplyAll, TriedAll, Recovered, LedgerKey;
    match l {
      case Go(op, up) =>
        var ws := FlakyWrites(c, w.mem, w.disk, op, ALL_UP);
        AllUpApplies(w.disk, ws);
        assert ws[..|ws|] == ws;
        OpNumbers(c, w.mem, w.disk, op, |ws|);
      case Die(op, up, calls) =>
        AllUpApplies(w.disk, FlakyWrites(c, w.mem, w.disk, op, ALL_UP)[..calls]);
        OpNumbers(c, w.mem, w.disk, op, calls);
        RecoveredTracks(c, w'.disk);
      case Side(call) =>
        PlainKeeps(w.disk, [call]);
        ApplySingle(w.disk, call);
        NumberedStays(w.disk, w'.disk);
        TracksStay(w.mem, w.disk, w'.disk);
    }
  }

  lemma TracksStay(mem: Memory, d: Disk, e: Disk)
    requires Tracks(mem, d) && SameNumbers(d, e)
    ensures Tracks(mem, e)
  {
  }

  ghost predicate Ordered(c: Config, order: seq<NodeId>) {
    Distinct(order) && Elements(order) == c.g.nodes
  }

  ghost predicate StageNumbered(order: seq<NodeId>, s: Stage) {
    match s
    case Creating(calls, _) => calls <= |order| + 1
    case Up(w) => Numbered(w.disk) && Tracks(w.mem, w.disk)
  }

  lemma CreatedNumbered(c: Config, order: seq<NodeId>, k: nat, ledger: set<string>, announced: bool)
    requires k <= |order|
    ensures var d := Created(order, k, ledger, announced);
      Numbered(d) && Tracks(FreshMemory(c), d) && Tracks(Recovered(c, d), d) && d.tasks == []
  {
    RecoveredTracks(c, Created(order, k, ledger, announced));
    hide StartFrom, Recovered;
  }

  lemma StageKeepsNumbers(c: Config, order: seq<NodeId>, s: Stage, l: StartLabel, s': Stage)
    requires StageNumbered(order, s) && StartStep(c, order, s, l, s')
    ensures StageNumbered(order, s')
  {
    hide Numbered, Tracks, FairStep, Recovered, FreshMemory, Created;
    match l {
      case CreateCall =>
      case CreationDies => CreatedNumbered(c, order, RowCount(s.calls), s.ledger, false);
      case Launch => CreatedNumbered(c, order, |order|, s.ledger, true);
      case Step(move) => FairKeepsNumbers(c, s.world, move, s'.world);
    }
  }

  lemma {:induction false} StagesNumbered(c: Config, order: seq<NodeId>, ss: seq<Stage>, ls: seq<StartLabel>, i: nat)
    requires IsStartRun(c, order, ss, ls) && i < |ss|
    ensures StageNumbered(order, ss[i])
  {
    hide StageNumbered, StartStep;
    if i == 0 {
      FirstStage(order, ss[0]);
    } else {
      StagesNumbered(c, order, ss, ls, i - 1);
      var l := ls[i - 1];
      StageKeepsNumbers(c, order, ss[i - 1], l, ss[i]);
    }
  }

  lemma FirstStage(order: seq<NodeId>, s: Stage)
    requires s.Creating? && s.calls == 0
    ensures StageNumbered(order, s)
  {
  }

  /** In every run from the very first call, whatever is cut short: a published
    attempt is recorded exactly if its node's row was created, and an attempt is
    published twice only if it was not. */
  lemma RecordedIffRow(c: Config, order: seq<NodeId>, ss: seq<Stage>, ls: seq<StartLabel>, i: nat)
    requires IsStartRun(c, order, ss, ls) && i < |ss|
    ensures ss[i].Creating? ==> ss[i].calls <= |order| + 1
    ensures var d := DiskOf(order, ss[i]);
      && (forall a :: a in d.tasks ==> (Recorded(d, a) <==> a.node in d.status))
      && (forall x, y :: 0 <= x < y < |d.tasks| && d.tasks[x] == d.tasks[y] ==> d.tasks[x].node !in d.status)
  {
    hide IsStartRun;
    StageCount(c, order, ss, ls);
    StagesNumbered(c, order, ss, ls, i);
    var d := DiskOf(order, ss[i]);
    if ss[i].Up? {
      forall a | a in d.tasks && a.node !in d.status ensures !Recorded(d, a) {
        assert AttemptsOf(d, a.node) == {};
      }
    }
  }

  lemma StageCount(c: Config, order: seq<NodeId>, ss: seq<Stage>, ls: seq<StartLabel>)
    requires IsStartRun(c, order, ss, ls)
    ensures |ss| == |ls| + 1
  {
  }

  // ------------------------------------------------------------------------
  // Runs whose creation is not cut short
  // ------------------------------------------------------------------------

  /** The step as one of the protocol. */
  function Ordinary(l: FlakyLabel): Label {
    match l
    case Go(op, _) => Do(op)
    case Die(op, _, calls) => Crash(op, calls)
    case Side(call) =>
      if call.Claim? then OtherRun(call.key)
      else if call.PublishEvent? then Announce
      else Worker(call)
  }

  lemma FairIsAdvance(c: Config, w: World, l: FlakyLabel, w': World)
    requires Closed(c.g) && Good(c, w) && FairStep(c, w, l, w') && Alive(w)
    ensures Advance(c, w, Ordinary(l), w')
  {
    hide Safe, Mirrors, Enabled, FlakyWrites, FlakyNext, Writes, Next, ApplyAll, TriedAll, Recovered, LedgerKey, Closed, Applied;
    match l {
      case Go(op, up) =>
        FairIsOrdinary(c, w.mem, w.disk, op);
        AllUpApplies(w.disk, Writes(c, w.mem, w.disk, op));
      case Die(op, up, calls) =>
        FairIsOrdinary(c, w.mem, w.disk, op);
        AllUpApplies(w.disk, Writes(c, w.mem, w.disk, op)[..calls]);
      case Side(call) =>
    }
  }

  /** A finished loop makes no further step of its own. */
  lemma FinishedMakesSideSteps(c: Config, w: World, l: FlakyLabel, w': World)
    requires FairStep(c, w, l, w') && !Alive(w)
    ensures l.Side?
  {
  }

  ghost predicate UncutBefore(order: seq<NodeId>, ss: seq<Stage>, ls: seq<StartLabel>, i: nat)
    requires i <= |ls| < |ss|
  {
    forall k {:trigger ls[k]} :: 0 <= k < i ==> !CutShort(order, ss[k], ls[k])
  }

  ghost predicate StageGood(c: Config, order: seq<NodeId>, s: Stage) {
    match s
    case Creating(calls, ledger) => calls <= |order| + 1 && OwnsNoKey(c, ledger)
    case Up(w) => Good(c, w)
  }

  lemma AllCreated(c: Config, order: seq<NodeId>, ledger: set<string>, announced: bool)
    requires Ordered(c, order)
    ensures Created(order, |order|, ledger, announced) == FreshDisk(c, ledger, announced)
  {
    assert order[..|order|] == order;
    assert (map v | v in order :: Blocked) == AllBlocked(c.g);
  }

  lemma StageKeepsGood(c: Config, order: seq<NodeId>, s: Stage, l: StartLabel, s': Stage)
    requires Closed(c.g) && Ordered(c, order) && StageGood(c, order, s) && StartStep(c, order, s, l, s')
    requires !CutShort(order, s, l)
    ensures StageGood(c, order, s')
  {
    hide Good, FairStep, Recovered, FreshMemory, Created, FreshDisk, OwnsNoKey, Ordered, Closed;
    match l {
      case CreateCall =>
      case CreationDies =>
        if RowCount(s.calls) > 0 {
          AllCreated(c, order, s.ledger, false);
          InitialIsGood(c, s'.world);
        }
      case Launch =>
        AllCreated(c, order, s.ledger, true);
        assert Fresh(c, s'.world);
        InitialIsGood(c, s'.world);
      case Step(move) => FairKeepsGood(c, s.world, move, s'.world);
    }
  }

  lemma FairKeepsGood(c: Config, w: World, l: FlakyLabel, w': World)
    requires Closed(c.g) && Good(c, w) && FairStep(c, w, l, w')
    ensures Good(c, w')
  {
    hide Good, FairStep, Recovered, Closed;
    if Alive(w) {
      FairIsAdvance(c, w, l, w');
      StepKeepsGood(c, w, Ordinary(l), w');
    } else {
      FinishedMakesSideSteps(c, w, l, w');
      SideKeepsGood(c, w, l, w');
    }
  }

  lemma SideKeepsGood(c: Config, w: World, l: FlakyLabel, w': World)
    requires Good(c, w) && FairStep(c, w, l, w') && l.Side?
    ensures Good(c, w')
  {
    hide Good, LedgerKey;
    SideCallKeepsGood(c, w, l.call);
  }

  lemma {:induction false} StagesGood(c: Config, order: seq<NodeId>, ss: seq<Stage>, ls: seq<StartLabel>, i: nat)
    requires Closed(c.g) && Ordered(c, order) && IsStartRun(c, order, ss, ls) && i < |ss| && UncutBefore(order, ss, ls, i)
    ensures StageGood(c, order, ss[i])
  {
    hide StageGood, StartStep, CutShort, OwnsNoKey;
    if i == 0 {
      FirstStageGood(c, order, ss[0]);
    } else {
      StagesGood(c, order, ss, ls, i - 1);
      var l := ls[i - 1];
      StageKeepsGood(c, order, ss[i - 1], l, ss[i]);
    }
  }

  lemma FirstStageGood(c: Config, order: seq<NodeId>, s: Stage)
    requires s.Creating? && s.calls == 0 && OwnsNoKey(c, s.ledger)
    ensures StageGood(c, order, s)
  {
  }

  /** As long as creation is not cut short, at every point of every run from the
    very first call: what is published was recorded first and has only durably
    succeeded predecessors, no attempt is published twice, and attempts are
    numbered without a gap. */
  lemma DurableFromFirstCall(c: Config, order: seq<NodeId>, ss: seq<Stage>, ls: seq<StartLabel>, i: nat)
    requires Closed(c.g) && Ordered(c, order) && IsStartRun(c, order, ss, ls) && i < |ss|
    requires i <= |ls| < |ss| && UncutBefore(order, ss, ls, i)
    ensures ss[i].Creating? ==> ss[i].calls <= |order| + 1
    ensures var d := DiskOf(order, ss[i]);
      && (forall a :: a in d.tasks ==> Recorded(d, a))
      && (forall a, u :: a in d.tasks && Edge(u, a.node) in c.g.edges ==> u in d.status && d.status[u] == Succeeded)
      && Distinct(d.tasks)
      && (forall n, k :: n in c.g.nodes ==> (k in AttemptsOf(d, n) <==> 1 <= k <= AttemptCount(d, n)))
  {
    hide IsStartRun, Safe, Mirrors;
    StagesGood(c, order, ss, ls, i);
    if ss[i].Up? {
      SafePublishes(c, ss[i].world.disk);
    }
  }

  /** The rows of a loop are complete exactly if creation was not cut short. */
  lemma RowsCompleteIff(c: Config, order: seq<NodeId>, ss: seq<Stage>, ls: seq<StartLabel>, i: nat)
    requires Ordered(c, order) && IsStartRun(c, order, ss, ls) && i < |ss| && i <= |ls| < |ss|
    ensures ss[i].Up? ==> (ss[i].world.disk.status.Keys == c.g.nodes <==> UncutBefore(order, ss, ls, i))
    ensures ss[i].Creating? ==> UncutBefore(order, ss, ls, i)
    decreases i
  {
    hide IsStartRun, StartStep, Created, CutShort, UncutBefore;
    StartsCreating(c, order, ss, ls);
    UncutNext(order, ss, ls, i);
    if i > 0 {
      var l := ls[i - 1];
      RowsCompleteIff(c, order, ss, ls, i - 1);
      StageStep(c, order, ss, ls, i - 1);
      StagesNumbered(c, order, ss, ls, i - 1);
      RowsOfStage(c, order, ss[i - 1], l, ss[i]);
    }
  }

  lemma StartsCreating(c: Config, order: seq<NodeId>, ss: seq<Stage>, ls: seq<StartLabel>)
    requires IsStartRun(c, order, ss, ls)
    ensures ss[0].Creating?
  {
  }

  lemma UncutNext(order: seq<NodeId>, ss: seq<Stage>, ls: seq<StartLabel>, i: nat)
    requires i <= |ls| < |ss|
    ensures UncutBefore(order, ss, ls, i) <==>
            i == 0 || (UncutBefore(order, ss, ls, i - 1) && !CutShort(order, ss[i - 1], ls[i - 1]))
  {
    hide CutShort;
    if i > 0 && UncutBefore(order, ss, ls, i) { var l := ls[i - 1]; }
  }

  lemma StageStep(c: Config, order: seq<NodeId>, ss: seq<Stage>, ls: seq<StartLabel>, i: nat)
    requires IsStartRun(c, order, ss, ls) && i < |ls| < |ss|
    ensures StartStep(c, order, ss[i], ls[i], ss[i + 1])
  {
    hide StartStep;
    var l := ls[i];
  }

  lemma RowsOfStage(c: Config, order: seq<NodeId>, s: Stage, l: StartLabel, s': Stage)
    requires Ordered(c, order) && StartStep(c, order, s, l, s') && StageNumbered(order, s)
    ensures s.Creating? && s'.Up? ==> (s'.world.disk.status.Keys == c.g.nodes <==> !CutShort(order, s, l))
    ensures s.Up? ==> s'.Up? && s'.world.disk.status.Keys == s.world.disk.status.Keys && !CutShort(order, s, l)
    ensures s'.Creating? ==> s.Creating? && !CutShort(order, s, l)
  {
    hide FairStep, Recovered, FreshMemory, Numbered, Tracks;
    match l {
      case CreateCall =>
      case CreationDies =>
        RowsOfCreated(c, order, RowCount(s.calls), s.ledger, false);
      case Launch => RowsOfCreated(c, order, |order|, s.ledger, true);
      case Step(move) => FairKeepsNumbers(c, s.world, move, s'.world);
    }
  }

  lemma RowsOfCreated(c: Config, order: seq<NodeId>, k: nat, ledger: set<string>, announced: bool)
    requires Ordered(c, order) && k <= |order|
    ensures Created(order, k, ledger, announced).status.Keys == c.g.nodes <==> k == |order|
  {
    var keys := Created(order, k, ledger, announced).status.Keys;
    if k < |order| {
      assert order[k] in Elements(order) && order[k] !in order[..k];
    } else {
      assert order[..k] == order;
      assert keys == Elements(order);
    }
  }
}
