/** The run loop when the store may lose any call: a lost call answers false and
  leaves the rows alone, and the loop branches on the answers
  (engine/core/src/distributed_run_loop.cpp). */
module Outages {
  import opened Ids
  import opened Graphs
  import opened StateMachines
  import opened LedgerKeys
  import opened Storage
  import opened DiskSafety
  import opened Protocol
  import opened OpSafety
  import opened Recovery
  import opened Runs

  /** Which calls of an operation reach the store, by position. */
  type Weather = nat -> bool

  const ALL_UP: Weather := (i: nat) => true

  function Tried(d: Disk, w: Write, up: bool): Disk {
    if up then Applied(d, w) else d
  }

  predicate Told(d: Disk, w: Write, up: bool) {
    up && Accepted(d, w)
  }

  /** The calls ws, some of them lost. */
  function TriedAll(d: Disk, ws: seq<Write>, up: Weather): Disk
    decreases |ws|
  {
    if ws == [] then d
    else Tried(TriedAll(d, ws[..|ws| - 1], up), ws[|ws| - 1], up(|ws| - 1))
  }

  // ------------------------------------------------------------------------
  // The loop on the store's answers
  // ------------------------------------------------------------------------

  /** The calls of a delivery, and the verdict that reaches memory, if any. */
  datatype Heard = Heard(calls: seq<Write>, verdict: Option<Reply>)

  /** apply_result and handle_retryable_failure: an unanswered claim or
    completion ends the delivery, and a dead letter that was not stored falls
    through to the plain failure. */
  function Hear(c: Config, d: Disk, a: Attempt, reply: Reply, canceled: seq<NodeId>, up: Weather): Heard {
    var claim := Claim(LedgerKey(c.run, a));
    if !Told(d, claim, up(0)) then Heard([claim], None)
    else HearClaimed(c, Applied(d, claim), a, reply, canceled, up)
  }

  function HearClaimed(c: Config, d1: Disk, a: Attempt, reply: Reply, canceled: seq<NodeId>, up: Weather): Heard {
    var claim, n := Claim(LedgerKey(c.run, a)), a.node;
    if reply.Completed? then
      if Told(d1, CompleteNode(n, Succeeded), up(1)) then Heard(ResultHead(c, a, Completed), Some(Completed))
      else Heard([claim, CompleteNode(n, Succeeded)], None)
    else
      var d2 := Tried(d1, FinishAttempt(a, false), up(1));
      if reply.Retry? then Heard(ResultHead(c, a, reply), Some(reply))
      else if reply.GiveUp? && Told(d2, CompleteNode(n, DeadLettered), up(2)) then
        Heard(ResultHead(c, a, GiveUp) + CancelWrites(canceled), Some(GiveUp))
      else
        var before := [claim, FinishAttempt(a, false)] + if reply.GiveUp? then [CompleteNode(n, DeadLettered)] else [];
        if Told(d2, CompleteNode(n, Failed), up(|before|)) then
          Heard(before + [CompleteNode(n, Failed), PublishEvent(NodeFailed(n))] + CancelWrites(canceled), Some(Reject))
        else Heard(before + [CompleteNode(n, Failed)], None)
  }

  /** A reap that the store does not answer is skipped; every other operation
    goes on in memory whatever the store answers. */
  ghost function FlakyWrites(c: Config, mem: Memory, d: Disk, op: Op, up: Weather): seq<Write> {
    match op
    case Deliver(a, reply, canceled) => if Considered(mem, a) then Hear(c, d, a, reply, canceled, up).calls else []
    case Reap(a, worker) => if Told(d, ExpireLease(a, worker), up(0)) then Writes(c, mem, d, op) else [ExpireLease(a, worker)]
    case _ => Writes(c, mem, d, op)
  }

  ghost function FlakyNext(c: Config, mem: Memory, d: Disk, op: Op, up: Weather): Memory {
    match op
    case Deliver(a, reply, canceled) =>
      if !Considered(mem, a) then Next(c, mem, d, op)
      else (
        match Hear(c, d, a, reply, canceled, up).verdict
        case Some(verdict) => Release(c, Judged(c, mem, a, verdict), a.node)
        case None => mem.(seen := mem.seen + {a})
      )
    case Reap(a, worker) => if Told(d, ExpireLease(a, worker), up(0)) then Next(c, mem, d, op) else mem
    case _ => Next(c, mem, d, op)
  }

  /** Go is an operation under some weather; Die kills the process after the
    first calls calls of one, and a new process resumes from the store; Side is
    a call of a worker, of another run, or the event of a finished resume. */
  datatype FlakyLabel =
    | Go(op: Op, up: Weather)
    | Die(op: Op, up: Weather, calls: nat)
    | Side(call: Write)

  ghost predicate FlakyAdvance(c: Config, w: World, l: FlakyLabel, w': World) {
    match l
    case Go(op, up) =>
      Enabled(c, w.mem, w.disk, op) &&
      w' == World(FlakyNext(c, w.mem, w.disk, op, up), TriedAll(w.disk, FlakyWrites(c, w.mem, w.disk, op, up), up))
    case Die(op, up, calls) =>
      Enabled(c, w.mem, w.disk, op) && calls <= |FlakyWrites(c, w.mem, w.disk, op, up)| &&
      var d := TriedAll(w.disk, FlakyWrites(c, w.mem, w.disk, op, up)[..calls], up);
      !Finished(d.run) && w' == World(Recovered(c, d), d)
    case Side(call) =>
      && ((call.AcquireLease? && call.attempt in w.disk.tasks) || call.RenewLease? || call == PublishEvent(RunResumed)
          || (call.Claim? && forall a :: call.key != LedgerKey(c.run, a)))
      && w' == w.(disk := Applied(w.disk, call))
  }

  /** A run from a start or a resume, whatever rows there are. */
  ghost predicate IsFlakyRun(c: Config, ws: seq<World>, ls: seq<FlakyLabel>) {
    && |ws| == |ls| + 1
    && (ws[0].mem == FreshMemory(c) || ws[0].mem == Recovered(c, ws[0].disk))
    && forall i {:trigger ls[i]} :: 0 <= i < |ls| ==> FlakyAdvance(c, ws[i], ls[i], ws[i + 1])
  }

  // ------------------------------------------------------------------------
  // Success is stored
  // ------------------------------------------------------------------------

  /** What memory takes for a success, the store holds as one. */
  ghost predicate SuccessIsStored(mem: Memory, d: Disk) {
    forall v :: v in mem.model.nodes && mem.model.nodes[v].Succeeded? ==> v in d.status && d.status[v] == Succeeded
  }

  lemma TriedGrows(d: Disk, w: Write, up: bool)
    ensures Grows(d, Tried(d, w, up))
  {
    if up { AppliedGrows(d, w); } else { GrowsReflexive(d); }
  }

  lemma {:induction false} TriedAllGrows(d: Disk, ws: seq<Write>, up: Weather, k: nat)
    requires k <= |ws|
    ensures Grows(TriedAll(d, ws[..k], up), TriedAll(d, ws, up))
    decreases |ws|
  {
    hide Grows, Tried;
    if k == |ws| {
      assert ws[..k] == ws;
      GrowsReflexive(TriedAll(d, ws, up));
    } else {
      var front := ws[..|ws| - 1];
      TriedAllGrows(d, front, up, k);
      assert front[..k] == ws[..k];
      TriedGrows(TriedAll(d, front, up), ws[|ws| - 1], up(|ws| - 1));
      GrowsTransitive(TriedAll(d, ws[..k], up), TriedAll(d, front, up), TriedAll(d, ws, up));
    }
  }

  lemma TriedGrowsAll(d: Disk, ws: seq<Write>, up: Weather)
    ensures Grows(d, TriedAll(d, ws, up))
  {
    hide Grows, Tried;
    TriedAllGrows(d, ws, up, 0);
    assert TriedAll(d, ws[..0], up) == d;
  }

  lemma TriedTwo(d: Disk, ws: seq<Write>, up: Weather)
    requires |ws| >= 2
    ensures TriedAll(d, ws[..2], up) == Tried(Tried(d, ws[0], up(0)), ws[1], up(1))
  {
    hide Tried;
    assert ws[..2][..1] == ws[..1] && ws[..1][..0] == [];
    assert TriedAll(d, [], up) == d;
    assert TriedAll(d, ws[..1], up) == Tried(d, ws[0], up(0));
  }

  lemma StoredStays(mem: Memory, mem': Memory, d: Disk, d': Disk)
    requires SuccessIsStored(mem, d) && Grows(d, d')
    requires forall v :: v in mem'.model.nodes && mem'.model.nodes[v].Succeeded? ==>
                           (v in mem.model.nodes && mem.model.nodes[v].Succeeded?) || (v in d'.status && d'.status[v] == Succeeded)
    ensures SuccessIsStored(mem', d')
  {
  }

  /** A success reaches memory only once it is stored. */
  lemma HeardSuccess(c: Config, d: Disk, a: Attempt, reply: Reply, canceled: seq<NodeId>, up: Weather)
    requires Hear(c, d, a, reply, canceled, up).verdict == Some(Completed)
    ensures var d' := TriedAll(d, Hear(c, d, a, reply, canceled, up).calls, up); a.node in d'.status && d'.status[a.node] == Succeeded
  {
    hide LedgerKey, CancelWrites;
    var ws := Hear(c, d, a, reply, canceled, up).calls;
    assert ws == ResultHead(c, a, Completed);
    TriedTwo(d, ws, up);
    TriedAllGrows(d, ws, up, 2);
    hide Accepted;
    assert TriedAll(d, ws[..2], up) == Applied(Applied(d, ws[0]), ws[1]);
  }

  lemma SucceedAddsOne(g: Graph, m: Model, n: NodeId)
    requires n in m.nodes
    ensures forall v :: v in Succeed(g, m, n).nodes && Succeed(g, m, n).nodes[v].Succeeded? ==>
                          v == n || (v in m.nodes && m.nodes[v].Succeeded?)
  {
    hide PendingCount;
  }

  lemma FailureAddsNone(c: Config, mem: Memory, a: Attempt, reply: Reply)
    requires !reply.Completed? && a.node in mem.model.nodes
    ensures var m' := Release(c, Judged(c, mem, a, reply), a.node).model;
      forall v :: v in m'.nodes && m'.nodes[v].Succeeded? ==> v in mem.model.nodes && mem.model.nodes[v].Succeeded?
  {
    hide CancelTarget;
  }

  lemma OthersAddNone(c: Config, mem: Memory, d: Disk, op: Op)
    requires Enabled(c, mem, d, op) && !op.Deliver?
    ensures var m' := Next(c, mem, d, op).model;
      forall v :: v in m'.nodes && m'.nodes[v].Succeeded? ==> v in mem.model.nodes && mem.model.nodes[v].Succeeded?
  {
    hide CancelTarget, ListsCanceled;
  }

  lemma IgnoredKeepsModel(c: Config, mem: Memory, d: Disk, op: Op)
    requires op.Deliver? && !Considered(mem, op.attempt)
    ensures Next(c, mem, d, op).model == mem.model
  {
  }

  lemma GoKeepsStored(c: Config, mem: Memory, d: Disk, op: Op, up: Weather)
    requires Enabled(c, mem, d, op) && SuccessIsStored(mem, d)
    ensures SuccessIsStored(FlakyNext(c, mem, d, op, up), TriedAll(d, FlakyWrites(c, mem, d, op, up), up))
  {
    hide Writes, Next, SuccessIsStored, Hear, TriedAll, Grows, Considered, Told, Enabled, Judged, Release;
    var mem', ws := FlakyNext(c, mem, d, op, up), FlakyWrites(c, mem, d, op, up);
    TriedGrowsAll(d, ws, up);
    match op {
      case Deliver(a, reply, canceled) =>
        if Considered(mem, a) {
          VerdictKeepsStored(c, mem, d, a, reply, canceled, up);
        } else {
          IgnoredKeepsModel(c, mem, d, op);
          StoredStays(mem, mem', d, TriedAll(d, ws, up));
        }
      case _ =>
        OthersAddNone(c, mem, d, op);
        StoredStays(mem, mem', d, TriedAll(d, ws, up));
    }
  }

  lemma VerdictKeepsStored(c: Config, mem: Memory, d: Disk, a: Attempt, reply: Reply, canceled: seq<NodeId>, up: Weather)
    requires Considered(mem, a) && SuccessIsStored(mem, d)
    ensures var heard := Hear(c, d, a, reply, canceled, up);
      var mem' := match heard.verdict
                  case Some(verdict) => Release(c, Judged(c, mem, a, verdict), a.node)
                  case None => mem.(seen := mem.seen + {a});
      SuccessIsStored(mem', TriedAll(d, heard.calls, up))
  {
    hide Hear, TriedAll, Grows, Judged, Release;
    var heard := Hear(c, d, a, reply, canceled, up);
    var d' := TriedAll(d, heard.calls, up);
    TriedGrowsAll(d, heard.calls, up);
    match heard.verdict {
      case Some(verdict) =>
        var mem' := Release(c, Judged(c, mem, a, verdict), a.node);
        if verdict.Completed? {
          HeardSuccess(c, d, a, reply, canceled, up);
          CompletedModel(c, mem, a);
          SucceedAddsOne(c.g, mem.model, a.node);
        } else {
          FailureAddsNone(c, mem, a, verdict);
        }
        StoredStays(mem, mem', d, d');
      case None => StoredStays(mem, mem.(seen := mem.seen + {a}), d, d');
    }
  }

  lemma CompletedModel(c: Config, mem: Memory, a: Attempt)
    ensures Release(c, Judged(c, mem, a, Completed), a.node).model == Succeed(c.g, mem.model, a.node)
  {
    hide Succeed;
  }

  /** A process that starts takes for successes only what is stored. */
  lemma StartedStored(c: Config, w: World)
    requires w.mem == FreshMemory(c) || w.mem == Recovered(c, w.disk)
    ensures SuccessIsStored(w.mem, w.disk)
  {
    hide PendingCount;
  }

  /** Whatever the store loses and wherever the process dies, memory never runs
    ahead of the store: a success that unlocks successors has been stored. */
  lemma {:induction false} SuccessStoredThroughOutages(c: Config, ws: seq<World>, ls: seq<FlakyLabel>, i: nat)
    requires IsFlakyRun(c, ws, ls) && i < |ws|
    ensures SuccessIsStored(ws[i].mem, ws[i].disk)
  {
    hide SuccessIsStored, FlakyNext, FlakyWrites, TriedAll, Enabled, Recovered, FreshMemory, Applied, LedgerKey;
    if i == 0 {
      StartedStored(c, ws[0]);
    } else {
      SuccessStoredThroughOutages(c, ws, ls, i - 1);
      var w, l := ws[i - 1], ls[i - 1];
      match l {
        case Go(op, up) => GoKeepsStored(c, w.mem, w.disk, op, up);
        case Die(_, _, _) => StartedStored(c, ws[i]);
        case Side(call) =>
          AppliedGrows(w.disk, call);
          SideKeepsStored(w.mem, w.disk, call);
      }
    }
  }

  lemma SideKeepsStored(mem: Memory, d: Disk, call: Write)
    requires SuccessIsStored(mem, d)
    ensures SuccessIsStored(mem, Applied(d, call))
  {
    AppliedGrows(d, call);
  }

  // ------------------------------------------------------------------------
  // Fair weather
  // ------------------------------------------------------------------------

  lemma {:induction false} AllUpApplies(d: Disk, ws: seq<Write>)
    ensures TriedAll(d, ws, ALL_UP) == ApplyAll(d, ws)
    decreases |ws|
  {
    hide Applied;
    if ws != [] {
      var front, last := ws[..|ws| - 1], ws[|ws| - 1];
      AllUpApplies(d, front);
      ApplyAllConcat(d, front, [last]);
      ApplySingle(ApplyAll(d, front), last);
      assert ws == front + [last];
    }
  }

  /** With all rows there and the store up, the answers are always yes: the loop
    does what the protocol says. */
  lemma FairIsOrdinary(c: Config, mem: Memory, d: Disk, op: Op)
    requires Closed(c.g) && Safe(c, d) && Mirrors(c, mem, d) && Enabled(c, mem, d, op)
    ensures FlakyWrites(c, mem, d, op, ALL_UP) == Writes(c, mem, d, op)
    ensures FlakyNext(c, mem, d, op, ALL_UP) == Next(c, mem, d, op)
  {
    hide Safe, Mirrors, ListsCanceled, Break, Succeed, Closed, Fated, Hear;
    if op.Deliver? && Considered(mem, op.attempt) {
      RunningRow(c, mem, d, op.attempt.node);
      FairHear(c, d, op.attempt, op.reply, op.canceled);
      hide LedgerKey;
      assert ResultHead(c, op.attempt, op.reply) + [] == ResultHead(c, op.attempt, op.reply);
    }
  }

  lemma FairHear(c: Config, d: Disk, a: Attempt, reply: Reply, canceled: seq<NodeId>)
    requires OpenRow(d, a.node) && (reply.Completed? || reply.Retry? ==> canceled == [])
    ensures Hear(c, d, a, reply, canceled, ALL_UP) ==
            if Claimed(c, d, a) then Heard([Claim(LedgerKey(c.run, a))], None)
            else Heard(ResultHead(c, a, reply) + CancelWrites(canceled), Some(reply))
  {
    assert LedgerKey(c.run, a)[0] == 'r';
    hide LedgerKey;
    var claim := Claim(LedgerKey(c.run, a));
    assert canceled == [] ==> CancelWrites(canceled) == [];
    hide CancelWrites;
    assert Applied(d, claim).status == d.status;
    assert ResultHead(c, a, reply) + [] == ResultHead(c, a, reply);
  }
}
