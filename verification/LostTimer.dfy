/** A run in which a restart loses the only timer and nothing can go on any more
  (engine/core/src/distributed_run_loop.cpp). */
module LostTimer {
  import opened Ids
  import opened Graphs
  import opened StateMachines
  import opened LedgerKeys
  import opened Storage
  import opened Views
  import opened DiskSafety
  import opened Protocol
  import opened OpSafety
  import opened Recovery
  import opened Runs
  import opened CrashWindows
  import opened Strandings
  import opened StrandedRuns
  import opened AfloatRuns

  /** One node, two attempts, no resource, nobody to cancel. */
  function Solo(): Config {
    Config(Graph({"a"}, {}), "r", (n: NodeId) => Policy("", 0, 2), false, false, (n: NodeId) => None)
  }

  const FIRST_ATTEMPT := Attempt("a", 1)

  /** The first attempt fails, and the retry policy, with no backoff and no
    completion time, sets the timer to 0. */
  function Labels(): seq<Label> {
    [Do(Dispatch("a", 5, true, [])), Do(Deliver(FIRST_ATTEMPT, Retry(0), [])), Crash(Wake("a"), 0)]
  }

  ghost function Start(): World {
    World(FreshMemory(Solo()), FreshDisk(Solo(), {}, true))
  }

  lemma StartIsReady()
    ensures Initial(Solo(), Start()) && Good(Solo(), Start()) && Alive(Start())
    ensures Start().mem.model.nodes == map["a" := Ready]
  {
    var c := Solo();
    assert Fresh(c, Start()) by { assert OwnsNoKey(c, {}); }
    InitialIsGood(c, Start());
    NothingPending(c.g, AllBlocked(c.g), "a");
    hide PendingCount;
    assert Unblock(c.g, AllBlocked(c.g)) == map["a" := Ready];
  }

  function Out(): Op { Dispatch("a", 5, true, []) }

  function Back(): Op { Deliver(FIRST_ATTEMPT, Retry(0), []) }

  lemma OutEnabled()
    ensures Enabled(Solo(), Start().mem, Start().disk, Out())
  {
    StartIsReady();
    hide StartFrom, Break, ListsCanceled, Good, Initial;
  }

  ghost function Sent(): World {
    Stepped(Solo(), Start(), Out())
  }

  lemma SentMemory()
    ensures var mem := Sent().mem;
      mem.model.nodes == map["a" := Running] && Current(mem, "a") == 1 && mem.seen == {} && mem.due == map[]
  {
    StartIsReady();
    hide StartFrom, Good, Initial, FreshDisk;
  }

  lemma SentIsGood()
    ensures Advance(Solo(), Start(), Do(Out()), Sent()) && Good(Solo(), Sent()) && Alive(Sent())
    ensures Sent().disk == After(Solo(), Start().mem, Start().disk, Out())
  {
    hide Good, Enabled, Next, Writes, ApplyAll, After, Start;
    StartIsReady();
    OutEnabled();
    DoKeepsGood(Solo(), Start(), Out());
    EndingFinishes(Solo(), Start().mem, Start().disk, Out());
  }

  lemma SentDisk()
    ensures var d := Sent().disk;
      d.tasks == [FIRST_ATTEMPT] && d.ledger == {} && d.status == map["a" := Running] && d.until == map[] && d.run == RunState.RunRunning
  {
    hide Good, Enabled, Next, Writes, ApplyAll, StartFrom;
    SentIsGood();
  }

  lemma BackEnabled()
    ensures Enabled(Solo(), Sent().mem, Sent().disk, Back()) && Applies(Solo(), Sent().mem, Sent().disk, FIRST_ATTEMPT)
  {
    hide Good, Next, Writes, ApplyAll, Stepped, Start;
    SentIsGood();
    SentMemory();
    SentDisk();
    hide LedgerKey;
  }

  ghost function Parked(): World {
    Stepped(Solo(), Sent(), Back())
  }

  lemma ParkedIsGood()
    ensures Advance(Solo(), Sent(), Do(Back()), Parked()) && Good(Solo(), Parked()) && Alive(Parked())
    ensures Parked().disk == After(Solo(), Sent().mem, Sent().disk, Back())
  {
    hide Good, Enabled, Next, Writes, ApplyAll, After, Sent;
    SentIsGood();
    BackEnabled();
    DoKeepsGood(Solo(), Sent(), Back());
    EndingFinishes(Solo(), Sent().mem, Sent().disk, Back());
  }

  lemma ParkedRow()
    ensures var d := Parked().disk; d.status == map["a" := RetryWait] && d.until == map["a" := 0] && d.run == RunState.RunRunning
  {
    hide Good, Enabled, Next, Writes, ApplyAll, Sent, Applies, LedgerKey;
    ParkedIsGood();
    BackEnabled();
    SentDisk();
    var d, after := Sent().disk, Parked().disk;
    assert after == Resolved(Solo(), d, FIRST_ATTEMPT, Retry(0), []);
    NoCancel(d.status["a" := RetryWait]);
  }

  ghost function Restarted(): World {
    World(Recovered(Solo(), Parked().disk), Parked().disk)
  }

  lemma RestartedMemory()
    ensures var w := Restarted(); Alive(w) && w.mem.model.nodes == map["a" := RetryWait] && w.mem.due == map[]
  {
    hide Parked, PendingCount, AttemptNumbers, SlotsUsed;
    ParkedRow();
    var nodes := map["a" := RetryWait];
    assert Filled(Solo().g, Restored(nodes)) == nodes;
    assert Unblock(Solo().g, nodes) == nodes;
  }

  lemma Restarts()
    ensures Advance(Solo(), Parked(), Crash(Wake("a"), 0), Restarted()) && Good(Solo(), Restarted())
  {
    hide Good, ApplyAll, Parked, Recovered, Writes, Enabled, Next, LedgerKey;
    ParkedIsGood();
    ParkedRow();
    WakeEnabled();
    NoCalls(Parked().disk, Writes(Solo(), Parked().mem, Parked().disk, Wake("a")));
    StepKeepsGood(Solo(), Parked(), Crash(Wake("a"), 0), Restarted());
  }

  lemma WakeEnabled()
    ensures Enabled(Solo(), Parked().mem, Parked().disk, Wake("a"))
  {
    hide Good, Writes, ApplyAll, Parked, StartFrom, Next;
    ParkedIsGood();
    ParkedDue();
  }

  lemma ParkedDue()
    ensures Parked().mem.due == map["a" := 0] && Parked().mem.model.run.RunRunning?
  {
    hide Good, Enabled, Writes, ApplyAll, Sent, StartFrom, LedgerKey;
    ParkedIsGood();
    BackEnabled();
    SentMemory();
  }

  /** A timer that is due at the epoch is lost by the first restart. No node is
    stranded, the one node is parked, and nothing can go on. */
  lemma LostTimerStalls() returns (ws: seq<World>)
    ensures NeverStranded(Solo(), ws, Labels()) && Alive(ws[3]) && PositiveCapacities(Solo())
    ensures !AllTerminal(ws[3].mem.model.nodes) && TimerLost(ws[3].mem, "a") && Recovered(Solo(), ws[2].disk).due != ws[2].mem.due
    ensures forall op :: Enabled(Solo(), ws[3].mem, ws[3].disk, op) ==>
              Next(Solo(), ws[3].mem, ws[3].disk, op).model.nodes == ws[3].mem.model.nodes
  {
    hide Good, Advance, Sent, Parked, Restarted, Start, Recovered, Enabled, Next, CanGoOn, StrandingCrash, Initial, TimerLost, Solo;
    ws := [Start(), Sent(), Parked(), Restarted()];
    StartIsReady();
    SentIsGood();
    ParkedIsGood();
    ParkedDue();
    Restarts();
    RestartedMemory();
    NothingGoesOn();
    NothingTorn();
    assert "a" in ws[3].mem.model.nodes;
    SoloHasRoom();
  }

  lemma SoloHasRoom()
    ensures PositiveCapacities(Solo())
  {
  }

  lemma NothingTorn()
    ensures forall v :: !StrandingCrash(Solo(), Parked(), Crash(Wake("a"), 0), v)
    ensures forall w, op, v :: !StrandingCrash(Solo(), w, Do(op), v)
  {
    hide Parked, Solo;
    forall v ensures !StrandingCrash(Solo(), Parked(), Crash(Wake("a"), 0), v) {
      WakeStrandsNothing(Solo(), Parked().mem, Parked().disk, 0, v);
    }
  }

  lemma WakeStrandsNothing(c: Config, mem: Memory, d: Disk, calls: nat, v: NodeId)
    ensures !Strands(c, mem, d, Wake("a"), calls, v)
  {
  }

  lemma NothingGoesOn()
    ensures var w := Restarted();
      forall op :: Enabled(Solo(), w.mem, w.disk, op) ==> Next(Solo(), w.mem, w.disk, op).model.nodes == w.mem.model.nodes
    ensures TimerLost(Restarted().mem, "a") && Recovered(Solo(), Parked().disk).due != Parked().mem.due
  {
    hide Good, Enabled, Next, CanGoOn, Restarted, Parked, Safe, Mirrors;
    Restarts();
    RestartedMemory();
    ParkedDue();
    var w := Restarted();
    GoodMirrors(Solo(), w);
    GoingOnIff(Solo(), w.mem, w.disk);
    forall v ensures !CanGoOn(Solo(), w.mem, w.disk, v) { NoMove(w.mem, w.disk, v); }
    forall op | Enabled(Solo(), w.mem, w.disk, op) ensures !op.Cancel? { NoCancelHere(w.mem, w.disk, op); }
    RestartedDue();
  }

  lemma NoMove(mem: Memory, d: Disk, v: NodeId)
    requires mem.model.nodes == map["a" := RetryWait] && mem.due == map[]
    ensures !CanGoOn(Solo(), mem, d, v)
  {
  }

  lemma NoCancelHere(mem: Memory, d: Disk, op: Op)
    requires Enabled(Solo(), mem, d, op)
    ensures !op.Cancel?
  {
  }

  lemma RestartedDue()
    ensures Recovered(Solo(), Parked().disk) == Restarted().mem
  {
    hide Parked, Recovered;
  }
}
