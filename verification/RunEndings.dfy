/** How runs of the distributed loop end. */
module RunEndings {
  import opened Ids
  import opened Graphs
  import opened StateMachines
  import opened Storage
  import opened Views
  import opened DiskSafety
  import opened Protocol
  import opened OpSafety
  import opened Recovery
  import opened Runs

  /** Every way out of the loop leaves a finished run, no open row, and no held
    quota slot. */
  lemma EndsSettled(c: Config, ws: seq<World>, ls: seq<Label>, i: nat)
    requires Closed(c.g) && IsExecution(c, ws, ls) && i < |ls|
    requires ls[i].Do? && (ls[i].op.Cancel? || ls[i].op.Finalize?)
    ensures var w' := ws[i + 1];
      && Finished(w'.disk.run) && AllTerminal(w'.disk.status) && w'.mem.held == {} && !Alive(w')
      && (ls[i].op.Finalize? ==> w'.disk.run == Verdict(w'.disk.status) && w'.disk.status == ws[i].disk.status)
  {
    hide Safe, Mirrors, IsExecution, Verdict;
    StepAt(c, ws, ls, i);
    RunsAreGood(c, ws, ls, i);
    RunsAreGood(c, ws, ls, i + 1);
    var mem, d, op := ws[i].mem, ws[i].disk, ls[i].op;
    EnabledRuns(c, ws[i], op);
    EndingFinishes(c, mem, d, op);
    DoKeepsGood(c, ws[i], op);
    FinishedIsTerminal(c, ws[i + 1].disk);
    if op.Finalize? {
      EnabledFinalize(c, mem, d);
      SameWhenDone(c, mem, d);
      NothingInFlight(c, mem, d);
    }
  }

  lemma StepAt(c: Config, ws: seq<World>, ls: seq<Label>, i: nat)
    requires IsExecution(c, ws, ls) && i < |ls|
    ensures |ws| == |ls| + 1 && Advance(c, ws[i], ls[i], ws[i + 1])
  {
    var l := ls[i];
  }

  lemma FinishedIsTerminal(c: Config, d: Disk)
    requires Safe(c, d) && Finished(d.run)
    ensures AllTerminal(d.status)
  {
  }

  lemma NothingInFlight(c: Config, mem: Memory, d: Disk)
    requires Mirrors(c, mem, d) && AllTerminal(d.status)
    ensures mem.held == {}
  {
  }

  // ------------------------------------------------------------------------
  // The outcome does not depend on the schedule or on crashes
  // ------------------------------------------------------------------------

  /** Terminal rows that ended as their outcomes say, and cancellations that go
    back to a failure, leave one possible final state. */
  lemma {:induction false} EndStates(g: Graph, t: seq<NodeId>, out: Outcomes, m: Model, v: NodeId)
    requires Closed(g) && IsTopo(g, t) && IsOutcomes(g, out) && v in m.nodes
    requires Sound(g, m) && AllTerminal(m.nodes)
    requires forall n :: n in m.nodes && n in out && IsCompletion(m.nodes[n]) ==> m.nodes[n] == out[n]
    requires forall n :: n in m.nodes && m.nodes[n].Canceled? ==> Blamed(g, m.nodes, n)
    ensures m.nodes[v] == FinalState(g, out, v)
    decreases IndexIn(t, v)
  {
    hide Sound, IndexIn;
    SoundKeys(g, m);
    if m.nodes[v].Canceled? {
      var a :| a in m.nodes && HasFailed(m.nodes[a]) && Below(g, a, v);
      assert IsCompletion(m.nodes[a]) && a in out;
    } else if Doomed(g, out, v) {
      var a :| a in out && !out[a].Succeeded? && Below(g, a, v);
      var u := BelowLastStep(g, a, v);
      TopoStep(g, t, u, v);
      UnlockedPred(g, m, Edge(u, v));
      ReachesSplits(g, a, u);
      EndStates(g, t, out, m, u);
    } else {
      assert IsCompletion(m.nodes[v]) && v in out;
    }
  }

  /** If nobody cancels the run and every node's fate is fixed, then every run
    that finalizes ends in the same durable states with the same verdict: which
    attempts were lost, retried or delivered twice, and where the process
    crashed, leaves no trace. */
  lemma OutcomeUnderCrashes(c: Config, t: seq<NodeId>, out: Outcomes, ws: seq<World>, ls: seq<Label>, i: nat)
    requires Closed(c.g) && IsTopo(c.g, t) && IsOutcomes(c.g, out)
    requires !c.cancelable && forall n :: n in out ==> c.fate(n) == Some(out[n])
    requires IsExecution(c, ws, ls) && i < |ls| && ls[i] == Do(Finalize)
    ensures ws[i + 1].disk.status == map v | v in out :: FinalState(c.g, out, v)
    ensures ws[i + 1].disk.run == if exists v :: v in out && !out[v].Succeeded? then RunFailed else RunSucceeded
  {
    hide Safe, Mirrors, IsExecution, Verdict, FinalState, IsTopo, Sound;
    StepAt(c, ws, ls, i);
    EndsSettled(c, ws, ls, i);
    RunsAreGood(c, ws, ls, i);
    EnabledRuns(c, ws[i], Finalize);
    var mem, d := ws[i].mem, ws[i].disk;
    EnabledFinalize(c, mem, d);
    SameWhenDone(c, mem, d);
    LiveModelIsSound(c, mem, d);
    SafeEnds(c, d);
    SoundKeys(c.g, mem.model);
    forall v | v in d.status ensures d.status[v] == FinalState(c.g, out, v) {
      EndStates(c.g, t, out, mem.model, v);
    }
    RunVerdict(c.g, t, out);
    assert d.status == map v | v in out :: FinalState(c.g, out, v);
  }

  lemma LiveModelIsSound(c: Config, mem: Memory, d: Disk)
    requires Closed(c.g) && Safe(c, d) && Mirrors(c, mem, d)
    ensures Sound(c.g, mem.model)
  {
    hide Safe, Sound;
    SafeIsSound(c, d);
  }

  lemma SafeEnds(c: Config, d: Disk)
    requires Safe(c, d)
    ensures forall n :: n in d.status && IsCompletion(d.status[n]) ==> Fated(c, n, d.status[n])
    ensures forall n :: n in d.status && d.status[n].Canceled? ==> c.cancelable || Blamed(c.g, d.status, n)
  {
    hide RowsSafe, AttemptsSafe, WithinCapacity, OutcomeSafe, ShowsOnlyStored, Blamed;
    forall n | n in d.status ensures MayEnd(c, d.status, n, d.status[n]) { }
  }

  /** A node on a resource of capacity 1 is in flight alone on it, as far as the
    other nodes on the resource have capacity 1 too: one browser node per run. */
  lemma ExclusiveResource(c: Config, ws: seq<World>, ls: seq<Label>, i: nat, x: NodeId, y: NodeId)
    requires Closed(c.g) && IsExecution(c, ws, ls) && i < |ws|
    requires var nodes := ws[i].disk.status;
      x in nodes && y in nodes && nodes[x].InFlight() && nodes[y].InFlight()
    requires c.policy(x).key == c.policy(y).key != "" && c.policy(x).capacity == c.policy(y).capacity == 1
    ensures x == y
  {
    hide IsExecution;
    RunsAreGood(c, ws, ls, i);
    var nodes := ws[i].disk.status;
    assert Fits(c, nodes, x);
    assert {x, y} <= Crowd(c, nodes, x);
    SubsetSize({x, y}, Crowd(c, nodes, x));
  }

  /** Where all nodes on a resource have one capacity, the slots in use of it
    never exceed that, resumes included. */
  lemma UsageWithinCapacity(c: Config, ws: seq<World>, ls: seq<Label>, i: nat, key: string, capacity: nat)
    requires Closed(c.g) && IsExecution(c, ws, ls) && i < |ws| && Alive(ws[i]) && key != ""
    requires forall v :: v in c.g.nodes && c.policy(v).key == key ==> c.policy(v).capacity == capacity
    ensures Used(ws[i].mem, key) <= capacity
  {
    hide IsExecution;
    RunsAreGood(c, ws, ls, i);
    var mem, nodes := ws[i].mem, ws[i].disk.status;
    assert Used(mem, key) == |InFlightWith(c, nodes, key)|;
    SafeKeys(c, ws[i].disk);
    if m :| m in InFlightWith(c, nodes, key) {
      assert Fits(c, nodes, m);
      assert Crowd(c, nodes, m) == InFlightWith(c, nodes, key);
    }
  }

  /** At loop heads the slots in use are exactly the nodes in flight. */
  lemma SlotsAreNodesInFlight(c: Config, ws: seq<World>, ls: seq<Label>, i: nat, key: string)
    requires Closed(c.g) && IsExecution(c, ws, ls) && i < |ws| && Alive(ws[i]) && key != ""
    ensures var mem := ws[i].mem;
      && Used(mem, key) == |set v | v in mem.model.nodes && mem.model.nodes[v].InFlight() && c.policy(v).key == key|
      && (c.gated ==> mem.held == set v | v in mem.model.nodes && mem.model.nodes[v].InFlight())
  {
    hide IsExecution, Safe;
    RunsAreGood(c, ws, ls, i);
    var mem, d := ws[i].mem, ws[i].disk;
    var slots := Used(mem, key);
    assert forall v :: v in d.status ==> (mem.model.nodes[v].InFlight() <==> d.status[v].InFlight());
    assert InFlightWith(c, d.status, key) ==
           set v | v in mem.model.nodes && mem.model.nodes[v].InFlight() && c.policy(v).key == key;
  }
}
