/** Fairness and conservation of the quota gate over whole histories
  (engine/core/src/quota.cpp). */
module QuotaLaws {
  import opened Ids
  import opened ExecutionPolicies
  import opened Quotas

  /** Who a slot is held for: a node of one run loop. */
  datatype Holder = Holder(run: string, node: NodeId)

  datatype Slot = Slot(org: Org, klass: ResourceClass)

  /** A loop gives a slot back only while it holds it, and asks only for a node
    that holds none. */
  datatype Call =
    | Ask(who: Holder, slot: Slot, now: int)
    | GiveBack(who: Holder)
    | Retake(who: Holder, slot: Slot)

  datatype Hall = Hall(gate: Gate, holds: map<Holder, Slot>)

  ghost predicate Allowed(h: Hall, call: Call) {
    match call
    case Ask(who, _, _) => who !in h.holds
    case GiveBack(who) => who in h.holds
    case Retake(who, _) => who !in h.holds
  }

  ghost predicate Wins(h: Hall, call: Call) {
    call.Ask? && Granted(h.gate, call.slot.org, call.slot.klass, call.now)
  }

  ghost function After(h: Hall, call: Call): Hall
    requires Allowed(h, call)
  {
    match call
    case Ask(who, s, now) =>
      Hall(Acquire(h.gate, s.org, s.klass, now), if Wins(h, call) then h.holds[who := s] else h.holds)
    case GiveBack(who) => Hall(ReleaseSlot(h.gate, h.holds[who].org, h.holds[who].klass), h.holds - {who})
    case Retake(who, s) => Hall(Reacquire(h.gate, s.org, s.klass), h.holds[who := s])
  }

  ghost predicate IsHistory(hs: seq<Hall>, cs: seq<Call>) {
    && |hs| == |cs| + 1
    && forall i {:trigger cs[i]} :: 0 <= i < |cs| ==> Allowed(hs[i], cs[i]) && hs[i + 1] == After(hs[i], cs[i])
  }

  // ------------------------------------------------------------------------
  // Conservation
  // ------------------------------------------------------------------------

  ghost function HeldBy(holds: map<Holder, Slot>, org: Org): set<Holder> {
    set h | h in holds && holds[h].org == org
  }

  ghost function HeldOf(holds: map<Holder, Slot>, k: ResourceClass): set<Holder> {
    set h | h in holds && holds[h].klass == k
  }

  /** The gate counts exactly the slots that the loops hold. */
  ghost predicate Conserves(h: Hall) {
    && (forall org :: Count(h.gate.tasks, org) == |HeldBy(h.holds, org)|)
    && (forall k :: Count(h.gate.classes, k) == |HeldOf(h.holds, k)|)
  }

  lemma OneMoreHeldBy(holds: map<Holder, Slot>, who: Holder, s: Slot, org: Org)
    requires who !in holds
    ensures |HeldBy(holds[who := s], org)| == |HeldBy(holds, org)| + if org == s.org then 1 else 0
  {
    if org == s.org {
      assert HeldBy(holds[who := s], org) == HeldBy(holds, org) + {who};
    } else {
      assert HeldBy(holds[who := s], org) == HeldBy(holds, org);
    }
  }

  lemma OneMoreHeldOf(holds: map<Holder, Slot>, who: Holder, s: Slot, k: ResourceClass)
    requires who !in holds
    ensures |HeldOf(holds[who := s], k)| == |HeldOf(holds, k)| + if k == s.klass then 1 else 0
  {
    if k == s.klass {
      assert HeldOf(holds[who := s], k) == HeldOf(holds, k) + {who};
    } else {
      assert HeldOf(holds[who := s], k) == HeldOf(holds, k);
    }
  }

  lemma HoldMore(holds: map<Holder, Slot>, who: Holder, s: Slot)
    requires who !in holds
    ensures forall org :: |HeldBy(holds[who := s], org)| == |HeldBy(holds, org)| + if org == s.org then 1 else 0
    ensures forall k :: |HeldOf(holds[who := s], k)| == |HeldOf(holds, k)| + if k == s.klass then 1 else 0
  {
    hide HeldBy, HeldOf;
    forall org ensures |HeldBy(holds[who := s], org)| == |HeldBy(holds, org)| + if org == s.org then 1 else 0 {
      OneMoreHeldBy(holds, who, s, org);
    }
    forall k ensures |HeldOf(holds[who := s], k)| == |HeldOf(holds, k)| + if k == s.klass then 1 else 0 {
      OneMoreHeldOf(holds, who, s, k);
    }
  }

  lemma StepConserves(h: Hall, call: Call)
    requires Conserves(h) && Allowed(h, call)
    ensures Conserves(After(h, call))
  {
    match call
    case Ask(who, s, now) =>
      hide MyTurn, HeldBy, HeldOf, Granted, Acquire;
      AcquireCounts(h.gate, s.org, s.klass, now);
      if Wins(h, call) { HoldMore(h.holds, who, s); }
    case Retake(who, s) =>
      hide HeldBy, HeldOf;
      RetakeCounts(h.gate, s);
      HoldMore(h.holds, who, s);
    case GiveBack(who) =>
      var h' := After(h, call);
      hide HeldBy, HeldOf;
      HoldMore(h'.holds, who, h.holds[who]);
      assert h'.holds[who := h.holds[who]] == h.holds;
  }

  lemma RetakeCounts(g: Gate, s: Slot)
    ensures var g' := Reacquire(g, s.org, s.klass);
      && (forall o :: Count(g'.tasks, o) == Count(g.tasks, o) + if o == s.org then 1 else 0)
      && (forall c :: Count(g'.classes, c) == Count(g.classes, c) + if c == s.klass then 1 else 0)
  {
  }

  lemma AcquireCounts(g: Gate, org: Org, k: ResourceClass, now: int)
    ensures var g', d := Acquire(g, org, k, now), if Granted(g, org, k, now) then 1 else 0;
      && (forall o :: Count(g'.tasks, o) == Count(g.tasks, o) + if o == org then d else 0)
      && (forall c :: Count(g'.classes, c) == Count(g.classes, c) + if c == k then d else 0)
  {
    hide Granted, Fresh, OrgFull, ClassFull;
    AskedKeepsCounts(g, org, k, now);
    hide Asked;
  }

  lemma AskedKeepsCounts(g: Gate, org: Org, k: ResourceClass, now: int)
    ensures var asked := Asked(g, org, k, now);
      asked.tasks == g.tasks && asked.classes == g.classes && asked.served == g.served && asked.cfg == g.cfg
  {
    hide Fresh, OrgFull, ClassFull, Arbitrated;
  }

  /** In every history of a new gate the in-flight totals are the slots held,
    over all loops; so when every loop has given its slots back, all are zero. */
  lemma {:induction false} GateConserves(cfg: QuotaConfig, hs: seq<Hall>, cs: seq<Call>, i: nat)
    requires IsHistory(hs, cs) && i < |hs|
    requires hs[0] == Hall(Gate(cfg, map[], 0, map[], map[], map[], map[]), map[])
    ensures Conserves(hs[i])
    ensures hs[i].holds == map[] ==> forall org :: Count(hs[i].gate.tasks, org) == 0
  {
    hide After, Allowed;
    if i > 0 {
      GateConserves(cfg, hs, cs, i - 1);
      var call := cs[i - 1];
      StepConserves(hs[i - 1], call);
    } else {
      assert forall org :: HeldBy(hs[0].holds, org) == {};
      assert forall k :: HeldOf(hs[0].holds, k) == {};
    }
    if hs[i].holds == map[] { assert forall org :: HeldBy(hs[i].holds, org) == {}; }
  }

  /** A grant never exceeds a cap. */
  lemma GrantWithinCaps(g: Gate, org: Org, k: ResourceClass, now: int)
    requires Granted(g, org, k, now)
    ensures var g' := Acquire(g, org, k, now);
      && (g.cfg.tasksPerOrg > 0 ==> Count(g'.tasks, org) <= g.cfg.tasksPerOrg)
      && (Capped(g.cfg, k) ==> Count(g'.classes, k) <= g.cfg.classCapacity[k])
  {
    AcquireCounts(g, org, k, now);
  }

  // ------------------------------------------------------------------------
  // Fairness
  // ------------------------------------------------------------------------

  /** w has asked for k recently enough, as the selection for org sees it. */
  ghost predicate StillAsking(g: Gate, org: Org, k: ResourceClass, now: int, w: Org) {
    w in Swept(g, org, k, now).demand[k]
  }

  /** A grant to b while w is asking: b was not served more than its share of
    what w was. The one exception is an organization with an empty id. */
  lemma GrantIsFair(g: Gate, b: Org, k: ResourceClass, now: int, w: Org)
    requires Arbitrated(g.cfg, k) && Granted(g, b, k, now) && StillAsking(g, b, k, now, w) && w != ""
    ensures Served(g, k, b) * Weight(g.cfg, w) <= Served(g, k, w) * Weight(g.cfg, b)
  {
    if w != b {
      assert Before(g.cfg, Asking(g.served, k), b, w);
    }
  }

  lemma ServedAfter(h: Hall, call: Call, k: ResourceClass, org: Org)
    requires Allowed(h, call) && h.gate.cfg.fair
    ensures After(h, call).gate.cfg == h.gate.cfg
    ensures Served(After(h, call).gate, k, org) ==
            Served(h.gate, k, org) + if Wins(h, call) && call.slot == Slot(org, k) then 1 else 0
  {
    hide Granted, Asked;
    if call.Ask? { AskedKeepsCounts(h.gate, call.slot.org, call.slot.klass, call.now); }
  }

  /** At every grant of k, all of orgs are asking. */
  ghost predicate AlwaysAsking(hs: seq<Hall>, cs: seq<Call>, k: ResourceClass, orgs: set<Org>) {
    forall i {:trigger cs[i]} :: 0 <= i < |cs| && i < |hs| && Wins(hs[i], cs[i]) && cs[i].slot.klass == k ==>
      forall w :: w in orgs ==> StillAsking(hs[i].gate, cs[i].slot.org, k, cs[i].now, w)
  }

  /** Organizations that keep asking are served in proportion to their weights,
    to within one grant, forever. */
  lemma {:induction false} FairShares(hs: seq<Hall>, cs: seq<Call>, k: ResourceClass, orgs: set<Org>, i: nat, a: Org, b: Org)
    requires IsHistory(hs, cs) && i < |hs| && Arbitrated(hs[0].gate.cfg, k) && hs[0].gate.served == map[]
    requires AlwaysAsking(hs, cs, k, orgs) && "" !in orgs && a in orgs && b in orgs
    ensures var g := hs[i].gate;
      g.cfg == hs[0].gate.cfg && (Served(g, k, a) - 1) * Weight(g.cfg, b) <= Served(g, k, b) * Weight(g.cfg, a)
  {
    hide After, Allowed, StillAsking, Granted;
    if i > 0 {
      FairShares(hs, cs, k, orgs, i - 1, a, b);
      var h, call := hs[i - 1], cs[i - 1];
      ServedAfter(h, call, k, a);
      ServedAfter(h, call, k, b);
      ShareStep(h, call, k, a, b, if Wins(h, call) && call.slot.klass == k then orgs else {});
    }
  }

  lemma ShareStep(h: Hall, call: Call, k: ResourceClass, a: Org, b: Org, orgs: set<Org>)
    requires Allowed(h, call) && Arbitrated(h.gate.cfg, k)
    requires (Served(h.gate, k, a) - 1) * Weight(h.gate.cfg, b) <= Served(h.gate, k, b) * Weight(h.gate.cfg, a)
    requires Wins(h, call) && call.slot.klass == k ==>
               b in orgs && b != "" && StillAsking(h.gate, call.slot.org, k, call.now, b)
    ensures var x, y := if Wins(h, call) && call.slot == Slot(a, k) then 1 else 0, if Wins(h, call) && call.slot == Slot(b, k) then 1 else 0;
      (Served(h.gate, k, a) + x - 1) * Weight(h.gate.cfg, b) <= (Served(h.gate, k, b) + y) * Weight(h.gate.cfg, a)
  {
    hide StillAsking, Granted;
    if Wins(h, call) && call.slot.klass == k {
      if call.slot.org == a {
        GrantIsFair(h.gate, a, k, call.now, b);
      }
    }
  }

  /** While w waits, every other organization is granted at most what brings it
    one past its share of what w had: no starvation. */
  lemma {:induction false} OvertakingBound(hs: seq<Hall>, cs: seq<Call>, k: ResourceClass, w: Org, b: Org, i: nat)
    requires IsHistory(hs, cs) && i < |hs| && Arbitrated(hs[0].gate.cfg, k) && w != "" && b != w
    requires AlwaysAsking(hs, cs, k, {w})
    requires forall j :: 0 <= j < |cs| && Wins(hs[j], cs[j]) ==> cs[j].slot != Slot(w, k)
    ensures var g, g0 := hs[i].gate, hs[0].gate;
      && g.cfg == g0.cfg && Served(g, k, w) == Served(g0, k, w)
      && (Served(g, k, b) == Served(g0, k, b) ||
          (Served(g, k, b) - 1) * Weight(g0.cfg, w) <= Served(g0, k, w) * Weight(g0.cfg, b))
  {
    hide After, Allowed, StillAsking, Granted;
    if i > 0 {
      OvertakingBound(hs, cs, k, w, b, i - 1);
      var h, call := hs[i - 1], cs[i - 1];
      ServedAfter(h, call, k, w);
      ServedAfter(h, call, k, b);
      if Wins(h, call) && call.slot == Slot(b, k) {
        WinnerIsFair(h, call, w);
      }
    }
  }

  lemma WinnerIsFair(h: Hall, call: Call, w: Org)
    requires Wins(h, call) && Arbitrated(h.gate.cfg, call.slot.klass) && w != ""
    requires StillAsking(h.gate, call.slot.org, call.slot.klass, call.now, w)
    ensures var b, k := call.slot.org, call.slot.klass;
      Served(h.gate, k, b) * Weight(h.gate.cfg, w) <= Served(h.gate, k, w) * Weight(h.gate.cfg, b)
  {
    GrantIsFair(h.gate, call.slot.org, call.slot.klass, call.now, w);
  }

  // ------------------------------------------------------------------------
  // Runs
  // ------------------------------------------------------------------------

  ghost function RunsOf(active: map<string, Org>, org: Org): set<string> {
    set r | r in active && active[r] == org
  }

  /** The gate's run counts are the runs that are active. */
  ghost predicate CountsRuns(g: Gate, active: map<string, Org>) {
    g.totalRuns == |active.Keys| && forall org :: Count(g.runs, org) == |RunsOf(active, org)|
  }

  lemma StartRunCounts(g: Gate, active: map<string, Org>, r: string, org: Org)
    requires CountsRuns(g, active) && r !in active
    ensures CountsRuns(g.(runs := g.runs[org := Count(g.runs, org) + 1], totalRuns := g.totalRuns + 1), active[r := org])
  {
    assert active[r := org].Keys == active.Keys + {r};
    hide RunsOf;
    var runs := g.runs[org := Count(g.runs, org) + 1];
    forall o ensures Count(runs, o) == |RunsOf(active[r := org], o)| {
      OneMoreRun(active, r, org, o);
      assert Count(g.runs, o) == |RunsOf(active, o)|;
    }
  }

  lemma OneMoreRun(active: map<string, Org>, r: string, org: Org, o: Org)
    requires r !in active
    ensures |RunsOf(active[r := org], o)| == |RunsOf(active, o)| + if o == org then 1 else 0
  {
    if o == org {
      assert RunsOf(active[r := org], o) == RunsOf(active, o) + {r};
    } else {
      assert RunsOf(active[r := org], o) == RunsOf(active, o);
    }
  }

  /** Releasing an active run takes it off both counts. */
  lemma ReleaseRunCounts(g: Gate, active: map<string, Org>, r: string)
    requires CountsRuns(g, active) && r in active
    ensures Count(g.runs, active[r]) > 0 && g.totalRuns > 0
    ensures CountsRuns(g.(runs := Decrement(g.runs, active[r]), totalRuns := g.totalRuns - 1), active - {r})
  {
    var rest, org := active - {r}, active[r];
    assert active.Keys == rest.Keys + {r} && r !in rest.Keys && rest[r := org] == active;
    assert |active.Keys| == |rest.Keys| + 1;
    hide RunsOf, Decrement;
    OneMoreRun(rest, r, org, org);
    assert Count(g.runs, org) == |RunsOf(active, org)|;
    forall o ensures Count(Decrement(g.runs, org), o) == |RunsOf(rest, o)| {
      OneMoreRun(rest, r, org, o);
      assert Count(g.runs, o) == |RunsOf(active, o)|;
      DecrementedCount(g.runs, org, o);
    }
  }

  lemma DecrementedCount(m: map<string, int>, a: string, o: string)
    requires Count(m, a) > 0
    ensures Count(Decrement(m, a), o) == Count(m, o) - if o == a then 1 else 0
  {
  }
}
