/** Several run loops over one quota gate, with process crashes, resumes and
  interrupted creations, the loops' calls to the gate interleaved one by one: the
  gate's totals are the slots that the loops hold
  (engine/core/src/distributed_run_loop.cpp, engine/core/src/quota.cpp). */
module GateRuns {
  import opened Ids
  import opened Graphs
  import opened Dags
  import opened StateMachines
  import opened ExecutionPolicies
  import opened LedgerKeys
  import opened Storage
  import opened DiskSafety
  import opened Protocol
  import opened OpSafety
  import opened Recovery
  import opened Runs
  import opened CrashWindows
  import opened Outages
  import opened StartUps
  import opened PartialRows
  import opened Quotas
  import opened QuotaLaws
  import opened Sorting

  /** A run's configuration, the order in which its rows are created, its
    organization, and the resource class of each node. */
  datatype Site = Site(c: Config, order: seq<NodeId>, org: Org, klass: NodeId -> ResourceClass)

  /** A run and its loop, if a process drives it. slots are the nodes for which
    the loop holds a slot of the gate right now; owed are the calls to the gate
    that are left of its last operation. */
  datatype Lane = Lane(up: bool, world: World, slots: set<NodeId>, owed: seq<SlotCall>)

  datatype Plant = Plant(gate: Gate, lanes: map<string, Lane>)

  type Sites = map<string, Site>

  function SlotOf(site: Site, n: NodeId): Slot {
    Slot(site.org, site.klass(n))
  }

  // ------------------------------------------------------------------------
  // The calls of a loop
  // ------------------------------------------------------------------------

  /** What an operation asks of the gate, over whatever rows there are: a slot is
    given back after a result only if the result got through to memory. */
  ghost function FairSlotCalls(c: Config, mem: Memory, d: Disk, op: Op): seq<SlotCall> {
    match op
    case Deliver(a, reply, xs) =>
      if Considered(mem, a) && Hear(c, d, a, reply, xs, ALL_UP).verdict.Some? && a.node in mem.held then [Give(a.node)] else []
    case _ => SlotCalls(c, mem, d, op)
  }

  /** With all rows there these are the calls of the protocol. */
  lemma FairSlotsAreOrdinary(c: Config, mem: Memory, d: Disk, op: Op)
    requires Closed(c.g) && Safe(c, d) && Mirrors(c, mem, d) && Enabled(c, mem, d, op)
    ensures FairSlotCalls(c, mem, d, op) == SlotCalls(c, mem, d, op)
  {
    hide Safe, Mirrors, ListsCanceled, Break, Fated, Hear, LedgerKey;
    if op.Deliver? && Considered(mem, op.attempt) {
      ConsideredRuns(mem, op.attempt);
      RunningRow(c, mem, d, op.attempt.node);
      FairHear(c, d, op.attempt, op.reply, op.canceled);
    }
  }

  /** The grant comes before everything else of a dispatch. */
  function First(calls: seq<SlotCall>): Option<SlotCall> {
    if calls != [] && calls[0].Take? then Some(calls[0]) else None
  }

  function Later(calls: seq<SlotCall>): seq<SlotCall> {
    if First(calls).Some? then calls[1..] else calls
  }

  function AsCall(site: Site, r: string, call: SlotCall, now: int): Call {
    match call
    case Take(n) => Ask(Holder(r, n), SlotOf(site, n), now)
    case Give(n) => GiveBack(Holder(r, n))
    case Retake(n) => QuotaLaws.Call.Retake(Holder(r, n), SlotOf(site, n))
  }

  /** The gate knows organizations and classes only. */
  ghost function GateAfter(g: Gate, site: Site, call: SlotCall, now: int): Gate {
    var slot := SlotOf(site, call.node);
    match call
    case Take(_) => Acquire(g, slot.org, slot.klass, now)
    case Give(_) => ReleaseSlot(g, slot.org, slot.klass)
    case Retake(_) => Reacquire(g, slot.org, slot.klass)
  }

  /** What the loop holds after a call. */
  ghost function SlotsAfter(g: Gate, site: Site, slots: set<NodeId>, call: SlotCall, now: int): set<NodeId> {
    match call
    case Take(n) => if Granted(g, site.org, site.klass(n), now) then slots + {n} else slots
    case Give(n) => slots - {n}
    case Retake(n) => slots + {n}
  }

  function NewGate(cfg: QuotaConfig): Gate {
    Gate(cfg, map[], 0, map[], map[], map[], map[])
  }

  // ------------------------------------------------------------------------
  // The system
  // ------------------------------------------------------------------------

  /** Perform: an operation of run r's loop, with the grant if it is a dispatch.
    Pay: the next call to the gate that it owes. Refuse: a ready node is refused a
    slot. Aside: a worker, another run's claim, or the event of a resume. Begin: a
    new run. Abort: a new run whose first process dies after k of its node rows.
    Fall: the process dies, each loop at a point of its own. Resume: a new loop
    picks up run r from its rows and owes the gate their slots. */
  datatype PlantLabel =
    | Perform(r: string, op: Op, now: int)
    | Pay(r: string)
    | Refuse(r: string, n: NodeId, now: int)
    | Aside(r: string, call: Write)
    | Begin(r: string, world: World)
    | Abort(r: string, k: nat, ledger: set<string>)
    | Fall
    | Resume(r: string)

  /** What is left of a loop's durable state when its process dies. */
  ghost predicate Cut(c: Config, w: World, d: Disk) {
    d == w.disk ||
    exists op, calls: nat ::
      Enabled(c, w.mem, w.disk, op) && calls <= |FlakyWrites(c, w.mem, w.disk, op, ALL_UP)|
      && d == ApplyAll(w.disk, FlakyWrites(c, w.mem, w.disk, op, ALL_UP)[..calls])
  }

  ghost predicate Fell(c: Config, lane: Lane, lane': Lane) {
    !lane'.up && if lane.up then Cut(c, lane.world, lane'.world.disk) else lane'.world == lane.world
  }

  /** The world after an operation over whatever rows there are. */
  ghost function Performed(c: Config, w: World, op: Op): World {
    World(FlakyNext(c, w.mem, w.disk, op, ALL_UP), TriedAll(w.disk, FlakyWrites(c, w.mem, w.disk, op, ALL_UP), ALL_UP))
  }

  ghost predicate IsSideCall(c: Config, d: Disk, call: Write) {
    (call.AcquireLease? && call.attempt in d.tasks) || call.RenewLease? || call == PublishEvent(RunResumed)
    || (call.Claim? && forall a :: call.key != LedgerKey(c.run, a))
  }

  /** Run r's loop after it has asked for what it asks first. */
  ghost function Begun(p: Plant, site: Site, r: string, first: Option<SlotCall>, now: int, w: World, owed: seq<SlotCall>): Plant
    requires r in p.lanes
  {
    match first
    case Some(take) =>
      Plant(GateAfter(p.gate, site, take, now),
            p.lanes[r := Lane(true, w, SlotsAfter(p.gate, site, p.lanes[r].slots, take, now), owed)])
    case None => p.(lanes := p.lanes[r := Lane(true, w, p.lanes[r].slots, owed)])
  }

  ghost predicate Moves(sites: Sites, p: Plant, l: PlantLabel, p': Plant) {
    match l
    case Perform(r, op, now) =>
      r in sites && r in p.lanes && p.lanes[r].up && p.lanes[r].owed == [] &&
      var site, lane := sites[r], p.lanes[r];
      var c, w := site.c, lane.world;
      var calls := FairSlotCalls(c, w.mem, w.disk, op);
      && Enabled(c, w.mem, w.disk, op)
      && (op.Dispatch? && c.gated ==> Granted(p.gate, site.org, site.klass(op.node), now))
      && p' == Begun(p, site, r, First(calls), now, Performed(c, w, op), Later(calls))
    case Pay(r) =>
      r in sites && r in p.lanes && p.lanes[r].up && p.lanes[r].owed != [] &&
      var lane := p.lanes[r];
      var call := lane.owed[0];
      p' == Plant(GateAfter(p.gate, sites[r], call, 0),
                  p.lanes[r := lane.(slots := SlotsAfter(p.gate, sites[r], lane.slots, call, 0), owed := lane.owed[1..])])
    case Refuse(r, n, now) =>
      r in sites && r in p.lanes && p.lanes[r].up && p.lanes[r].owed == [] &&
      var site, m := sites[r], p.lanes[r].world.mem.model;
      && site.c.gated && m.run.RunRunning? && n in m.nodes && m.nodes[n].Ready?
      && !Granted(p.gate, site.org, site.klass(n), now)
      && p' == p.(gate := GateAfter(p.gate, site, Take(n), now))
    case Aside(r, call) =>
      r in sites && r in p.lanes && IsSideCall(sites[r].c, p.lanes[r].world.disk, call) &&
      var lane := p.lanes[r];
      p' == p.(lanes := p.lanes[r := lane.(world := lane.world.(disk := Applied(lane.world.disk, call)))])
    case Begin(r, w) =>
      r in sites && r !in p.lanes && Runs.Fresh(sites[r].c, w) && p' == p.(lanes := p.lanes[r := Lane(true, w, {}, [])])
    case Abort(r, k, ledger) =>
      r in sites && r !in p.lanes && 0 < k <= |sites[r].order| && OwnsNoKey(sites[r].c, ledger) &&
      var w := World(FreshMemory(sites[r].c), Created(sites[r].order, k, ledger, false));
      p' == p.(lanes := p.lanes[r := Lane(false, w, {}, [])])
    case Fall =>
      && p'.gate == NewGate(p.gate.cfg) && p'.lanes.Keys == p.lanes.Keys
      && forall r :: r in p.lanes ==> r in sites && Fell(sites[r].c, p.lanes[r], p'.lanes[r])
    case Resume(r) =>
      r in sites && r in p.lanes && !p.lanes[r].up && !Finished(p.lanes[r].world.disk.run) &&
      var c, d := sites[r].c, p.lanes[r].world.disk;
      p' == p.(lanes := p.lanes[r := Lane(true, World(Recovered(c, d), d), {}, RetakeAll(Ascending(Recovered(c, d).held)))])
  }

  ghost predicate IsPlantRun(sites: Sites, ps: seq<Plant>, ls: seq<PlantLabel>) {
    && |ps| == |ls| + 1 && ps[0] == Plant(NewGate(ps[0].gate.cfg), map[])
    && forall i {:trigger ls[i]} :: 0 <= i < |ls| ==> Moves(sites, ps[i], ls[i], ps[i + 1])
  }

  // ------------------------------------------------------------------------
  // What the loops hold
  // ------------------------------------------------------------------------

  ghost function HeldIn(lane: Lane): set<NodeId> {
    if lane.up then lane.slots else {}
  }

  /** The slots that all loops together hold. */
  ghost function Holdings(sites: Sites, lanes: map<string, Lane>): map<Holder, Slot> {
    map r, n | r in lanes && r in sites && lanes[r].up && n in lanes[r].slots :: Holder(r, n) := SlotOf(sites[r], n)
  }

  ghost function HallOf(sites: Sites, p: Plant): Hall {
    Hall(p.gate, Holdings(sites, p.lanes))
  }

  /** The call fits what the loop holds: it asks and takes again only for a node
    that holds no slot, and gives back only what it holds. */
  ghost predicate Fitting(slots: set<NodeId>, call: SlotCall) {
    call.node in slots <==> call.Give?
  }

  /** The owed calls fit, one after the other, and lead from slots to held. */
  ghost predicate Settles(slots: set<NodeId>, owed: seq<SlotCall>, held: set<NodeId>)
    decreases |owed|
  {
    if owed == [] then slots == held
    else
      && !owed[0].Take? && Fitting(slots, owed[0])
      && Settles(if owed[0].Give? then slots - {owed[0].node} else slots + {owed[0].node}, owed[1..], held)
  }

  lemma HoldingsAt(sites: Sites, lanes: map<string, Lane>, h: Holder)
    ensures h in Holdings(sites, lanes) <==> h.run in lanes && h.run in sites && h.node in HeldIn(lanes[h.run])
    ensures h in Holdings(sites, lanes) ==> Holdings(sites, lanes)[h] == SlotOf(sites[h.run], h.node)
  {
    assert h == Holder(h.run, h.node);
  }

  lemma SameHoldings(sites: Sites, lanes: map<string, Lane>, r: string, lane: Lane)
    requires r in sites && HeldIn(lane) == if r in lanes then HeldIn(lanes[r]) else {}
    ensures Holdings(sites, lanes[r := lane]) == Holdings(sites, lanes)
  {
    var left, right := Holdings(sites, lanes[r := lane]), Holdings(sites, lanes);
    forall h ensures (h in left <==> h in right) && (h in left ==> left[h] == right[h]) {
      HoldingsAt(sites, lanes, h);
      HoldingsAt(sites, lanes[r := lane], h);
      hide Holdings;
    }
  }

  /** A fitting call of one loop is allowed by the gate, and leads to what the
    loops together hold then. */
  lemma OneCall(sites: Sites, p: Plant, r: string, lane: Lane, call: SlotCall, now: int)
    requires r in sites && r in p.lanes && p.lanes[r].up && lane.up && Fitting(p.lanes[r].slots, call)
    requires lane.slots == SlotsAfter(p.gate, sites[r], p.lanes[r].slots, call, now)
    ensures var h := HallOf(sites, p);
      && Allowed(h, AsCall(sites[r], r, call, now))
      && QuotaLaws.After(h, AsCall(sites[r], r, call, now)) ==
           HallOf(sites, Plant(GateAfter(p.gate, sites[r], call, now), p.lanes[r := lane]))
  {
    hide Granted, Acquire, Holdings;
    var h, who := HallOf(sites, p), Holder(r, call.node);
    HoldingsAt(sites, p.lanes, who);
    var after := QuotaLaws.After(h, AsCall(sites[r], r, call, now)).holds;
    var right := Holdings(sites, p.lanes[r := lane]);
    forall x ensures (x in after <==> x in right) && (x in after ==> after[x] == right[x]) {
      HoldingsAt(sites, p.lanes, x);
      HoldingsAt(sites, p.lanes[r := lane], x);
      assert x == Holder(x.run, x.node);
    }
    assert after == right;
  }

  // ------------------------------------------------------------------------
  // What an operation owes
  // ------------------------------------------------------------------------

  lemma {:induction false} GivesSettle(slots: set<NodeId>, q: seq<NodeId>)
    requires Distinct(q) && forall n :: n in q ==> n in slots
    ensures Settles(slots, GiveAll(q), slots - Elements(q))
    decreases |q|
  {
    if q != [] {
      var rest := q[1..];
      RestOf(q);
      GivesSettle(slots - {q[0]}, rest);
      assert GiveAll(q)[1..] == GiveAll(rest);
      assert slots - {q[0]} - Elements(rest) == slots - Elements(q);
    } else {
      assert slots - Elements(q) == slots;
    }
  }

  lemma RestOf(q: seq<NodeId>)
    requires Distinct(q) && q != []
    ensures Distinct(q[1..]) && q[0] !in q[1..] && Elements(q) == Elements(q[1..]) + {q[0]}
    ensures forall n :: n in q[1..] ==> n in q
  {
    assert q == [q[0]] + q[1..];
  }

  lemma {:induction false} RetakesSettle(slots: set<NodeId>, q: seq<NodeId>)
    requires Distinct(q) && forall n :: n in q ==> n !in slots
    ensures Settles(slots, RetakeAll(q), slots + Elements(q))
    decreases |q|
  {
    if q != [] {
      var rest := q[1..];
      RestOf(q);
      RetakesSettle(slots + {q[0]}, rest);
      assert RetakeAll(q)[1..] == RetakeAll(rest);
      assert slots + {q[0]} + Elements(rest) == slots + Elements(q);
    } else {
      assert slots + Elements(q) == slots;
    }
  }

  lemma AscendingListsSet(s: set<NodeId>)
    ensures Distinct(Ascending(s)) && Elements(Ascending(s)) == s
  {
    OrdersAreStrict();
    SortedIsDistinct(Less, Ascending(s));
  }

  lemma SettlesNothing(slots: set<NodeId>)
    ensures Settles(slots, [], slots)
  {
  }

  lemma SettlesOne(slots: set<NodeId>, n: NodeId)
    requires n in slots
    ensures Settles(slots, [Give(n)], slots - {n})
  {
    assert [Give(n)][1..] == [];
  }

  /** What a dispatch asks for first, and what it owes then. */
  lemma DispatchOwes(g: Gate, site: Site, mem: Memory, d: Disk, op: Op, now: int)
    requires op.Dispatch? && op.node !in mem.held
    requires site.c.gated ==> Granted(g, site.org, site.klass(op.node), now)
    ensures var calls, held := FairSlotCalls(site.c, mem, d, op), FlakyNext(site.c, mem, d, op, ALL_UP).held;
      match First(calls)
      case Some(take) => Fitting(mem.held, take) && Settles(SlotsAfter(g, site, mem.held, take, now), Later(calls), held)
      case None => Settles(mem.held, Later(calls), held)
  {
    hide Granted, Break, Started, Settles;
    var n := op.node;
    SettlesNothing(mem.held);
    SettlesNothing(mem.held + {n});
    SettlesOne(mem.held + {n}, n);
    assert mem.held + {n} - {n} == mem.held && mem.held - {n} == mem.held;
    assert [Take(n)][1..] == [] && ([Take(n)] + [Give(n)])[1..] == [Give(n)];
    if !site.c.gated { assert FairSlotCalls(site.c, mem, d, op) == []; }
  }

  lemma JudgedHeld(c: Config, mem: Memory, a: Attempt, reply: Reply)
    ensures Release(c, Judged(c, mem, a, reply), a.node).held == mem.held - {a.node}
  {
    hide Break, Succeed, Move;
  }

  lemma ReleasedHeld(c: Config, mem: Memory, n: NodeId)
    ensures forall model :: Release(c, mem.(model := model), n).held == mem.held - {n}
  {
  }

  /** Every other operation owes what leads from the slots held before to those
    held after. */
  lemma OthersOwe(c: Config, mem: Memory, d: Disk, op: Op)
    requires !op.Dispatch? && Enabled(c, mem, d, op)
    ensures var calls := FairSlotCalls(c, mem, d, op);
      First(calls).None? && Settles(mem.held, calls, FlakyNext(c, mem, d, op, ALL_UP).held)
  {
    hide Settles, Considered, Holds, Judged, Release, Move, CancelAll, Verdict, Hear, Told, ListsCanceled, Fated, Applies;
    SettlesNothing(mem.held);
    match op {
      case Deliver(a, reply, xs) =>
        if Considered(mem, a) && Hear(c, d, a, reply, xs, ALL_UP).verdict.Some? {
          JudgedHeld(c, mem, a, Hear(c, d, a, reply, xs, ALL_UP).verdict.value);
          if a.node in mem.held { SettlesOne(mem.held, a.node); } else { assert mem.held - {a.node} == mem.held; }
        } else {
          IgnoredHeld(c, mem, d, op);
        }
      case Reap(a, worker) =>
        ReapTold(c, mem, d, a, worker);
        if Holds(mem, a.node) {
          ReleasedHeld(c, mem, a.node);
          if a.node in mem.held { SettlesOne(mem.held, a.node); } else { assert mem.held - {a.node} == mem.held; }
        }
      case Cancel(_, _) =>
        AscendingListsSet(mem.held);
        GivesSettle(mem.held, Ascending(mem.held));
        assert mem.held - mem.held == {};
        GivesNoTake(Ascending(mem.held));
      case _ =>
    }
  }

  lemma IgnoredHeld(c: Config, mem: Memory, d: Disk, op: Op)
    requires op.Deliver? && !(Considered(mem, op.attempt) && Hear(c, d, op.attempt, op.reply, op.canceled, ALL_UP).verdict.Some?)
    ensures FlakyNext(c, mem, d, op, ALL_UP).held == mem.held
  {
    hide Hear, Judged, Release;
  }

  lemma ReapTold(c: Config, mem: Memory, d: Disk, a: Attempt, worker: string)
    requires Enabled(c, mem, d, Reap(a, worker))
    ensures FlakyNext(c, mem, d, Reap(a, worker), ALL_UP) == Next(c, mem, d, Reap(a, worker))
  {
  }

  lemma GivesNoTake(q: seq<NodeId>)
    ensures First(GiveAll(q)).None?
  {
  }

  // ------------------------------------------------------------------------
  // The invariant
  // ------------------------------------------------------------------------

  /** Where all rows were created the loop is as safe as the protocol; where not,
    its slots and rows are still in order. */
  ghost predicate LaneGood(c: Config, lane: Lane) {
    && DiskTidy(c, lane.world.disk)
    && (lane.up ==> Tidy(c, lane.world) && Settles(lane.slots, lane.owed, lane.world.mem.held))
    && (lane.world.disk.status.Keys == c.g.nodes ==>
          Safe(c, lane.world.disk) && (lane.up ==> Good(c, lane.world)))
  }

  ghost predicate Steady(sites: Sites, p: Plant) {
    && (forall r {:trigger r in p.lanes} :: r in p.lanes ==> r in sites && LaneGood(sites[r].c, p.lanes[r]))
    && Conserves(HallOf(sites, p))
  }

  ghost predicate Planned(sites: Sites) {
    forall r {:trigger r in sites} :: r in sites ==> Closed(sites[r].c.g) && Ordered(sites[r].c, sites[r].order)
  }

  lemma LaneParts(c: Config, lane: Lane)
    requires LaneGood(c, lane)
    ensures DiskTidy(c, lane.world.disk)
    ensures lane.up ==> Tidy(c, lane.world) && Settles(lane.slots, lane.owed, lane.world.mem.held)
    ensures lane.world.disk.status.Keys == c.g.nodes ==> Safe(c, lane.world.disk) && (lane.up ==> Good(c, lane.world))
  {
  }

  lemma SettledHolds(slots: set<NodeId>, held: set<NodeId>)
    requires Settles(slots, [], held)
    ensures slots == held
  {
  }

  /** A node that could be dispatched holds no slot. */
  lemma ReadyHoldsNone(c: Config, mem: Memory, n: NodeId)
    requires MemoryTidy(c, mem) && mem.model.run.RunRunning? && n in mem.model.nodes && mem.model.nodes[n].Ready?
    ensures n !in mem.held
  {
    hide StateMachines.Sound;
  }

  lemma DispatchedIsReady(c: Config, mem: Memory, d: Disk, op: Op)
    requires Enabled(c, mem, d, op)
    ensures mem.model.run.RunRunning?
    ensures op.Dispatch? ==> op.node in mem.model.nodes && mem.model.nodes[op.node].Ready?
  {
  }

  lemma TidyMemory(c: Config, w: World)
    requires Tidy(c, w)
    ensures MemoryTidy(c, w.mem)
  {
  }

  /** What an operation asks for first, and what it owes then. */
  lemma OpOwes(g: Gate, site: Site, w: World, op: Op, now: int)
    requires Tidy(site.c, w) && Enabled(site.c, w.mem, w.disk, op)
    requires op.Dispatch? && site.c.gated ==> Granted(g, site.org, site.klass(op.node), now)
    ensures var calls, held := FairSlotCalls(site.c, w.mem, w.disk, op), FlakyNext(site.c, w.mem, w.disk, op, ALL_UP).held;
      match First(calls)
      case Some(take) => Fitting(w.mem.held, take) && Settles(SlotsAfter(g, site, w.mem.held, take, now), Later(calls), held)
      case None => Settles(w.mem.held, Later(calls), held)
  {
    hide Granted, Tidy, MemoryTidy, Enabled, FairSlotCalls, FlakyNext, Settles, SlotsAfter, Fitting;
    if op.Dispatch? {
      TidyMemory(site.c, w);
      DispatchedIsReady(site.c, w.mem, w.disk, op);
      ReadyHoldsNone(site.c, w.mem, op.node);
      DispatchOwes(g, site, w.mem, w.disk, op, now);
    } else {
      OthersOwe(site.c, w.mem, w.disk, op);
    }
  }

  /** The one call that a move makes to the gate, if any. */
  ghost function CallMade(sites: Sites, p: Plant, l: PlantLabel): Option<Call>
    requires l.Perform? || l.Pay? || l.Refuse? ==> l.r in sites && l.r in p.lanes
  {
    match l
    case Perform(r, op, now) =>
      var w := p.lanes[r].world;
      (match First(FairSlotCalls(sites[r].c, w.mem, w.disk, op))
       case Some(take) => Some(AsCall(sites[r], r, take, now))
       case None => None)
    case Pay(r) => if p.lanes[r].owed == [] then None else Some(AsCall(sites[r], r, p.lanes[r].owed[0], 0))
    case Refuse(r, n, now) => Some(AsCall(sites[r], r, Take(n), now))
    case _ => None
  }

  /** Whatever a loop does, the gate allows its call, whichever calls of other
    loops came before: it asks and takes again only for nodes that hold no slot,
    and gives back only what it holds. */
  lemma MoveIsAllowed(sites: Sites, p: Plant, l: PlantLabel, p': Plant)
    requires Steady(sites, p) && Moves(sites, p, l, p') && !l.Fall?
    ensures l.Perform? || l.Pay? || l.Refuse? ==> l.r in sites && l.r in p.lanes
    ensures match CallMade(sites, p, l)
            case Some(call) => Allowed(HallOf(sites, p), call) && HallOf(sites, p') == QuotaLaws.After(HallOf(sites, p), call)
            case None => HallOf(sites, p') == HallOf(sites, p)
  {
    hide Enabled, FlakyWrites, FlakyNext, TriedAll, Granted, LaneGood, Conserves, Recovered, FairSlotCalls, GateAfter, Applied,
      LedgerKey, Holdings, Runs.Fresh, Cut, Settles, SlotsAfter, Fitting, Allowed, QuotaLaws.After, Tidy, Created, FreshMemory,
      IsSideCall, OwnsNoKey;
    match l {
      case Perform(r, op, now) =>
        var lane := p.lanes[r];
        assert r in p.lanes;
        LaneParts(sites[r].c, lane);
        SettledHolds(lane.slots, lane.world.mem.held);
        OpOwes(p.gate, sites[r], lane.world, op, now);
        match First(FairSlotCalls(sites[r].c, lane.world.mem, lane.world.disk, op)) {
          case Some(take) => OneCall(sites, p, r, p'.lanes[r], take, now);
          case None => SameHoldings(sites, p.lanes, r, p'.lanes[r]);
        }
      case Pay(r) =>
        var lane := p.lanes[r];
        assert r in p.lanes;
        LaneParts(sites[r].c, lane);
        OwedFits(lane.slots, lane.owed, lane.world.mem.held);
        OneCall(sites, p, r, p'.lanes[r], lane.owed[0], 0);
      case Refuse(r, n, now) =>
        var lane := p.lanes[r];
        assert r in p.lanes;
        LaneParts(sites[r].c, lane);
        SettledHolds(lane.slots, lane.world.mem.held);
        TidyMemory(sites[r].c, lane.world);
        ReadyHoldsNone(sites[r].c, lane.world.mem, n);
        RefusedFits(p.gate, sites[r], lane.slots, n, now);
        OneCall(sites, p, r, lane, Take(n), now);
        assert p.lanes[r := lane] == p.lanes;
      case Aside(r, call) => SameHoldings(sites, p.lanes, r, p'.lanes[r]);
      case Begin(r, w) => SameHoldings(sites, p.lanes, r, p'.lanes[r]);
      case Abort(r, _, _) => SameHoldings(sites, p.lanes, r, p'.lanes[r]);
      case Resume(r) => SameHoldings(sites, p.lanes, r, p'.lanes[r]);
    }
  }

  lemma OwedFits(slots: set<NodeId>, owed: seq<SlotCall>, held: set<NodeId>)
    requires Settles(slots, owed, held) && owed != []
    ensures Fitting(slots, owed[0]) && !owed[0].Take?
    ensures forall g, site, now :: Settles(SlotsAfter(g, site, slots, owed[0], now), owed[1..], held)
  {
    hide Granted;
  }

  lemma RefusedFits(g: Gate, site: Site, slots: set<NodeId>, n: NodeId, now: int)
    requires n !in slots && !Granted(g, site.org, site.klass(n), now)
    ensures Fitting(slots, Take(n)) && SlotsAfter(g, site, slots, Take(n), now) == slots
  {
    hide Granted;
  }

  // ------------------------------------------------------------------------
  // Every move keeps the lanes good
  // ------------------------------------------------------------------------

  lemma {:induction false} KeysOfAll(d: Disk, ws: seq<Write>)
    ensures ApplyAll(d, ws).status.Keys == d.status.Keys
    decreases |ws|
  {
    hide Applied;
    if ws != [] {
      RowsStay(d, ws[0]);
      KeysOfAll(Applied(d, ws[0]), ws[1..]);
    }
  }

  lemma PerformedLane(g: Gate, site: Site, lane: Lane, op: Op, now: int)
    requires Closed(site.c.g) && LaneGood(site.c, lane) && lane.up && lane.owed == []
    requires Enabled(site.c, lane.world.mem, lane.world.disk, op)
    requires op.Dispatch? && site.c.gated ==> Granted(g, site.org, site.klass(op.node), now)
    ensures var c, w := site.c, lane.world;
      var calls, w' := FairSlotCalls(c, w.mem, w.disk, op), Performed(c, w, op);
      match First(calls)
      case Some(take) => LaneGood(c, Lane(true, w', SlotsAfter(g, site, lane.slots, take, now), Later(calls)))
      case None => LaneGood(c, Lane(true, w', lane.slots, Later(calls)))
  {
    hide Granted, DiskTidy, Safe, Good, Enabled, FairSlotCalls, FlakyNext, FlakyWrites, TriedAll, Settles, SlotsAfter, Fitting, Tidy;
    var c, w := site.c, lane.world;
    SettledHolds(lane.slots, w.mem.held);
    OpOwes(g, site, w, op, now);
    GoKeepsTidy(c, w, op);
    TidyDisk(c, Performed(c, w, op));
    AllUpApplies(w.disk, FlakyWrites(c, w.mem, w.disk, op, ALL_UP));
    KeysOfAll(w.disk, FlakyWrites(c, w.mem, w.disk, op, ALL_UP));
    if w.disk.status.Keys == c.g.nodes {
      FairKeepsGood(c, w, Go(op, ALL_UP), Performed(c, w, op));
      GoodIsSafe(c, Performed(c, w, op));
    }
  }

  lemma TidyDisk(c: Config, w: World)
    requires Tidy(c, w)
    ensures DiskTidy(c, w.disk)
  {
  }

  lemma GoodIsSafe(c: Config, w: World)
    requires Good(c, w)
    ensures Safe(c, w.disk)
  {
  }

  lemma AsideLane(c: Config, lane: Lane, call: Write)
    requires Closed(c.g) && LaneGood(c, lane) && IsSideCall(c, lane.world.disk, call)
    ensures LaneGood(c, lane.(world := lane.world.(disk := Applied(lane.world.disk, call))))
  {
    hide DiskTidy, Safe, Good, Settles, Tidy, LedgerKey, Applied;
    var w, w' := lane.world, lane.world.(disk := Applied(lane.world.disk, call));
    CallKeepsOrder(c, w.disk, call);
    RowsStay(w.disk, call);
    if lane.up { SideKeepsTidy(c, w, call); }
    if w.disk.status.Keys == c.g.nodes {
      SideKeepsSafe(c, w.disk, call);
      if lane.up { FairKeepsGood(c, w, Side(call), w'); }
    }
  }

  lemma SideKeepsSafe(c: Config, d: Disk, call: Write)
    requires Safe(c, d) && IsSideCall(c, d, call)
    ensures Safe(c, Applied(d, call))
  {
    hide Safe, LedgerKey, Applied;
    GuardedKeepsSafe(c, d, call);
  }

  lemma BegunLane(c: Config, w: World)
    requires Closed(c.g) && Runs.Fresh(c, w)
    ensures LaneGood(c, Lane(true, w, {}, []))
  {
    hide DiskTidy, Tidy, Good, Safe, Runs.Fresh;
    FreshTidy(c, w);
    TidyDisk(c, w);
    FreshHeld(c, w);
    SettlesNothing({});
    InitialIsGood(c, w);
    GoodIsSafe(c, w);
  }

  lemma FreshHeld(c: Config, w: World)
    requires Runs.Fresh(c, w)
    ensures w.mem.held == {}
  {
    hide StartFrom;
  }

  lemma AbortedLane(c: Config, order: seq<NodeId>, k: nat, ledger: set<string>, mem: Memory)
    requires Ordered(c, order) && k <= |order| && OwnsNoKey(c, ledger)
    ensures LaneGood(c, Lane(false, World(mem, Created(order, k, ledger, false)), {}, []))
  {
    hide DiskTidy, Tidy, Good, Safe, OwnsNoKey, Created, FreshDisk, Ordered;
    CreatedTidy(c, order, k, ledger, false);
    RowsOfCreated(c, order, k, ledger, false);
    if k == |order| {
      AllCreated(c, order, ledger, false);
      FreshIsSafe(c, ledger, false);
    }
  }

  lemma FallenLane(c: Config, lane: Lane, lane': Lane)
    requires Closed(c.g) && LaneGood(c, lane) && Fell(c, lane, lane')
    ensures LaneGood(c, lane')
  {
    hide DiskTidy, Safe, Good, Enabled, FlakyWrites, ApplyAll, Tidy, Settles;
    var w, d := lane.world, lane'.world.disk;
    if lane.up && d != w.disk {
      var op, calls: nat :|
        Enabled(c, w.mem, w.disk, op) && calls <= |FlakyWrites(c, w.mem, w.disk, op, ALL_UP)|
        && d == ApplyAll(w.disk, FlakyWrites(c, w.mem, w.disk, op, ALL_UP)[..calls]);
      CutKeepsOrder(c, w, op, calls);
      KeysOfAll(w.disk, FlakyWrites(c, w.mem, w.disk, op, ALL_UP)[..calls]);
      if d.status.Keys == c.g.nodes { CutKeepsSafe(c, w, op, calls); }
    }
  }

  lemma CutKeepsSafe(c: Config, w: World, op: Op, calls: nat)
    requires Closed(c.g) && Good(c, w) && Enabled(c, w.mem, w.disk, op) && calls <= |FlakyWrites(c, w.mem, w.disk, op, ALL_UP)|
    ensures Safe(c, ApplyAll(w.disk, FlakyWrites(c, w.mem, w.disk, op, ALL_UP)[..calls]))
  {
    hide Safe, Mirrors, Enabled, FlakyWrites, Writes, ApplyAll;
    EnabledRuns(c, w, op);
    FairIsOrdinary(c, w.mem, w.disk, op);
    CrashKeepsGood(c, w, op, calls);
  }

  lemma ResumedLane(c: Config, d: Disk)
    requires LaneGood(c, Lane(false, World(FreshMemory(c), d), {}, [])) && !Finished(d.run)
    ensures var mem := Recovered(c, d);
      LaneGood(c, Lane(true, World(mem, d), {}, RetakeAll(Ascending(mem.held))))
  {
    hide DiskTidy, Safe, Mirrors, Recovered, Tidy, Settles, FreshMemory;
    var held := Recovered(c, d).held;
    RecoveredTidy(c, d);
    AscendingListsSet(held);
    RetakesSettle({}, Ascending(held));
    assert {} + held == held;
    if d.status.Keys == c.g.nodes {
      RecoveredMirrors(c, d);
      RecoveredRuns(c, d);
    }
  }

  lemma DownLane(c: Config, lane: Lane, mem: Memory)
    requires LaneGood(c, lane)
    ensures LaneGood(c, Lane(false, World(mem, lane.world.disk), {}, []))
  {
    hide DiskTidy, Safe, Good, Tidy, Settles;
  }

  lemma LanesStay(sites: Sites, p: Plant, l: PlantLabel, p': Plant, r: string)
    requires Planned(sites) && Steady(sites, p) && Moves(sites, p, l, p') && r in p'.lanes
    ensures r in sites && LaneGood(sites[r].c, p'.lanes[r])
  {
    hide Enabled, Granted, LaneGood, Conserves, Recovered, FairSlotCalls, GateAfter, Holdings, Runs.Fresh, Fell, Settles, SlotsAfter,
      Created, FreshMemory, IsSideCall, OwnsNoKey, Performed, Applied, Ordered;
    assert r in p.lanes ==> LaneGood(sites[r].c, p.lanes[r]);
    match l {
      case Perform(q, op, now) => if q == r { PerformedLane(p.gate, sites[r], p.lanes[r], op, now); }
      case Pay(q) => if q == r { PaidLane(p.gate, sites[r], p.lanes[r]); }
      case Refuse(_, _, _) =>
      case Aside(q, call) => if q == r { AsideLane(sites[r].c, p.lanes[r], call); }
      case Begin(q, w) => if q == r { BegunLane(sites[r].c, w); }
      case Abort(q, k, ledger) => if q == r { AbortedLane(sites[r].c, sites[r].order, k, ledger, FreshMemory(sites[r].c)); }
      case Fall => FallenLane(sites[r].c, p.lanes[r], p'.lanes[r]);
      case Resume(q) =>
        if q == r {
          DownLane(sites[r].c, p.lanes[r], FreshMemory(sites[r].c));
          ResumedLane(sites[r].c, p.lanes[r].world.disk);
        }
    }
  }

  lemma PaidLane(g: Gate, site: Site, lane: Lane)
    requires LaneGood(site.c, lane) && lane.up && lane.owed != []
    ensures LaneGood(site.c, lane.(slots := SlotsAfter(g, site, lane.slots, lane.owed[0], 0), owed := lane.owed[1..]))
  {
    hide DiskTidy, Safe, Good, Tidy, Settles, SlotsAfter;
    OwedFits(lane.slots, lane.owed, lane.world.mem.held);
  }

  /** After the process has died, the new gate and the loops agree again: nothing
    is counted and nothing is held. */
  lemma FallenHall(sites: Sites, p: Plant, p': Plant)
    requires Moves(sites, p, Fall, p')
    ensures HallOf(sites, p') == Hall(NewGate(p.gate.cfg), map[]) && Conserves(HallOf(sites, p'))
  {
    hide Cut;
    forall h ensures h !in Holdings(sites, p'.lanes) {
      HoldingsAt(sites, p'.lanes, h);
      if h.run in p'.lanes { assert h.run in p.lanes && Fell(sites[h.run].c, p.lanes[h.run], p'.lanes[h.run]); }
    }
    assert Holdings(sites, p'.lanes) == map[];
    NothingCounted(p.gate.cfg);
  }

  lemma NothingCounted(cfg: QuotaConfig)
    ensures Conserves(Hall(NewGate(cfg), map[]))
  {
    var h := Hall(NewGate(cfg), map[]);
    assert forall org :: HeldBy(h.holds, org) == {};
    assert forall k :: HeldOf(h.holds, k) == {};
  }

  lemma MoveKeepsSteady(sites: Sites, p: Plant, l: PlantLabel, p': Plant)
    requires Planned(sites) && Steady(sites, p) && Moves(sites, p, l, p')
    ensures Steady(sites, p')
  {
    hide Moves, LaneGood, Conserves, Holdings, Allowed, QuotaLaws.After, Planned, CallMade;
    forall r {:trigger r in p'.lanes} | r in p'.lanes ensures r in sites && LaneGood(sites[r].c, p'.lanes[r]) {
      LanesStay(sites, p, l, p', r);
    }
    if l.Fall? {
      FallenHall(sites, p, p');
    } else {
      MoveIsAllowed(sites, p, l, p');
      match CallMade(sites, p, l) {
        case Some(call) => StepConserves(HallOf(sites, p), call);
        case None =>
      }
    }
  }

  lemma {:induction false} AlwaysSteady(sites: Sites, ps: seq<Plant>, ls: seq<PlantLabel>, i: nat)
    requires Planned(sites) && IsPlantRun(sites, ps, ls) && i < |ps|
    ensures Steady(sites, ps[i])
  {
    hide Steady, Moves, Planned;
    if i == 0 {
      StartsSteady(sites, ps[0]);
    } else {
      AlwaysSteady(sites, ps, ls, i - 1);
      var l := ls[i - 1];
      MoveKeepsSteady(sites, ps[i - 1], l, ps[i]);
    }
  }

  lemma StartsSteady(sites: Sites, p: Plant)
    requires p == Plant(NewGate(p.gate.cfg), map[])
    ensures Steady(sites, p)
  {
    hide Conserves, LaneGood, Holdings;
    forall h ensures h !in Holdings(sites, p.lanes) { HoldingsAt(sites, p.lanes, h); }
    NothingCounted(p.gate.cfg);
    assert HallOf(sites, p) == Hall(NewGate(p.gate.cfg), map[]);
  }

  // ------------------------------------------------------------------------
  // Histories
  // ------------------------------------------------------------------------

  /** Some allowed history of calls leads from h to h'. */
  ghost predicate Leads(h: Hall, h': Hall) {
    exists hs, cs :: IsHistory(hs, cs) && hs[0] == h && hs[|cs|] == h'
  }

  lemma LeadsNowhere(h: Hall)
    ensures Leads(h, h)
  {
    var cs: seq<Call> := [];
    assert IsHistory([h], cs);
  }

  lemma LeadsOn(h: Hall, h1: Hall, call: Call)
    requires Leads(h, h1) && Allowed(h1, call)
    ensures Leads(h, QuotaLaws.After(h1, call))
  {
    hide Allowed, QuotaLaws.After;
    var hs, cs :| IsHistory(hs, cs) && hs[0] == h && hs[|cs|] == h1;
    var hs', cs' := hs + [QuotaLaws.After(h1, call)], cs + [call];
    forall i {:trigger cs'[i]} | 0 <= i < |cs'| ensures Allowed(hs'[i], cs'[i]) && hs'[i + 1] == QuotaLaws.After(hs'[i], cs'[i]) {
      if i < |cs| { assert cs'[i] == cs[i]; }
    }
    assert IsHistory(hs', cs') && hs'[0] == h;
  }

  /** As long as the process lives, the calls of all loops, interleaved as they
    come, are an allowed history of the gate over the slots they hold. */
  lemma {:induction false} CallsAreHistory(sites: Sites, ps: seq<Plant>, ls: seq<PlantLabel>, i: nat, j: nat)
    requires Planned(sites) && IsPlantRun(sites, ps, ls) && i <= j < |ps| && j <= |ls|
    requires forall k {:trigger ls[k]} :: i <= k < j ==> !ls[k].Fall?
    ensures Leads(HallOf(sites, ps[i]), HallOf(sites, ps[j]))
    decreases j
  {
    hide Steady, Moves, Planned, Leads, HallOf, Allowed, QuotaLaws.After, CallMade;
    if i == j {
      LeadsNowhere(HallOf(sites, ps[i]));
    } else {
      CallsAreHistory(sites, ps, ls, i, j - 1);
      AlwaysSteady(sites, ps, ls, j - 1);
      var l := ls[j - 1];
      MoveIsAllowed(sites, ps[j - 1], l, ps[j]);
      match CallMade(sites, ps[j - 1], l) {
        case Some(call) => LeadsOn(HallOf(sites, ps[i]), HallOf(sites, ps[j - 1]), call);
        case None =>
      }
    }
  }

  // ------------------------------------------------------------------------
  // The totals
  // ------------------------------------------------------------------------

  /** The nodes for which the loops hold slots. */
  ghost function InHand(sites: Sites, p: Plant): set<Holder> {
    Holdings(sites, p.lanes).Keys
  }

  ghost function OfOrg(sites: Sites, hs: set<Holder>, org: Org): set<Holder> {
    set h | h in hs && h.run in sites && sites[h.run].org == org
  }

  ghost function OfClass(sites: Sites, hs: set<Holder>, k: ResourceClass): set<Holder> {
    set h | h in hs && h.run in sites && sites[h.run].klass(h.node) == k
  }

  /** In every reachable state, whatever was refused, reaped, canceled, crashed,
    cut short or resumed, and between any two calls of any loops: the gate counts
    for an organization and for a class the slots that the loops hold. */
  lemma GateCountsSlots(sites: Sites, ps: seq<Plant>, ls: seq<PlantLabel>, i: nat)
    requires Planned(sites) && IsPlantRun(sites, ps, ls) && i < |ps|
    ensures var p := ps[i];
      && (forall org :: Count(p.gate.tasks, org) == |OfOrg(sites, InHand(sites, p), org)|)
      && (forall k :: Count(p.gate.classes, k) == |OfClass(sites, InHand(sites, p), k)|)
  {
    hide IsPlantRun, Planned;
    AlwaysSteady(sites, ps, ls, i);
    SteadyCounts(sites, ps[i]);
  }

  lemma SteadyCounts(sites: Sites, p: Plant)
    requires Steady(sites, p)
    ensures forall org :: Count(p.gate.tasks, org) == |OfOrg(sites, InHand(sites, p), org)|
    ensures forall k :: Count(p.gate.classes, k) == |OfClass(sites, InHand(sites, p), k)|
  {
    hide LaneGood;
    var holds, hs := Holdings(sites, p.lanes), InHand(sites, p);
    forall h | h in holds ensures h.run in sites && holds[h] == SlotOf(sites[h.run], h.node) { HoldingsAt(sites, p.lanes, h); }
    assert Conserves(Hall(p.gate, holds));
    hide Holdings, Steady;
    forall org ensures Count(p.gate.tasks, org) == |OfOrg(sites, hs, org)| { assert HeldBy(holds, org) == OfOrg(sites, hs, org); }
    forall k ensures Count(p.gate.classes, k) == |OfClass(sites, hs, k)| { assert HeldOf(holds, k) == OfClass(sites, hs, k); }
  }

  /** The loop of run r is going, and counts against the gate. */
  ghost predicate Counted(sites: Sites, p: Plant, r: string) {
    r in sites && r in p.lanes && p.lanes[r].up && Alive(p.lanes[r].world) && sites[r].c.gated
  }

  /** The nodes in flight of all loops that are going. */
  ghost function NodesInFlight(sites: Sites, p: Plant): set<Holder> {
    set r, n | r in p.lanes && Counted(sites, p, r) && n in InFlight(p.lanes[r].world.mem.model.nodes) :: Holder(r, n)
  }

  /** No loop owes the gate a call. */
  ghost predicate AllPaid(p: Plant) {
    forall r :: r in p.lanes && p.lanes[r].up ==> p.lanes[r].owed == []
  }

  lemma PaidLaneHolds(c: Config, lane: Lane)
    requires LaneGood(c, lane) && lane.up && lane.owed == []
    ensures lane.slots == if Alive(lane.world) && c.gated then InFlight(lane.world.mem.model.nodes) else {}
  {
    hide DiskTidy, Safe, Good, SuccessIsStored, StateMachines.Sound, Settles;
    SettledHolds(lane.slots, lane.world.mem.held);
  }

  /** And once every loop has made the calls it owes, these are the nodes in
    flight of all loops that are going, so zero when all have ended; where all
    rows were created, they are the rows in flight. */
  lemma GateCountsInFlight(sites: Sites, ps: seq<Plant>, ls: seq<PlantLabel>, i: nat)
    requires Planned(sites) && IsPlantRun(sites, ps, ls) && i < |ps| && AllPaid(ps[i])
    ensures var p := ps[i];
      && (forall org :: Count(p.gate.tasks, org) == |OfOrg(sites, NodesInFlight(sites, p), org)|)
      && (forall k :: Count(p.gate.classes, k) == |OfClass(sites, NodesInFlight(sites, p), k)|)
      && ((forall r :: !Counted(sites, p, r)) ==>
            (forall org :: Count(p.gate.tasks, org) == 0) && (forall k :: Count(p.gate.classes, k) == 0))
      && (forall r :: Counted(sites, p, r) && p.lanes[r].world.disk.status.Keys == sites[r].c.g.nodes ==>
            InFlight(p.lanes[r].world.mem.model.nodes) == InFlight(p.lanes[r].world.disk.status))
  {
    hide IsPlantRun, OfOrg, OfClass, InFlight;
    AlwaysSteady(sites, ps, ls, i);
    SteadyCounts(sites, ps[i]);
    PaidInHand(sites, ps[i]);
    NoneInFlight(sites, ps[i]);
    forall r | Counted(sites, ps[i], r) && ps[i].lanes[r].world.disk.status.Keys == sites[r].c.g.nodes
      ensures InFlight(ps[i].lanes[r].world.mem.model.nodes) == InFlight(ps[i].lanes[r].world.disk.status) {
      LaneRows(sites, ps[i], r);
    }
  }

  lemma PaidInHand(sites: Sites, p: Plant)
    requires Steady(sites, p) && AllPaid(p)
    ensures InHand(sites, p) == NodesInFlight(sites, p)
  {
    hide LaneGood, Conserves, InFlight;
    forall h ensures h in InHand(sites, p) <==> h in NodesInFlight(sites, p) {
      HoldingsAt(sites, p.lanes, h);
      hide Holdings;
      assert h == Holder(h.run, h.node);
      if h.run in p.lanes && p.lanes[h.run].up {
        assert h.run in sites && LaneGood(sites[h.run].c, p.lanes[h.run]);
        PaidLaneHolds(sites[h.run].c, p.lanes[h.run]);
      }
    }
  }

  lemma NoneInFlight(sites: Sites, p: Plant)
    ensures (forall r :: !Counted(sites, p, r)) ==>
              && (forall org :: OfOrg(sites, NodesInFlight(sites, p), org) == {})
              && (forall k :: OfClass(sites, NodesInFlight(sites, p), k) == {})
  {
    hide InFlight;
    if forall r :: !Counted(sites, p, r) { assert NodesInFlight(sites, p) == {}; }
  }

  lemma LaneRows(sites: Sites, p: Plant, r: string)
    requires Planned(sites) && Steady(sites, p) && Counted(sites, p, r)
    requires p.lanes[r].world.disk.status.Keys == sites[r].c.g.nodes
    ensures InFlight(p.lanes[r].world.mem.model.nodes) == InFlight(p.lanes[r].world.disk.status)
  {
    hide Conserves, DiskTidy, Tidy, Safe, Mirrors, Settles, Ordered, Closed;
    var c, w := sites[r].c, p.lanes[r].world;
    assert LaneGood(c, p.lanes[r]);
    RowsHaveNodes(c, w.mem, w.disk);
    forall n ensures n in InFlight(w.mem.model.nodes) <==> n in InFlight(w.disk.status) { FlightAgrees(c, w.mem, w.disk, n); }
  }
}
