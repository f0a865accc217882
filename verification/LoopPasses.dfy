/** What one pass of the main loop leaves behind
  (engine/core/src/distributed_run_loop.cpp). */
module LoopPasses {
  import opened Ids
  import opened Graphs
  import opened StateMachines
  import opened LedgerKeys
  import opened Storage
  import opened DiskSafety
  import opened Protocol
  import opened OpSafety
  import opened Recovery
  import opened Runs

  type Grants = NodeId -> bool

  /** A result as the protocol sees it. */
  datatype Delivery = Delivery(attempt: Attempt, reply: Reply)

  /** ops deliver exactly these, in this order. */
  ghost predicate AreDeliveries(ops: seq<Op>, ds: seq<Delivery>) {
    |ops| == |ds| && forall i :: 0 <= i < |ops| ==>
      ops[i].Deliver? && ops[i].attempt == ds[i].attempt && ops[i].reply == ds[i].reply
  }

  lemma NoDeliveries()
    ensures AreDeliveries([], [])
  {
  }

  lemma MoreDeliveries(ops: seq<Op>, ds: seq<Delivery>, more: seq<Op>, ds': seq<Delivery>)
    requires AreDeliveries(ops, ds) && AreDeliveries(more, ds')
    ensures AreDeliveries(ops + more, ds + ds')
  {
  }

  /** The lease is open and past its expiry. */
  predicate Expired(d: Disk, a: Attempt, now: int) {
    LeaseOpen(d, a) && 0 < d.leases[a].expires <= now
  }

  /** The lease is open and held by the worker. */
  predicate HeldBy(d: Disk, a: Attempt, worker: string) {
    LeaseOpen(d, a) && d.leases[a].worker == worker
  }

  /** n's resource is full, or the quota gate refuses it a slot. */
  ghost predicate Refused(c: Config, mem: Memory, n: NodeId, grants: Grants) {
    !HasSlot(c, mem, n) || (c.gated && !grants(n))
  }

  /** No ready node could be dispatched. */
  ghost predicate Saturated(c: Config, mem: Memory, grants: Grants) {
    forall n :: n in mem.model.nodes && mem.model.nodes[n].Ready? ==> Refused(c, mem, n, grants)
  }

  /** Every ready node that is not in ids was refused. */
  ghost predicate LeftReady(c: Config, mem: Memory, ids: seq<NodeId>, grants: Grants) {
    forall v :: v in mem.model.nodes && mem.model.nodes[v].Ready? && v !in ids ==> Refused(c, mem, v, grants)
  }

  lemma AllLeft(c: Config, mem: Memory, ids: seq<NodeId>, grants: Grants)
    requires forall v :: v in mem.model.nodes && mem.model.nodes[v].Ready? ==> v in ids
    ensures LeftReady(c, mem, ids[0..], grants)
  {
    assert ids[0..] == ids;
  }

  lemma NoneLeft(c: Config, mem: Memory, grants: Grants)
    ensures LeftReady(c, mem, [], grants) ==> Saturated(c, mem, grants)
  {
    hide Refused;
  }

  /** The first of the operations leave no ready node that could be dispatched. */
  ghost predicate DispatchesFirst(c: Config, w: World, ops: seq<Op>, grants: Grants) {
    exists k: nat, mid: World :: k <= |ops| && Follows(c, w, ops[..k], mid) && Saturated(c, mid.mem, grants)
  }

  lemma StillDispatches(c: Config, w: World, ops: seq<Op>, more: seq<Op>, grants: Grants)
    requires DispatchesFirst(c, w, ops, grants)
    ensures DispatchesFirst(c, w, ops + more, grants)
  {
    hide Follows, Saturated;
    var k: nat, mid: World :| k <= |ops| && Follows(c, w, ops[..k], mid) && Saturated(c, mid.mem, grants);
    assert (ops + more)[..k] == ops[..k];
  }

  /** ops hold back the dispatches, the wakes, or neither. */
  ghost predicate HoldsBack(ops: seq<Op>, dispatches: bool, wakes: bool) {
    forall op :: op in ops ==> (dispatches ==> !op.Dispatch?) && (wakes ==> !op.Wake?)
  }

  lemma OneHeldBack(op: Op, dispatches: bool, wakes: bool)
    requires op.Cancel? || op.Finalize?
    ensures HoldsBack([op], dispatches, wakes)
  {
  }

  lemma HeldBackThen(ops: seq<Op>, more: seq<Op>, dispatches: bool, wakes: bool)
    requires HoldsBack(ops, dispatches, wakes) && forall op :: op in more ==> op.Cancel? || op.Finalize?
    ensures HoldsBack(ops + more, dispatches, wakes)
  {
  }

  /** The moves of one pass: dispatches, reaps and wakes. */
  lemma MovesHoldBack(ds: seq<Op>, rs: seq<Op>, ws: seq<Op>, dispatches: bool, wakes: bool)
    requires (forall op :: op in ds ==> op.Dispatch?) && (forall op :: op in rs ==> op.Reap?) && (forall op :: op in ws ==> op.Wake?)
    requires (dispatches ==> ds == []) && (wakes ==> ws == [])
    ensures HoldsBack(ds + rs + ws, dispatches, wakes)
  {
  }

  /** A world, and the histories of calls that led to it. */
  datatype Log = Log(world: World, journal: seq<Write>, slotCalls: seq<SlotCall>)

  /** b follows a by the operations ops and their calls. */
  ghost predicate Chronicle(c: Config, a: Log, ops: seq<Op>, b: Log) {
    && Follows(c, a.world, ops, b.world)
    && b.journal == a.journal + CallsOf(c, a.world, ops)
    && b.slotCalls == a.slotCalls + SlotCallsOf(c, a.world, ops)
  }

  lemma LogNothing(c: Config, a: Log)
    ensures Chronicle(c, a, [], a)
  {
  }

  lemma LogFollows(c: Config, a: Log, ops: seq<Op>, b: Log)
    requires Chronicle(c, a, ops, b)
    ensures Follows(c, a.world, ops, b.world)
  {
  }

  lemma LogOne(c: Config, a: Log, op: Op, b: Log)
    requires var w := a.world;
      && Enabled(c, w.mem, w.disk, op) && b.world.mem == Next(c, w.mem, w.disk, op)
      && b.world.disk == ApplyAll(w.disk, Writes(c, w.mem, w.disk, op))
      && b.journal == a.journal + Writes(c, w.mem, w.disk, op) && b.slotCalls == a.slotCalls + SlotCalls(c, w.mem, w.disk, op)
    ensures Chronicle(c, a, [op], b)
  {
    hide Enabled, Next, Writes, ApplyAll, SlotCalls, Follows, CallsOf, SlotCallsOf;
    FollowsOne(c, a.world, op);
  }

  lemma LogThen(c: Config, a: Log, ops: seq<Op>, b: Log, more: seq<Op>, e: Log)
    requires Chronicle(c, a, ops, b) && Chronicle(c, b, more, e)
    ensures Chronicle(c, a, ops + more, e)
  {
    hide Follows, CallsOf, SlotCallsOf;
    FollowsThen(c, a.world, ops, b.world, more, e.world);
  }

  lemma LogMore(c: Config, a: Log, ops: seq<Op>, b: Log, op: Op, e: Log)
    requires Chronicle(c, a, ops, b)
    requires var w := b.world;
      && Enabled(c, w.mem, w.disk, op) && e.world.mem == Next(c, w.mem, w.disk, op)
      && e.world.disk == ApplyAll(w.disk, Writes(c, w.mem, w.disk, op))
      && e.journal == b.journal + Writes(c, w.mem, w.disk, op) && e.slotCalls == b.slotCalls + SlotCalls(c, w.mem, w.disk, op)
    ensures Chronicle(c, a, ops + [op], e)
  {
    hide Chronicle, Enabled, Next, Writes, ApplyAll, SlotCalls;
    LogOne(c, b, op, e);
    LogThen(c, a, ops, b, [op], e);
  }

  lemma FollowsSingle(c: Config, w: World, op: Op, w': World)
    requires Follows(c, w, [op], w')
    ensures Enabled(c, w.mem, w.disk, op) && w' == Stepped(c, w, op)
  {
    hide Enabled, Stepped;
    assert [op][1..] == [];
  }

  lemma FreeSlots(c: Config, mem: Memory, d: Disk, n: NodeId)
    requires Closed(c.g) && Safe(c, d) && Mirrors(c, mem, d) && n in mem.model.nodes && mem.model.nodes[n].Ready?
    ensures n in d.status && !d.status[n].InFlight() && n !in mem.held
    ensures c.policy(n).key != "" ==> Used(mem, c.policy(n).key) >= 0
  {
    hide Safe, StartFrom, DueMirrors, SeenMirrors, SpentUpTo;
    ReadyRow(c, mem, d, n);
    assert c.policy(n).key != "" ==> Used(mem, c.policy(n).key) == |InFlightWith(c, d.status, c.policy(n).key)|;
  }

  /** A dispatch readies no node, and frees no slot. */
  lemma DispatchShrinks(c: Config, mem: Memory, d: Disk, op: Op, v: NodeId)
    requires Closed(c.g) && Safe(c, d) && Mirrors(c, mem, d) && Enabled(c, mem, d, op) && op.Dispatch?
    ensures var mem' := Next(c, mem, d, op);
      && (v in mem'.model.nodes && mem'.model.nodes[v].Ready? ==>
            v in mem.model.nodes && mem.model.nodes[v].Ready? && v != op.node)
      && (!HasSlot(c, mem, v) ==> !HasSlot(c, mem', v))
  {
    var mem' := Next(c, mem, d, op);
    hide Safe, Mirrors, Next, ListsCanceled, Fated, SlotsFollow, Break, Move;
    FreeSlots(c, mem, d, op.node);
    DispatchMemory(c, mem, d, op, d.status[op.node]);
    hide Enabled;
    DispatchedModel(c.g, mem.model, op.node, v);
    SlotsGrow(c, mem, mem', op.node, d.status[op.node], if op.published then Running else Failed, v);
  }

  lemma DispatchedModel(g: Graph, m: Model, n: NodeId, v: NodeId)
    requires n in m.nodes
    ensures v in Move(m, n, Running).nodes && Move(m, n, Running).nodes[v].Ready? ==> v in m.nodes && m.nodes[v].Ready? && v != n
    ensures v in Break(g, m, n, Failed).nodes && Break(g, m, n, Failed).nodes[v].Ready? ==>
              v in m.nodes && m.nodes[v].Ready? && v != n
  {
    hide CancelTarget;
  }

  lemma SlotsGrow(c: Config, mem: Memory, mem': Memory, n: NodeId, was: NodeState, s: NodeState, v: NodeId)
    requires SlotsFollow(c, mem, mem', was, n, s) && !was.InFlight()
    ensures !HasSlot(c, mem, v) ==> !HasSlot(c, mem', v)
  {
    var key := c.policy(v).key;
    if s.InFlight() {
      assert Used(mem', key) == Used(Occupy(c, mem, n), key) >= Used(mem, key);
    } else {
      assert Used(mem', key) == Used(mem, key);
    }
  }

  /** A reap closes one lease. */
  lemma ReapClosesOne(c: Config, mem: Memory, d: Disk, op: Op)
    requires Closed(c.g) && Safe(c, d) && Mirrors(c, mem, d) && Enabled(c, mem, d, op) && op.Reap?
    ensures op.attempt in d.leases
    ensures var d' := ApplyAll(d, Writes(c, mem, d, op));
      d'.leases == d.leases[op.attempt := d.leases[op.attempt].(status := LeaseExpired)]
  {
    OpGuarded(c, mem, d, op);
    hide Safe, Mirrors, ApplyAll, Writes, AllGuarded;
  }

  /** A wake leaves the leases alone. */
  lemma WakeKeepsLeases(c: Config, w: World, op: Op)
    requires Closed(c.g) && Good(c, w) && Alive(w) && Enabled(c, w.mem, w.disk, op) && op.Wake?
    ensures ApplyAll(w.disk, Writes(c, w.mem, w.disk, op)).leases == w.disk.leases
  {
    hide Safe, Mirrors, ApplyAll, Writes, AllGuarded;
    OpGuarded(c, w.mem, w.disk, op);
  }
}
