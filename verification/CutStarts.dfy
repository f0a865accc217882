/** What goes wrong when the creation of the rows is cut short: from every such
  start some run publishes an attempt that is not recorded, and publishes it
  again after a restart
  (engine/core/src/distributed_run_loop.cpp). */
module CutStarts {
  import opened Ids
  import opened Graphs
  import opened StateMachines
  import opened LedgerKeys
  import opened Storage
  import opened Views
  import opened DiskSafety
  import opened Protocol
  import opened OpSafety
  import opened Recovery
  import opened Runs
  import opened RunLaws
  import opened CrashWindows
  import opened Strandings
  import opened AfloatRuns
  import opened Outages
  import opened StartUps

  ghost predicate IsFairRun(c: Config, ws: seq<World>, ls: seq<FlakyLabel>) {
    && |ws| == |ls| + 1
    && forall i {:trigger ls[i]} :: 0 <= i < |ls| ==> FairStep(c, ws[i], ls[i], ws[i + 1])
  }

  lemma Extended(c: Config, ws: seq<World>, ls: seq<FlakyLabel>, l: FlakyLabel, w: World)
    requires IsFairRun(c, ws, ls) && FairStep(c, ws[|ls|], l, w)
    ensures IsFairRun(c, ws + [w], ls + [l])
  {
    hide FairStep;
    var ws', ls' := ws + [w], ls + [l];
    forall i {:trigger ls'[i]} | 0 <= i < |ls'| ensures FairStep(c, ws'[i], ls'[i], ws'[i + 1]) {
      assert i < |ls| ==> ls'[i] == ls[i];
    }
  }

  // ------------------------------------------------------------------------
  // One node after the other
  // ------------------------------------------------------------------------

  ghost function Progressed(g: Graph, t: seq<NodeId>, j: nat): (nodes: Nodes)
    requires j <= |t|
    ensures nodes.Keys == g.nodes
  {
    map v | v in g.nodes :: if v in t[..j] then Succeeded else Blocked
  }

  /** The first j nodes of t have run and succeeded, and nothing else happened;
    only the nodes in rows have a row. */
  ghost predicate InTurn(c: Config, t: seq<NodeId>, rows: set<NodeId>, j: nat, w: World)
    requires j <= |t|
  {
    && w.disk.run == RunState.RunRunning
    && w.disk.status == (map v | v in rows && v in c.g.nodes :: Progressed(c.g, t, j)[v])
    && (forall a {:trigger Claimed(c, w.disk, a)} :: Claimed(c, w.disk, a) ==> a.node in t[..j])
    && w.mem.model == StartFrom(c.g, Progressed(c.g, t, j))
    && (forall key {:trigger Used(w.mem, key)} :: Used(w.mem, key) == 0)
    && (forall a :: a in w.mem.seen ==> a.node in t[..j])
    && (forall v {:trigger Current(w.mem, v)} :: v !in t[..j] ==> Current(w.mem, v) == 0)
  }

  /** Capacities are positive, and every node may succeed. */
  ghost predicate Unhindered(c: Config) {
    PositiveCapacities(c) && forall n {:trigger c.fate(n)} :: n in c.g.nodes ==> Fated(c, n, Succeeded)
  }

  lemma NextIsReady(g: Graph, t: seq<NodeId>, j: nat)
    requires IsTopo(g, t) && j < |t|
    ensures var nodes := StartFrom(g, Progressed(g, t, j)).nodes; t[j] in g.nodes && t[j] in nodes && nodes[t[j]].Ready?
  {
    var u, nodes := t[j], Progressed(g, t, j);
    assert u in Elements(t) && u !in t[..j];
    forall v | v in g.nodes && Edge(v, u) in g.edges ensures HasSucceeded(nodes, v) {
      assert Edge(v, u).from in t[..j];
    }
    NothingPending(g, nodes, u);
    hide PendingCount;
  }

  lemma DispatchEnabled(c: Config, t: seq<NodeId>, rows: set<NodeId>, j: nat, w: World)
    requires IsTopo(c.g, t) && Unhindered(c) && j < |t| && InTurn(c, t, rows, j, w)
    ensures Enabled(c, w.mem, w.disk, Dispatch(t[j], 0, true, []))
  {
    NextIsReady(c.g, t, j);
    assert Used(w.mem, c.policy(t[j]).key) == 0;
    hide Progressed, Unblock, CountDeps, ListsCanceled;
  }

  predicate LedgerKeeping(w: Write) {
    !w.Claim? && !w.FinishRun?
  }

  lemma {:induction false} LedgerKept(d: Disk, ws: seq<Write>)
    requires forall w :: w in ws ==> LedgerKeeping(w)
    ensures ApplyAll(d, ws).ledger == d.ledger && ApplyAll(d, ws).run == d.run
    decreases |ws|
  {
    if ws != [] {
      assert LedgerKeeping(ws[0]);
      LedgerKept(Applied(d, ws[0]), ws[1..]);
    }
  }

  /** The world after the dispatch of u. */
  ghost function SentOut(c: Config, w: World, u: NodeId): World {
    var op := Dispatch(u, 0, true, []);
    World(FlakyNext(c, w.mem, w.disk, op, ALL_UP), TriedAll(w.disk, FlakyWrites(c, w.mem, w.disk, op, ALL_UP), ALL_UP))
  }

  lemma SentOutDisk(c: Config, w: World, u: NodeId)
    requires Numbered(w.disk) && Tracks(w.mem, w.disk) && Current(w.mem, u) == 0
    requires u in w.disk.status ==> !w.disk.status[u].Terminal()
    ensures var d, e := w.disk, SentOut(c, w, u).disk;
      && e.status == (if u in d.status then d.status[u := Running] else d.status)
      && e.tasks == d.tasks + [Attempt(u, 1)] && e.ledger == d.ledger && e.run == d.run
  {
    hide ApplyAll, TriedAll, Numbered, AttemptCount;
    var d, a := w.disk, Attempt(u, 1);
    var ws := DispatchWrites(a, 0, true, []);
    assert FlakyWrites(c, w.mem, d, Dispatch(u, 0, true, []), ALL_UP) == ws;
    AllUpApplies(d, ws);
    assert |ws| == 6 && ws[..6] == ws;
    assert u in d.status ==> Current(w.mem, u) == AttemptCount(d, u);
    DispatchNumbers(d, a, 0, true, [], 6);
    LedgerKept(d, ws);
    StatusOfAll(d, ws);
    if u in d.status {
      DispatchRowsAfter(d.status, a, 0, true, [], 6);
    } else {
      RowlessStatus(d.status, ws, u);
    }
  }

  predicate TouchesOnly(w: Write, u: NodeId) {
    match w
    case SetStatus(n, _) => n == u
    case SetRetryWait(a, _) => a.node == u
    case CompleteNode(n, _) => n == u
    case _ => true
  }

  lemma {:induction false} RowlessStatus(nodes: Nodes, ws: seq<Write>, u: NodeId)
    requires u !in nodes && forall w :: w in ws ==> TouchesOnly(w, u)
    ensures StatusAll(nodes, ws) == nodes
  {
    if ws != [] {
      assert TouchesOnly(ws[0], u);
      RowlessStatus(nodes, ws[1..], u);
    }
  }

  lemma SentOutMemory(c: Config, w: World, u: NodeId)
    requires u in w.mem.model.nodes && Current(w.mem, u) == 0 && forall key {:trigger Used(w.mem, key)} :: Used(w.mem, key) == 0
    ensures var m, m' := w.mem, SentOut(c, w, u).mem;
      && m'.model == Started(m.model, u) && m'.seen == m.seen && Current(m', u) == 1
      && (forall v :: v != u ==> Current(m', v) == Current(m, v))
      && (forall key :: Used(m', key) == if key == c.policy(u).key && key != "" then 1 else 0)
  {
    hide Started;
    var m, m' := w.mem, SentOut(c, w, u).mem;
    forall key ensures Used(m', key) == if key == c.policy(u).key && key != "" then 1 else 0 {
      assert Used(m, key) == 0;
    }
  }

  /** The world after the success of u's first attempt. */
  ghost function Done(c: Config, w: World, u: NodeId): World {
    var op := Deliver(Attempt(u, 1), Completed, []);
    World(FlakyNext(c, w.mem, w.disk, op, ALL_UP), TriedAll(w.disk, FlakyWrites(c, w.mem, w.disk, op, ALL_UP), ALL_UP))
  }

  lemma DoneHears(c: Config, w: World, u: NodeId)
    requires OpenRow(w.disk, u) && Considered(w.mem, Attempt(u, 1)) && !Claimed(c, w.disk, Attempt(u, 1))
    ensures var a := Attempt(u, 1);
      && Done(c, w, u).mem == Release(c, Judged(c, w.mem, a, Completed), u)
      && Done(c, w, u).disk == ApplyAll(w.disk, ResultHead(c, a, Completed))
  {
    hide ApplyAll, TriedAll, Judged, Release, Considered, Hear, LedgerKey;
    var a := Attempt(u, 1);
    FairHear(c, w.disk, a, Completed, []);
    assert ResultHead(c, a, Completed) + CancelWrites([]) == ResultHead(c, a, Completed);
    AllUpApplies(w.disk, ResultHead(c, a, Completed));
  }

  lemma HeadLedger(c: Config, d: Disk, a: Attempt)
    ensures var e := ApplyAll(d, ResultHead(c, a, Completed)); e.ledger <= d.ledger + {LedgerKey(c.run, a)} && e.run == d.run
  {
    hide LedgerKey, Applied;
    var ws := ResultHead(c, a, Completed);
    LedgerKept(Applied(d, ws[0]), ws[1..]);
    ClaimLedger(d, LedgerKey(c.run, a));
    hide ResultHead;
  }

  lemma ClaimLedger(d: Disk, key: string)
    ensures Applied(d, Claim(key)).ledger <= d.ledger + {key} && Applied(d, Claim(key)).run == d.run
  {
  }

  lemma DoneDisk(c: Config, w: World, u: NodeId)
    requires OpenRow(w.disk, u) && Considered(w.mem, Attempt(u, 1)) && !Claimed(c, w.disk, Attempt(u, 1))
    ensures var d, e := w.disk, Done(c, w, u).disk;
      && e.status == d.status[u := Succeeded] && e.tasks == d.tasks && e.run == d.run
      && e.ledger <= d.ledger + {LedgerKey(c.run, Attempt(u, 1))}
  {
    hide ApplyAll, Considered, LedgerKey, Done, Claimed;
    var a := Attempt(u, 1);
    var ws := ResultHead(c, a, Completed);
    DoneHears(c, w, u);
    HeadLedger(c, w.disk, a);
    PlainKeeps(w.disk, ws);
    StatusOfAll(w.disk, ws);
    HeadRowsAfter(c, w.disk.status, a, Completed, 4);
    assert ws[..4] == ws;
  }

  lemma DoneMemory(c: Config, w: World, u: NodeId)
    requires OpenRow(w.disk, u) && Considered(w.mem, Attempt(u, 1)) && !Claimed(c, w.disk, Attempt(u, 1))
    ensures var m, m' := w.mem, Done(c, w, u).mem;
      && m'.model == Succeed(c.g, m.model, u) && m'.seen == m.seen + {Attempt(u, 1)} && (forall v :: Current(m', v) == Current(m, v))
      && forall key :: Used(m', key) == Used(m, key) - if key == c.policy(u).key && key != "" && Used(m, key) > 0 then 1 else 0
  {
    DoneHears(c, w, u);
    hide Succeed, Considered, Claimed, LedgerKey, Done;
  }

  lemma SucceedAfterStart(g: Graph, nodes: Nodes, u: NodeId)
    requires nodes.Keys == g.nodes && u in nodes && StartFrom(g, nodes).nodes[u].Ready?
    ensures Succeed(g, Started(StartFrom(g, nodes), u), u) == StartFrom(g, nodes[u := Succeeded])
  {
    StartFromSucceed(g, nodes, u);
    hide Unblock, CountDeps, CompletedIn;
    var m := StartFrom(g, nodes);
    assert Started(m, u).nodes[u := Succeeded] == m.nodes[u := Succeeded];
  }

  lemma OneFurther(g: Graph, t: seq<NodeId>, j: nat)
    requires j < |t| && t[j] in g.nodes
    ensures Progressed(g, t, j + 1) == Progressed(g, t, j)[t[j] := Succeeded]
    ensures forall v :: v in t[..j + 1] <==> v in t[..j] || v == t[j]
  {
    assert t[..j + 1] == t[..j] + [t[j]];
  }

  lemma NotYet(g: Graph, t: seq<NodeId>, j: nat)
    requires IsTopo(g, t) && j < |t|
    ensures t[j] !in t[..j] && t[j] in g.nodes
  {
    assert t[j] in Elements(t);
  }

  /** Between the dispatch of t[j] and its result. */
  lemma Awaited(c: Config, t: seq<NodeId>, rows: set<NodeId>, j: nat, w: World)
    requires IsTopo(c.g, t) && Unhindered(c) && j < |t| && InTurn(c, t, rows, j, w) && t[j] in rows
    requires Numbered(w.disk) && Tracks(w.mem, w.disk)
    ensures var u, sent := t[j], SentOut(c, w, t[j]);
      && OpenRow(sent.disk, u) && Considered(sent.mem, Attempt(u, 1)) && !Claimed(c, sent.disk, Attempt(u, 1))
      && Enabled(c, sent.mem, sent.disk, Deliver(Attempt(u, 1), Completed, []))
      && sent.mem.model == Started(w.mem.model, u) && sent.mem.seen == w.mem.seen
      && (forall v :: v != u ==> Current(sent.mem, v) == Current(w.mem, v))
      && (forall key :: Used(sent.mem, key) == if key == c.policy(u).key && key != "" then 1 else 0)
      && sent.disk.status == w.disk.status[u := Running] && sent.disk.ledger == w.disk.ledger
      && sent.disk.run == w.disk.run
  {
    hide Numbered, Tracks, SentOut, Progressed, LedgerKey, Unblock, CountDeps, CompletedIn, ListsCanceled;
    var u, a := t[j], Attempt(t[j], 1);
    NotYet(c.g, t, j);
    NextIsReady(c.g, t, j);
    assert u in w.disk.status && w.disk.status[u] == Blocked by { BlockedYet(c.g, t, rows, j); }
    assert Current(w.mem, u) == 0;
    SentOutDisk(c, w, u);
    SentOutMemory(c, w, u);
    assert !Claimed(c, w.disk, a);
    assert Fated(c, u, Succeeded) by { assert c.fate(u) == c.fate(u); }
  }

  lemma BlockedYet(g: Graph, t: seq<NodeId>, rows: set<NodeId>, j: nat)
    requires j <= |t|
    ensures forall v :: v in g.nodes && v !in t[..j] ==> Progressed(g, t, j)[v] == Blocked
  {
  }

  lemma TurnClaims(c: Config, t: seq<NodeId>, j: nat, d: Disk, e: Disk)
    requires j < |t| && e.ledger <= d.ledger + {LedgerKey(c.run, Attempt(t[j], 1))}
    requires forall a {:trigger Claimed(c, d, a)} :: Claimed(c, d, a) ==> a.node in t[..j]
    ensures forall a {:trigger Claimed(c, e, a)} :: Claimed(c, e, a) ==> a.node in t[..j] || a.node == t[j]
  {
    forall a | Claimed(c, e, a) ensures a.node in t[..j] || a.node == t[j] {
      if LedgerKey(c.run, a) == LedgerKey(c.run, Attempt(t[j], 1)) {
        KeyInjectiveInRun(c.run, a, Attempt(t[j], 1));
      } else {
        assert Claimed(c, d, a);
      }
    }
  }

  lemma TurnRows(c: Config, t: seq<NodeId>, rows: set<NodeId>, j: nat, status: Nodes)
    requires j < |t| && t[j] in c.g.nodes && t[j] in rows
    requires status == (map v | v in rows && v in c.g.nodes :: Progressed(c.g, t, j)[v])
    ensures status[t[j] := Running][t[j] := Succeeded] == (map v | v in rows && v in c.g.nodes :: Progressed(c.g, t, j + 1)[v])
  {
    OneFurther(c.g, t, j);
    hide Progressed;
  }

  /** The next node of t, if it has a row, is dispatched and succeeds. */
  lemma TurnTaken(c: Config, t: seq<NodeId>, rows: set<NodeId>, j: nat, w: World)
    requires IsTopo(c.g, t) && Unhindered(c) && j < |t| && InTurn(c, t, rows, j, w) && t[j] in rows
    requires Numbered(w.disk) && Tracks(w.mem, w.disk)
    ensures var u, sent := t[j], SentOut(c, w, t[j]);
      && FairStep(c, w, Go(Dispatch(u, 0, true, []), ALL_UP), sent)
      && FairStep(c, sent, Go(Deliver(Attempt(u, 1), Completed, []), ALL_UP), Done(c, sent, u))
      && InTurn(c, t, rows, j + 1, Done(c, sent, u))
  {
    hide Numbered, Tracks, Enabled, Considered, Claimed, Started, Succeed, StartFrom, Progressed, LedgerKey, FlakyWrites,
      FlakyNext, TriedAll;
    var u, sent := t[j], SentOut(c, w, t[j]);
    DispatchEnabled(c, t, rows, j, w);
    Awaited(c, t, rows, j, w);
    var w' := Done(c, sent, u);
    assert FairStep(c, w, Go(Dispatch(u, 0, true, []), ALL_UP), sent);
    assert FairStep(c, sent, Go(Deliver(Attempt(u, 1), Completed, []), ALL_UP), w');
    hide SentOut, Done, FairStep;
    DoneDisk(c, sent, u);
    DoneMemory(c, sent, u);
    NotYet(c.g, t, j);
    OneFurther(c.g, t, j);
    NextIsReady(c.g, t, j);
    TurnModel(c.g, t, j);
    SameClaims(c, w.disk, sent.disk);
    TurnClaims(c, t, j, sent.disk, w'.disk);
    TurnRows(c, t, rows, j, w.disk.status);
  }

  lemma TurnModel(g: Graph, t: seq<NodeId>, j: nat)
    requires IsTopo(g, t) && j < |t|
    ensures Succeed(g, Started(StartFrom(g, Progressed(g, t, j)), t[j]), t[j]) == StartFrom(g, Progressed(g, t, j + 1))
  {
    NextIsReady(g, t, j);
    SucceedAfterStart(g, Progressed(g, t, j), t[j]);
    OneFurther(g, t, j);
    assert Progressed(g, t, j).Keys == g.nodes;
    hide Succeed, Started, StartFrom, Progressed;
  }

  // ------------------------------------------------------------------------
  // Starting and restarting
  // ------------------------------------------------------------------------

  /** A process that starts on rows at turn j is at turn j. */
  lemma StartedInTurn(c: Config, t: seq<NodeId>, rows: set<NodeId>, j: nat, d: Disk)
    requires j <= |t| && d.run == RunState.RunRunning
    requires d.status == (map v | v in rows && v in c.g.nodes :: Progressed(c.g, t, j)[v])
    requires forall v :: v in t[..j] ==> v in rows
    requires forall v :: v in d.status && v !in t[..j] ==> AttemptCount(d, v) == 0
    requires forall a {:trigger Claimed(c, d, a)} :: Claimed(c, d, a) ==> a.node in t[..j]
    ensures InTurn(c, t, rows, j, World(Recovered(c, d), d))
  {
    hide StartFrom, AttemptCount, Claimed;
    assert Filled(c.g, Restored(d.status)) == Progressed(c.g, t, j);
    assert forall v :: v in d.status ==> !d.status[v].InFlight();
  }

  /** The process dies right after the dispatch of a node that has no row. */
  lemma DiesAfterPublish(c: Config, t: seq<NodeId>, rows: set<NodeId>, j: nat, w: World)
    requires IsTopo(c.g, t) && Unhindered(c) && j < |t| && InTurn(c, t, rows, j, w)
    requires t[j] !in rows && forall v :: v in t[..j] ==> v in rows
    requires Numbered(w.disk) && Tracks(w.mem, w.disk)
    ensures var d := SentOut(c, w, t[j]).disk;
      && d.tasks == w.disk.tasks + [Attempt(t[j], 1)]
      && FairStep(c, w, Die(Dispatch(t[j], 0, true, []), ALL_UP, 6), World(Recovered(c, d), d))
      && InTurn(c, t, rows, j, World(Recovered(c, d), d))
  {
    hide Numbered, Tracks, Enabled, Claimed, StartFrom, Progressed, LedgerKey, FlakyNext, TriedAll, Recovered, AttemptCount;
    var u, sent := t[j], SentOut(c, w, t[j]);
    NotYet(c.g, t, j);
    DispatchEnabled(c, t, rows, j, w);
    assert FairStep(c, w, Go(Dispatch(u, 0, true, []), ALL_UP), sent);
    FairKeepsNumbers(c, w, Go(Dispatch(u, 0, true, []), ALL_UP), sent);
    SentOutDisk(c, w, u);
    NextIsReady(c.g, t, j);
    SentOutMemory(c, w, u);
    DispatchLength(c, w, u);
    var ws := FlakyWrites(c, w.mem, w.disk, Dispatch(u, 0, true, []), ALL_UP);
    assert ws[..6] == ws;
    hide SentOut, FlakyWrites;
    forall v | v in sent.disk.status && v !in t[..j] ensures AttemptCount(sent.disk, v) == 0 {
      TracksAt(sent.mem, sent.disk, v);
    }
    assert forall a :: Claimed(c, sent.disk, a) <==> Claimed(c, w.disk, a) by { SameClaims(c, w.disk, sent.disk); }
    StartedInTurn(c, t, rows, j, sent.disk);
  }

  lemma SameClaims(c: Config, d: Disk, e: Disk)
    requires d.ledger == e.ledger
    ensures forall a :: Claimed(c, e, a) <==> Claimed(c, d, a)
  {
  }

  lemma TracksAt(mem: Memory, d: Disk, v: NodeId)
    requires Tracks(mem, d) && v in d.status
    ensures Current(mem, v) == AttemptCount(d, v)
  {
  }

  lemma DispatchLength(c: Config, w: World, u: NodeId)
    ensures |FlakyWrites(c, w.mem, w.disk, Dispatch(u, 0, true, []), ALL_UP)| == 6
  {
  }

  /** A process that finds the rows of the first k nodes of the creation. */
  ghost function StartedOn(c: Config, order: seq<NodeId>, k: nat, ledger: set<string>): World
    requires k <= |order|
  {
    var d := Created(order, k, ledger, false);
    World(Recovered(c, d), d)
  }

  lemma FirstTurn(c: Config, t: seq<NodeId>, order: seq<NodeId>, k: nat, ledger: set<string>)
    requires k <= |order| && Ordered(c, order) && OwnsNoKey(c, ledger)
    ensures var w := StartedOn(c, order, k, ledger);
      InTurn(c, t, Elements(order[..k]), 0, w) && Numbered(w.disk) && Tracks(w.mem, w.disk)
  {
    hide Recovered, Progressed, LedgerKey;
    var d, rows := Created(order, k, ledger, false), Elements(order[..k]);
    CreatedNumbered(c, order, k, ledger, false);
    BlockedYet(c.g, t, rows, 0);
    forall v | v in order[..k] ensures v in c.g.nodes { assert v in Elements(order); }
    assert d.status == (map v | v in rows && v in c.g.nodes :: Progressed(c.g, t, 0)[v]);
    assert forall a :: !Claimed(c, d, a);
    StartedInTurn(c, t, rows, 0, d);
  }

  // ------------------------------------------------------------------------
  // The failing run
  // ------------------------------------------------------------------------

  /** The first j nodes of t succeed one after the other. */
  lemma {:induction false} TurnsTaken(c: Config, t: seq<NodeId>, rows: set<NodeId>, j: nat, w: World)
    returns (ws: seq<World>, ls: seq<FlakyLabel>)
    requires IsTopo(c.g, t) && Unhindered(c) && j <= |t| && InTurn(c, t, rows, 0, w)
    requires Numbered(w.disk) && Tracks(w.mem, w.disk)
    requires forall v :: v in t[..j] ==> v in rows
    ensures IsFairRun(c, ws, ls) && ws[0] == w && InTurn(c, t, rows, j, ws[|ls|])
    ensures Numbered(ws[|ls|].disk) && Tracks(ws[|ls|].mem, ws[|ls|].disk)
  {
    hide InTurn, Numbered, Tracks, FairStep, SentOut, Done, Unhindered, IsTopo;
    ws, ls := [w], [];
    if j > 0 {
      assert t[..j] == t[..j - 1] + [t[j - 1]];
      ws, ls := TurnsTaken(c, t, rows, j - 1, w);
      var u, w1 := t[j - 1], ws[|ls|];
      var sent := SentOut(c, w1, u);
      var send, take := Go(Dispatch(u, 0, true, []), ALL_UP), Go(Deliver(Attempt(u, 1), Completed, []), ALL_UP);
      TurnTaken(c, t, rows, j - 1, w1);
      Extended(c, ws, ls, send, sent);
      Extended(c, ws + [sent], ls + [send], take, Done(c, sent, u));
      FairKeepsNumbers(c, w1, send, sent);
      FairKeepsNumbers(c, sent, take, Done(c, sent, u));
      ws, ls := ws + [sent] + [Done(c, sent, u)], ls + [send] + [take];
    }
  }

  /** A node without a row is published twice: before and after a restart. */
  lemma PublishedTwice(c: Config, t: seq<NodeId>, rows: set<NodeId>, j: nat, ws: seq<World>, ls: seq<FlakyLabel>)
    returns (ws': seq<World>, ls': seq<FlakyLabel>)
    requires IsFairRun(c, ws, ls) && IsTopo(c.g, t) && Unhindered(c) && j < |t| && InTurn(c, t, rows, j, ws[|ls|])
    requires Numbered(ws[|ls|].disk) && Tracks(ws[|ls|].mem, ws[|ls|].disk)
    requires t[j] !in rows && forall v :: v in t[..j] ==> v in rows
    ensures IsFairRun(c, ws', ls') && ws'[0] == ws[0]
    ensures var a, d := Attempt(t[j], 1), ws'[|ls'|].disk;
      d.tasks == ws[|ls|].disk.tasks + [a] + [a] && Numbered(d) && a.node !in d.status
  {
    hide InTurn, Numbered, Tracks, FairStep, Unhindered, IsTopo, Recovered;
    var u, w := t[j], ws[|ls|];
    var die, send := Die(Dispatch(u, 0, true, []), ALL_UP, 6), Go(Dispatch(u, 0, true, []), ALL_UP);
    DiesAfterPublish(c, t, rows, j, w);
    var d := SentOut(c, w, u).disk;
    var w1 := World(Recovered(c, d), d);
    FairKeepsNumbers(c, w, die, w1);
    DiesAfterPublish(c, t, rows, j, w1);
    DispatchFair(c, t, rows, j, w1);
    hide SentOut;
    var w2 := SentOut(c, w1, u);
    FairKeepsNumbers(c, w1, send, w2);
    RowlessTurn(c, t, rows, j, w1);
    Extended(c, ws, ls, die, w1);
    Extended(c, ws + [w1], ls + [die], send, w2);
    ws', ls' := ws + [w1] + [w2], ls + [die] + [send];
  }

  lemma DispatchFair(c: Config, t: seq<NodeId>, rows: set<NodeId>, j: nat, w: World)
    requires IsTopo(c.g, t) && Unhindered(c) && j < |t| && InTurn(c, t, rows, j, w)
    ensures FairStep(c, w, Go(Dispatch(t[j], 0, true, []), ALL_UP), SentOut(c, w, t[j]))
  {
    hide InTurn, Enabled, FlakyWrites, FlakyNext, TriedAll, IsTopo, Unhindered;
    DispatchEnabled(c, t, rows, j, w);
  }

  lemma RowlessTurn(c: Config, t: seq<NodeId>, rows: set<NodeId>, j: nat, w: World)
    requires j < |t| && InTurn(c, t, rows, j, w) && t[j] !in rows
    ensures t[j] !in w.disk.status
  {
    hide Progressed, StartFrom;
  }

  /** What goes out was recorded first, and goes out once. */
  ghost predicate PublishedOnRecord(d: Disk) {
    (forall a :: a in d.tasks ==> Recorded(d, a)) && Distinct(d.tasks)
  }

  lemma RowlessIsUnrecorded(d: Disk, a: Attempt)
    requires Numbered(d) && a.node !in d.status
    ensures !Recorded(d, a)
  {
    assert AttemptsOf(d, a.node) == {};
  }

  lemma TwiceAtEnd(tasks: seq<Attempt>, a: Attempt)
    ensures var twice := tasks + [a] + [a]; a in twice && !Distinct(twice)
  {
    var twice := tasks + [a] + [a];
    assert twice[|tasks|] == twice[|tasks| + 1] == a;
  }

  /** If some rows are missing, some fair run publishes an attempt that is not
    recorded, and publishes it again after a restart. */
  lemma CutStartPublishesTwice(c: Config, t: seq<NodeId>, order: seq<NodeId>, k: nat, ledger: set<string>)
    returns (ws: seq<World>, ls: seq<FlakyLabel>, a: Attempt)
    requires IsTopo(c.g, t) && Unhindered(c) && Ordered(c, order) && k < |order| && OwnsNoKey(c, ledger)
    ensures IsFairRun(c, ws, ls) && ws[0] == StartedOn(c, order, k, ledger)
    ensures var d := ws[|ls|].disk; a in d.tasks && !Recorded(d, a) && !Distinct(d.tasks)
  {
    hide InTurn, Numbered, Tracks, FairStep, Unhindered, StartedOn, Recorded;
    var rows := Elements(order[..k]);
    var w := StartedOn(c, order, k, ledger);
    FirstTurn(c, t, order, k, ledger);
    var j := FirstMissing(c.g, t, order, k);
    ws, ls := TurnsTaken(c, t, rows, j, w);
    var tasks := ws[|ls|].disk.tasks;
    ws, ls := PublishedTwice(c, t, rows, j, ws, ls);
    a := Attempt(t[j], 1);
    RowlessIsUnrecorded(ws[|ls|].disk, a);
    TwiceAtEnd(tasks, a);
  }

  /** A run of the loop on the first k rows, from the very first call. */
  function FromFirstCall(k: nat, ledger: set<string>, ws: seq<World>): seq<Stage> {
    seq(k + 2, (i: nat) => Creating(i, ledger)) + seq(|ws|, i requires 0 <= i < |ws| => Up(ws[i]))
  }

  function CallsFromFirst(k: nat, ls: seq<FlakyLabel>): seq<StartLabel> {
    seq(k + 1, (i: nat) => CreateCall) + [CreationDies] + seq(|ls|, i requires 0 <= i < |ls| => Step(ls[i]))
  }

  lemma FromFirstCallIsRun(c: Config, order: seq<NodeId>, k: nat, ledger: set<string>, ws: seq<World>, ls: seq<FlakyLabel>)
    requires 0 < k <= |order| && OwnsNoKey(c, ledger) && IsFairRun(c, ws, ls) && ws[0] == StartedOn(c, order, k, ledger)
    ensures IsStartRun(c, order, FromFirstCall(k, ledger, ws), CallsFromFirst(k, ls))
  {
    hide FairStep, OwnsNoKey, Created, Recovered;
    var ss, sl := FromFirstCall(k, ledger, ws), CallsFromFirst(k, ls);
    forall i {:trigger sl[i]} | 0 <= i < |sl| ensures StartStep(c, order, ss[i], sl[i], ss[i + 1]) {
      if i > k + 1 {
        var l := ls[i - k - 2];
        assert sl[i] == Step(l) && ss[i] == Up(ws[i - k - 2]) && ss[i + 1] == Up(ws[i - k - 1]);
      }
    }
  }

  /** Wherever the creation is cut short after its first row, some run from the
    very first call publishes an attempt twice that was never recorded. */
  lemma CutShortPublishesTwice(c: Config, t: seq<NodeId>, order: seq<NodeId>, k: nat, ledger: set<string>)
    returns (ss: seq<Stage>, ls: seq<StartLabel>, a: Attempt)
    requires IsTopo(c.g, t) && Unhindered(c) && Ordered(c, order) && 0 < k < |order| && OwnsNoKey(c, ledger)
    ensures IsStartRun(c, order, ss, ls) && k + 1 < |ls| && CutShort(order, ss[k + 1], ls[k + 1]) && ss[|ls|].Up?
    ensures var d := ss[|ls|].world.disk; a in d.tasks && !Recorded(d, a) && !Distinct(d.tasks)
  {
    hide FairStep, OwnsNoKey, Created, StartStep, Recorded, Unhindered, StartedOn, IsTopo, Ordered;
    var ws, moves, b := CutStartPublishesTwice(c, t, order, k, ledger);
    FromFirstCallIsRun(c, order, k, ledger, ws, moves);
    ss, ls, a := FromFirstCall(k, ledger, ws), CallsFromFirst(k, moves), b;
    assert ss[|ls|] == Up(ws[|moves|]);
  }

  lemma FirstMissing(g: Graph, t: seq<NodeId>, order: seq<NodeId>, k: nat) returns (j: nat)
    requires IsTopo(g, t) && Distinct(order) && Elements(order) == g.nodes && k < |order|
    ensures j < |t| && t[j] !in Elements(order[..k]) && forall v :: v in t[..j] ==> v in Elements(order[..k])
  {
    var rows := Elements(order[..k]);
    assert order[k] in Elements(order) && order[k] !in rows;
    assert order[k] in Elements(t);
    j := 0;
    while t[j] in rows
      decreases |t| - j
      invariant j < |t| && order[k] !in t[..j] && forall v :: v in t[..j] ==> v in rows
    {
      assert t[..j + 1] == t[..j] + [t[j]];
      assert t[..|t|] == t;
      j := j + 1;
    }
  }

  lemma {:induction false} FairRunGood(c: Config, ws: seq<World>, ls: seq<FlakyLabel>, i: nat)
    requires Closed(c.g) && IsFairRun(c, ws, ls) && i < |ws| && Good(c, ws[0])
    ensures Good(c, ws[i])
  {
    hide Good, FairStep, Closed;
    if i > 0 {
      FairRunGood(c, ws, ls, i - 1);
      var w, l := ws[i - 1], ls[i - 1];
      FairKeepsGood(c, w, l, ws[i]);
    }
  }

  /** Of a started run with at least one row: every fair run publishes each
    attempt once and on record, if and only if no row is missing. */
  lemma RecordedOnceIff(c: Config, t: seq<NodeId>, order: seq<NodeId>, k: nat, ledger: set<string>)
    requires IsTopo(c.g, t) && Closed(c.g) && Unhindered(c) && Ordered(c, order) && 0 < k <= |order| && OwnsNoKey(c, ledger)
    ensures (forall ws: seq<World>, ls {:trigger IsFairRun(c, ws, ls)} ::
               IsFairRun(c, ws, ls) && ws[0] == StartedOn(c, order, k, ledger) ==> PublishedOnRecord(ws[|ls|].disk)) <==>
            k == |order|
  {
    hide FairStep, Good, StartedOn;
    if k < |order| {
      var ws, ls, a := CutStartPublishesTwice(c, t, order, k, ledger);
      assert !PublishedOnRecord(ws[|ls|].disk);
    } else {
      AllRowsGood(c, order, ledger);
      forall ws: seq<World>, ls | IsFairRun(c, ws, ls) && ws[0] == StartedOn(c, order, k, ledger)
        ensures PublishedOnRecord(ws[|ls|].disk)
      {
        FairRunGood(c, ws, ls, |ls|);
        GoodOnRecord(c, ws[|ls|]);
      }
    }
  }

  lemma AllRowsGood(c: Config, order: seq<NodeId>, ledger: set<string>)
    requires Closed(c.g) && Ordered(c, order) && OwnsNoKey(c, ledger)
    ensures Good(c, StartedOn(c, order, |order|, ledger))
  {
    hide Good, Created, FreshDisk, OwnsNoKey, Recovered, Ordered, Closed;
    AllCreated(c, order, ledger, false);
    InitialIsGood(c, StartedOn(c, order, |order|, ledger));
  }

  lemma GoodOnRecord(c: Config, w: World)
    requires Closed(c.g) && Good(c, w)
    ensures PublishedOnRecord(w.disk)
  {
    hide Safe, Mirrors, Closed;
    SafePublishes(c, w.disk);
  }
}
