/** What a crash leaves behind in the rows, and the crashes that strand a node:
  those that lose one in flight, and those that store a failure or part of a
  cancellation but not the cancellations below it
  (engine/core/src/distributed_run_loop.cpp). */
module Strandings {
  import opened Ids
  import opened Graphs
  import opened StateMachines
  import opened LedgerKeys
  import opened Storage
  import opened Views
  import opened DiskSafety
  import opened Protocol
  import opened OpSafety
  import opened Recovery
  import opened Runs
  import opened RunEndings
  import opened CrashWindows

  // ------------------------------------------------------------------------
  // What calls do to the statuses
  // ------------------------------------------------------------------------

  function StatusOne(nodes: Nodes, w: Write): Nodes {
    match w
    case SetStatus(n, s) => if n in nodes && !nodes[n].Terminal() then nodes[n := s] else nodes
    case SetRetryWait(a, _) => if a.node in nodes && !nodes[a.node].Terminal() then nodes[a.node := RetryWait] else nodes
    case CompleteNode(n, s) => if n in nodes && !nodes[n].Terminal() && s.Terminal() then nodes[n := s] else nodes
    case _ => nodes
  }

  function StatusAll(nodes: Nodes, ws: seq<Write>): Nodes
    decreases |ws|
  {
    if ws == [] then nodes else StatusAll(StatusOne(nodes, ws[0]), ws[1..])
  }

  lemma {:induction false} StatusOfAll(d: Disk, ws: seq<Write>)
    ensures ApplyAll(d, ws).status == StatusAll(d.status, ws)
    decreases |ws|
  {
    if ws != [] {
      assert Applied(d, ws[0]).status == StatusOne(d.status, ws[0]);
      hide Applied, StatusOne;
      StatusOfAll(Applied(d, ws[0]), ws[1..]);
    }
  }

  lemma {:induction false} StatusConcat(nodes: Nodes, a: seq<Write>, b: seq<Write>)
    ensures StatusAll(nodes, a + b) == StatusAll(StatusAll(nodes, a), b)
    decreases |a|
  {
    hide StatusOne;
    if a == [] {
      assert a + b == b;
    } else {
      assert (a + b)[1..] == a[1..] + b;
      StatusConcat(StatusOne(nodes, a[0]), a[1..], b);
    }
  }

  /** A prefix that reaches past a. */
  lemma StatusPast(nodes: Nodes, a: seq<Write>, b: seq<Write>, calls: nat)
    requires |a| <= calls <= |a| + |b|
    ensures StatusAll(nodes, (a + b)[..calls]) == StatusAll(StatusAll(nodes, a), b[..calls - |a|])
  {
    assert (a + b)[..calls] == a + b[..calls - |a|];
    StatusConcat(nodes, a, b[..calls - |a|]);
  }

  predicate Quiet(w: Write) {
    !w.SetStatus? && !w.SetRetryWait? && !w.CompleteNode?
  }

  lemma {:induction false} QuietStatus(nodes: Nodes, ws: seq<Write>)
    requires forall w :: w in ws ==> Quiet(w)
    ensures StatusAll(nodes, ws) == nodes
  {
    if ws != [] {
      assert Quiet(ws[0]);
      QuietStatus(nodes, ws[1..]);
    }
  }

  /** How many of the cancellations xs are stored after so many of their calls;
    each has two. */
  function Stored(xs: seq<NodeId>, calls: int): (k: nat)
    ensures k <= |xs|
  {
    if calls <= 0 then 0 else if (calls + 1) / 2 <= |xs| then (calls + 1) / 2 else |xs|
  }

  predicate RowsOpen(nodes: Nodes, xs: seq<NodeId>) {
    forall x :: x in xs ==> x in nodes && !nodes[x].Terminal()
  }

  lemma CancelOne(nodes: Nodes, x: NodeId)
    requires x in nodes && !nodes[x].Terminal()
    ensures var two := [CompleteNode(x, Canceled), PublishEvent(NodeCanceled(x))];
      StatusAll(nodes, two[..1]) == StatusAll(nodes, two) == nodes[x := Canceled]
  {
    var two := [CompleteNode(x, Canceled), PublishEvent(NodeCanceled(x))];
    assert two[..1] == [two[0]] && two[1..] == [two[1]];
    assert StatusAll(nodes, [two[0]]) == StatusAll(nodes[x := Canceled], []);
    assert StatusAll(nodes[x := Canceled], [two[1]]) == StatusAll(nodes[x := Canceled], []);
  }

  lemma RestDistinct(nodes: Nodes, xs: seq<NodeId>)
    requires xs != [] && Distinct(xs) && RowsOpen(nodes, xs)
    ensures Distinct(xs[1..]) && RowsOpen(nodes[xs[0] := Canceled], xs[1..])
  {
    var rest := xs[1..];
    forall y | y in rest ensures y in xs && y != xs[0] {
      var i :| 0 <= i < |rest| && rest[i] == y;
      assert xs[i + 1] == y;
    }
  }

  lemma {:induction false} CancelPrefix(nodes: Nodes, xs: seq<NodeId>, calls: nat)
    requires Distinct(xs) && RowsOpen(nodes, xs) && calls <= |CancelWrites(xs)|
    ensures StatusAll(nodes, CancelWrites(xs)[..calls]) == CancelRows(nodes, xs[..Stored(xs, calls)])
    decreases |xs|
  {
    if calls == 0 || xs == [] {
      assert CancelRows(nodes, []) == nodes;
    } else {
      hide StatusOne, Distinct, RowsOpen;
      var x, rest := xs[0], xs[1..];
      var two := [CompleteNode(x, Canceled), PublishEvent(NodeCanceled(x))];
      var after := nodes[x := Canceled];
      if calls == 1 {
        assert CancelWrites(xs)[..1] == two[..1];
        CancelOne(nodes, x);
        assert xs[..1] == [x];
      } else {
        RestDistinct(nodes, xs);
        CancelPrefix(after, rest, calls - 2);
        StatusPast(nodes, two, CancelWrites(rest), calls);
        CancelOne(nodes, x);
        var k := Stored(rest, calls - 2);
        assert xs[..Stored(xs, calls)] == [x] + rest[..k];
      }
    }
  }

  lemma {:induction false} CancelWritesLength(xs: seq<NodeId>)
    ensures |CancelWrites(xs)| == 2 * |xs|
  {
    if xs != [] { CancelWritesLength(xs[1..]); }
  }

  /** The cancellations, and then calls that leave the rows alone. */
  lemma CancelThenQuiet(nodes: Nodes, xs: seq<NodeId>, tail: seq<Write>, calls: nat)
    requires Distinct(xs) && RowsOpen(nodes, xs) && calls <= |CancelWrites(xs)| + |tail|
    requires forall w :: w in tail ==> Quiet(w)
    ensures StatusAll(nodes, (CancelWrites(xs) + tail)[..calls]) == CancelRows(nodes, xs[..Stored(xs, calls)])
  {
    CancelWritesLength(xs);
    var ws := CancelWrites(xs);
    if calls <= |ws| {
      assert (ws + tail)[..calls] == ws[..calls];
      CancelPrefix(nodes, xs, calls);
    } else {
      StatusPast(nodes, ws, tail, calls);
      CancelPrefix(nodes, xs, |ws|);
      assert ws[..|ws|] == ws;
      QuietStatus(StatusAll(nodes, ws), tail[..calls - |ws|]);
    }
  }

  // ------------------------------------------------------------------------
  // The rows after a crash
  // ------------------------------------------------------------------------

  /** The statuses after the first calls of an operation. */
  ghost function RowsAfter(c: Config, mem: Memory, d: Disk, op: Op, calls: nat): Nodes {
    match op
    case Dispatch(n, _, published, canceled) =>
      if calls == 0 then d.status
      else if calls <= 2 then d.status[n := Dispatched]
      else if calls <= 4 || published then d.status[n := Running]
      else CancelRows(d.status[n := Failed], canceled[..Stored(canceled, calls - 5)])
    case Deliver(a, reply, canceled) =>
      if !Applies(c, mem, d, a) || calls < (if reply.Completed? then 2 else 3) then d.status
      else CancelRows(d.status[a.node := StateAfter(reply)], canceled[..Stored(canceled, calls - 4)])
    case Reap(a, _) => if Holds(mem, a.node) && calls >= 2 then d.status[a.node := Ready] else d.status
    case Wake(n) =>
      if n in mem.model.nodes && mem.model.nodes[n].RetryWait? && calls >= 1 then d.status[n := Ready] else d.status
    case Cancel(_, canceled) => CancelRows(d.status, canceled[..Stored(canceled, calls)])
    case Finalize => d.status
  }

  lemma {:induction false} TakeRows(nodes: Nodes, ws: seq<Write>, k: nat)
    requires k < |ws|
    ensures StatusAll(nodes, ws[..k + 1]) == StatusOne(StatusAll(nodes, ws[..k]), ws[k])
  {
    hide StatusOne;
    assert ws[..k + 1] == ws[..k] + [ws[k]];
    StatusConcat(nodes, ws[..k], [ws[k]]);
    assert [ws[k]][1..] == [];
  }

  lemma DispatchRowsAfter(nodes: Nodes, a: Attempt, expires: int, published: bool, canceled: seq<NodeId>, calls: nat)
    requires a.node in nodes && !nodes[a.node].Terminal() && calls <= |DispatchWrites(a, expires, published, canceled)|
    requires published || (Distinct(canceled) && a.node !in canceled && RowsOpen(nodes, canceled))
    ensures StatusAll(nodes, DispatchWrites(a, expires, published, canceled)[..calls]) ==
            if calls == 0 then nodes
            else if calls <= 2 then nodes[a.node := Dispatched]
            else if calls <= 4 || published then nodes[a.node := Running]
            else CancelRows(nodes[a.node := Failed], canceled[..Stored(canceled, calls - 5)])
  {
    var ws, n := DispatchWrites(a, expires, published, canceled), a.node;
    hide CancelWrites, StatusAll, CancelRows, Stored;
    assert |ws| >= 6;
    assert StatusAll(nodes, ws[..0]) == nodes by { NoStatus(nodes, ws); }
    if calls >= 1 { TakeRows(nodes, ws, 0); }
    if calls >= 2 { TakeRows(nodes, ws, 1); }
    if calls >= 3 { TakeRows(nodes, ws, 2); }
    if calls >= 4 { TakeRows(nodes, ws, 3); }
    if calls >= 5 {
      TakeRows(nodes, ws, 4);
      if published {
        if calls == 6 { TakeRows(nodes, ws, 5); }
      } else {
        var tail := [PublishEvent(NodeFailed(n))];
        assert nodes[n := Running][n := Failed] == nodes[n := Failed];
        assert StatusAll(nodes, ws[..5]) == nodes[n := Failed];
        assert ws == ws[..5] + (CancelWrites(canceled) + tail);
        StatusPast(nodes, ws[..5], CancelWrites(canceled) + tail, calls);
        CancelThenQuiet(nodes[n := Failed], canceled, tail, calls - 5);
      }
    }
  }

  lemma NoStatus(nodes: Nodes, ws: seq<Write>)
    ensures StatusAll(nodes, ws[..0]) == nodes
  {
  }

  lemma ResultRowsAfter(c: Config, nodes: Nodes, a: Attempt, reply: Reply, canceled: seq<NodeId>, calls: nat)
    requires a.node in nodes && !nodes[a.node].Terminal()
    requires calls <= |ResultHead(c, a, reply) + CancelWrites(canceled)|
    requires Distinct(canceled) && a.node !in canceled && RowsOpen(nodes, canceled)
    requires reply.Completed? || reply.Retry? ==> canceled == []
    ensures StatusAll(nodes, (ResultHead(c, a, reply) + CancelWrites(canceled))[..calls]) ==
            if calls < (if reply.Completed? then 2 else 3) then nodes
            else CancelRows(nodes[a.node := StateAfter(reply)], canceled[..Stored(canceled, calls - 4)])
  {
    hide CancelWrites, StatusAll, ResultHead, CancelRows;
    var head := ResultHead(c, a, reply);
    var after := nodes[a.node := StateAfter(reply)];
    HeadLength(c, a, reply);
    NoCancel(after);
    assert canceled[..0] == [];
    if calls < 4 {
      assert (head + CancelWrites(canceled))[..calls] == head[..calls];
      HeadRowsAfter(c, nodes, a, reply, calls);
    } else {
      HeadRowsAfter(c, nodes, a, reply, 4);
      assert head[..4] == head;
      StatusPast(nodes, head, CancelWrites(canceled), calls);
      CancelThenQuiet(after, canceled, [], calls - 4);
      assert CancelWrites(canceled) + [] == CancelWrites(canceled);
    }
  }

  lemma HeadLength(c: Config, a: Attempt, reply: Reply)
    ensures |ResultHead(c, a, reply)| == 4
  {
    hide LedgerKey;
  }

  lemma HeadRowsAfter(c: Config, nodes: Nodes, a: Attempt, reply: Reply, calls: nat)
    requires a.node in nodes && !nodes[a.node].Terminal() && calls <= 4 == |ResultHead(c, a, reply)|
    ensures StatusAll(nodes, ResultHead(c, a, reply)[..calls]) ==
            if calls < (if reply.Completed? then 2 else 3) then nodes else nodes[a.node := StateAfter(reply)]
  {
    hide StatusAll, LedgerKey;
    var ws := ResultHead(c, a, reply);
    NoStatus(nodes, ws);
    if calls >= 1 { TakeRows(nodes, ws, 0); }
    if calls >= 2 { TakeRows(nodes, ws, 1); }
    if calls >= 3 { TakeRows(nodes, ws, 2); }
    if calls >= 4 { TakeRows(nodes, ws, 3); }
  }

  /** RowsAfter is what a crash leaves behind. */
  lemma PrefixRows(c: Config, mem: Memory, d: Disk, op: Op, calls: nat)
    requires Closed(c.g) && Safe(c, d) && Mirrors(c, mem, d) && Enabled(c, mem, d, op) && calls <= |Writes(c, mem, d, op)|
    ensures Prefix(c, mem, d, op, calls).status == RowsAfter(c, mem, d, op, calls)
  {
    hide Safe, Mirrors, Closed, StatusAll, ApplyAll, ListsCanceled, Break, CancelAll, CancelRows, Stored, Fated, HasSlot;
    var ws := Writes(c, mem, d, op);
    StatusOfAll(d, ws[..calls]);
    match op {
      case Dispatch(n, expires, published, canceled) =>
        DispatchableFromMemory(c, mem, d, n);
        if !published { RejectedLists(c, mem, d, n, canceled); }
        DispatchRowsAfter(d.status, Attempt(n, Current(mem, n) + 1), expires, published, canceled, calls);
      case Deliver(a, reply, canceled) => DeliverRows(c, mem, d, op, calls);
      case Reap(a, worker) => ReapRows(c, mem, d, op, calls);
      case Wake(n) =>
        DueIsParked(c, mem, d, n);
        NoStatus(d.status, ws);
        if calls == 1 { TakeRows(d.status, ws, 0); }
      case Cancel(outcome, canceled) =>
        CancelListsOpen(c, mem, d, canceled);
        CancelThenQuiet(d.status, canceled, [FinishRun(RunCanceled), PublishEvent(RunFinished(outcome))], calls);
      case Finalize => QuietStatus(d.status, ws[..calls]);
    }
  }

  lemma DeliverRows(c: Config, mem: Memory, d: Disk, op: Op, calls: nat)
    requires Closed(c.g) && Safe(c, d) && Mirrors(c, mem, d) && Enabled(c, mem, d, op) && op.Deliver?
    requires calls <= |Writes(c, mem, d, op)|
    ensures StatusAll(d.status, Writes(c, mem, d, op)[..calls]) == RowsAfter(c, mem, d, op, calls)
  {
    hide Safe, Mirrors, Closed, StatusAll, ListsCanceled, Break, CancelRows, Stored, Fated, ResultHead;
    var a, reply, canceled, ws := op.attempt, op.reply, op.canceled, Writes(c, mem, d, op);
    if Applies(c, mem, d, a) {
      RunningRow(c, mem, d, a.node);
      if reply.GiveUp? || reply.Reject? { ResultLists(c, mem, d, a.node, StateAfter(reply), canceled); }
      ResultRowsAfter(c, d.status, a, reply, canceled, calls);
    } else {
      QuietStatus(d.status, ws[..calls]);
    }
  }

  lemma ReapRows(c: Config, mem: Memory, d: Disk, op: Op, calls: nat)
    requires Closed(c.g) && Safe(c, d) && Mirrors(c, mem, d) && Enabled(c, mem, d, op) && op.Reap?
    requires calls <= |Writes(c, mem, d, op)|
    ensures StatusAll(d.status, Writes(c, mem, d, op)[..calls]) == RowsAfter(c, mem, d, op, calls)
  {
    hide Safe, Mirrors, Closed, StatusAll;
    FlightAgrees(c, mem, d, op.attempt.node);
    var ws := Writes(c, mem, d, op);
    NoStatus(d.status, ws);
    if calls >= 1 { TakeRows(d.status, ws, 0); }
    if calls >= 2 { TakeRows(d.status, ws, 1); }
    if calls >= 3 { TakeRows(d.status, ws, 2); }
  }

  // ------------------------------------------------------------------------
  // Failures stored without their cancellations
  // ------------------------------------------------------------------------

  /** Some edge leads from the first k nodes of xs to the others. */
  ghost predicate Crosses(g: Graph, xs: seq<NodeId>, k: nat)
    requires k <= |xs|
  {
    exists e :: e in g.edges && e.from in xs[..k] && e.to in xs[k..]
  }

  lemma SameBroken(g: Graph, a: Nodes, b: Nodes)
    requires a.Keys == b.Keys
    requires forall v :: v in a ==> (a[v].Broken() <==> b[v].Broken()) && (a[v].Canceled? <==> b[v].Canceled?)
    ensures CancelClosed(g, a) <==> CancelClosed(g, b)
  {
  }

  /** Memory is closed under cancellation exactly if the rows are. */
  lemma MemoryClosedIff(c: Config, mem: Memory, d: Disk)
    requires Closed(c.g) && Safe(c, d) && Mirrors(c, mem, d)
    ensures CancelClosed(c.g, mem.model.nodes) <==> CancelClosed(c.g, d.status)
  {
    hide Safe, Mirrors, CancelClosed;
    TerminalRows(c, mem, d);
    SameBroken(c.g, mem.model.nodes, d.status);
  }

  /** A failure leaves the rows closed exactly when all its cancellations are
    stored. */
  lemma FailureClosedIff(c: Config, mem: Memory, d: Disk, n: NodeId, s: NodeState, xs: seq<NodeId>, k: nat)
    requires Closed(c.g) && Safe(c, d) && Mirrors(c, mem, d) && CancelClosed(c.g, d.status)
    requires n in mem.model.nodes && mem.model.nodes[n].Live() && HasFailed(s)
    requires ListsCanceled(xs, mem.model.nodes, Break(c.g, mem.model, n, s).nodes) && k <= |xs|
    ensures CancelClosed(c.g, CancelRows(d.status[n := s], xs[..k])) <==> k == |xs|
  {
    hide Safe, Mirrors, CancelClosed, Sound, Break, AllBelow, Below, Distinct, ListsCanceled;
    ResultLists(c, mem, d, n, s, xs);
    SafeKeys(c, d);
    TerminalRows(c, mem, d);
    if k == |xs| {
      assert xs[..k] == xs;
      LiveModelIsSound(c, mem, d);
      MemoryClosedIff(c, mem, d);
      BreakKeepsClosed(c.g, mem.model, n, s);
      BreakAsRows(c, mem, d, n, s, xs);
      SameBroken(c.g, Break(c.g, mem.model, n, s).nodes, CancelRows(d.status[n := s], xs));
    } else {
      NextStaysOpen(c.g, d.status, n, s, xs, k);
    }
  }

  lemma BreakAsRows(c: Config, mem: Memory, d: Disk, n: NodeId, s: NodeState, xs: seq<NodeId>)
    requires n in mem.model.nodes && HasFailed(s) && mem.model.nodes.Keys == d.status.Keys && n !in xs
    requires ListsCanceled(xs, mem.model.nodes, Break(c.g, mem.model, n, s).nodes)
    requires forall v :: v in d.status && mem.model.nodes[v].Terminal() ==> d.status[v] == mem.model.nodes[v]
    requires forall v :: v in d.status && !mem.model.nodes[v].Terminal() ==> OpenRow(d, v)
    ensures var after, rows := Break(c.g, mem.model, n, s).nodes, CancelRows(d.status[n := s], xs);
      && after.Keys == rows.Keys
      && forall v :: v in after ==> (after[v].Broken() <==> rows[v].Broken()) && (after[v].Canceled? <==> rows[v].Canceled?)
  {
    CancelTargetsAreUnfinished(c.g, mem.model.nodes[n := s], n);
    hide CancelTarget, Distinct;
  }

  lemma NextStaysOpen(g: Graph, nodes: Nodes, n: NodeId, s: NodeState, xs: seq<NodeId>, k: nat)
    requires Closed(g) && nodes.Keys == g.nodes && n in nodes && HasFailed(s) && n !in xs
    requires Distinct(xs) && k < |xs| && AllBelow(g, n, xs) && forall x :: x in xs ==> x in nodes && !nodes[x].Terminal()
    ensures !CancelClosed(g, CancelRows(nodes[n := s], xs[..k]))
  {
    hide CancelClosed, Below;
    var rows, x := CancelRows(nodes[n := s], xs[..k]), xs[k];
    assert x in xs && x !in xs[..k];
    if CancelClosed(g, rows) { BrokenSpreads(g, rows, n, x); }
  }

  /** A cancellation of the run leaves the rows closed exactly when no edge leads
    from what is stored of it to the rest. */
  lemma CancelClosedIff(c: Config, mem: Memory, d: Disk, xs: seq<NodeId>, k: nat)
    requires Closed(c.g) && Safe(c, d) && Mirrors(c, mem, d) && CancelClosed(c.g, d.status) && c.cancelable
    requires ListsCanceled(xs, mem.model.nodes, CancelAll(mem.model).nodes) && k <= |xs|
    ensures CancelClosed(c.g, CancelRows(d.status, xs[..k])) <==> !Crosses(c.g, xs, k)
  {
    hide Safe, Mirrors, Sound, CancelAll;
    CancelListsOpen(c, mem, d, xs);
    SafeKeys(c, d);
    var rows := CancelRows(d.status, xs[..k]);
    if Crosses(c.g, xs, k) {
      var e :| e in c.g.edges && e.from in xs[..k] && e.to in xs[k..];
      var i :| k <= i < |xs| && xs[i] == e.to;
      assert e.to in xs && e.from in xs && e.to !in xs[..k];
      assert rows[e.from].Broken() && !rows[e.to].Canceled?;
    } else {
      forall e | e in c.g.edges && e.from in rows && e.to in rows && rows[e.from].Broken() ensures rows[e.to].Canceled? {
        if !d.status[e.from].Broken() {
          SuccessorListed(c, mem, d, xs, e);
          assert e.to in xs[..k] || e.to in xs[k..] || d.status[e.to].Canceled?;
        }
      }
    }
  }

  lemma SuccessorListed(c: Config, mem: Memory, d: Disk, xs: seq<NodeId>, e: Edge)
    requires Closed(c.g) && Safe(c, d) && Mirrors(c, mem, d)
    requires ListsCanceled(xs, mem.model.nodes, CancelAll(mem.model).nodes)
    requires e in c.g.edges && e.from in xs
    ensures e.to in d.status && (d.status[e.to].Canceled? || e.to in xs)
  {
    hide Safe, Mirrors, Sound, Distinct;
    TerminalRows(c, mem, d);
    LiveModelIsSound(c, mem, d);
    UnlockedPred(c.g, mem.model, e);
  }

  // ------------------------------------------------------------------------
  // Blocked nodes under a broken one
  // ------------------------------------------------------------------------

  /** A predecessor of v is broken, but v was not canceled with it. */
  ghost predicate Orphaned(g: Graph, nodes: Nodes, v: NodeId) {
    v in nodes && nodes[v].Blocked? && BrokenPred(g, nodes, v)
  }

  /** v is among the nodes of xs after the first k, and directly below a root or
    one of the first k. */
  ghost predicate LeftBelow(g: Graph, roots: set<NodeId>, xs: seq<NodeId>, k: nat, v: NodeId)
    requires k <= |xs|
  {
    v in xs[k..] && exists u :: (u in roots || u in xs[..k]) && Edge(u, v) in g.edges
  }

  /** The crash stores a failure, or part of a cancellation, right above v but
    not the cancellation of v. */
  ghost predicate Tears(c: Config, mem: Memory, d: Disk, op: Op, calls: nat, v: NodeId) {
    match op
    case Dispatch(n, _, published, xs) => !published && calls >= 5 && LeftBelow(c.g, {n}, xs, Stored(xs, calls - 5), v)
    case Deliver(a, reply, xs) =>
      Applies(c, mem, d, a) && (reply.GiveUp? || reply.Reject?) && calls >= 3
      && LeftBelow(c.g, {a.node}, xs, Stored(xs, calls - 4), v)
    case Cancel(_, xs) => LeftBelow(c.g, {}, xs, Stored(xs, calls), v)
    case _ => false
  }

  predicate OpenIn(nodes: Nodes, v: NodeId) {
    v in nodes && !nodes[v].Terminal()
  }

  /** From nodes to after, v is orphaned exactly if torn, and stays so while it is
    open. */
  ghost predicate Orphans(g: Graph, nodes: Nodes, after: Nodes, torn: bool, v: NodeId) {
    && (Orphaned(g, after, v) <==> (Orphaned(g, nodes, v) || torn) && OpenIn(after, v))
    && (torn ==> OpenIn(after, v))
  }

  lemma RowOrphans(g: Graph, nodes: Nodes, n: NodeId, s: NodeState, v: NodeId)
    requires n in nodes && !nodes[n].Broken() && !s.Broken() && !s.Blocked? && !Orphaned(g, nodes, n)
    ensures Orphans(g, nodes, nodes[n := s], false, v)
  {
    var after := nodes[n := s];
    if Orphaned(g, nodes, v) {
      var u :| u in nodes && Edge(u, v) in g.edges && nodes[u].Broken();
      assert u in after && after[u].Broken();
    }
    if Orphaned(g, after, v) {
      var u :| u in after && Edge(u, v) in g.edges && after[u].Broken();
      assert u in nodes && nodes[u].Broken();
    }
  }

  lemma SameOrphans(g: Graph, nodes: Nodes, v: NodeId)
    ensures Orphans(g, nodes, nodes, false, v)
  {
  }

  /** Cancelling some blocked rows of a failure, or none, orphans what is left. */
  lemma FailureOrphans(c: Config, mem: Memory, d: Disk, n: NodeId, s: NodeState, xs: seq<NodeId>, k: nat, v: NodeId)
    requires Closed(c.g) && Safe(c, d) && Mirrors(c, mem, d) && HasFailed(s)
    requires n in mem.model.nodes && mem.model.nodes[n].Live() && !mem.model.nodes[n].RetryWait?
    requires ListsCanceled(xs, mem.model.nodes, Break(c.g, mem.model, n, s).nodes) && k <= |xs|
    ensures Orphans(c.g, d.status, CancelRows(d.status[n := s], xs[..k]), LeftBelow(c.g, {n}, xs, k, v), v)
  {
    hide Safe, Mirrors, Break, ListsCanceled, Orphans, Closed, Sound;
    BreakMirrors(c, mem, d, n, s, xs);
    ResultLists(c, mem, d, n, s, xs);
    TerminalRows(c, mem, d);
    LiveNotOrphaned(c, mem, d, n);
    forall u | (u == n || u in xs) && Edge(u, v) in c.g.edges && OpenIn(d.status, v) && v != n ensures v in xs {
      OpenInBoth(c, mem, d, v);
      SuccessorCanceled(c.g, mem.model, n, s, xs, u, v);
    }
    PartlyCanceled(c.g, d.status, d.status[n := s], n, xs, k, v);
  }

  lemma OpenInBoth(c: Config, mem: Memory, d: Disk, v: NodeId)
    requires Closed(c.g) && Safe(c, d) && Mirrors(c, mem, d) && OpenIn(d.status, v)
    ensures v in mem.model.nodes && !mem.model.nodes[v].Terminal()
  {
    hide Safe, Mirrors;
    TerminalRows(c, mem, d);
  }

  /** A live node has no broken predecessor. */
  lemma LiveNotOrphaned(c: Config, mem: Memory, d: Disk, n: NodeId)
    requires Closed(c.g) && Safe(c, d) && Mirrors(c, mem, d) && n in mem.model.nodes && mem.model.nodes[n].Live()
    ensures n in d.status && OpenIn(d.status, n) && !Orphaned(c.g, d.status, n)
  {
    hide Safe, Mirrors, Sound;
    OpenInMemory(c, mem, d, n);
    TerminalRows(c, mem, d);
    LiveModelIsSound(c, mem, d);
    forall u | u in d.status && Edge(u, n) in c.g.edges ensures !d.status[u].Broken() {
      UnlockedPred(c.g, mem.model, Edge(u, n));
    }
  }

  lemma SuccessorCanceled(g: Graph, m: Model, n: NodeId, s: NodeState, xs: seq<NodeId>, u: NodeId, v: NodeId)
    requires n in m.nodes && HasFailed(s) && ListsCanceled(xs, m.nodes, Break(g, m, n, s).nodes)
    requires (u == n || u in xs) && Edge(u, v) in g.edges && v in m.nodes && !m.nodes[v].Terminal() && v != n
    ensures v in xs
  {
    var nodes := m.nodes[n := s];
    hide CancelTarget, Distinct;
    assert u != n ==> CancelTarget(g, nodes, n, u);
    CancelTargetStep(g, nodes, n, u, v);
  }

  /** rows is nodes with n broken; the first k of xs are canceled in it. */
  lemma PartlyCanceled(g: Graph, nodes: Nodes, rows: Nodes, n: NodeId, xs: seq<NodeId>, k: nat, v: NodeId)
    requires n in nodes && !nodes[n].Terminal() && n in rows && rows[n].Broken() && rows == nodes[n := rows[n]]
    requires !Orphaned(g, nodes, n) && n !in xs && Distinct(xs) && k <= |xs|
    requires forall x :: x in xs ==> x in nodes && nodes[x].Blocked?
    requires forall u :: (u == n || u in xs) && Edge(u, v) in g.edges && OpenIn(nodes, v) && v != n ==> v in xs
    ensures Orphans(g, nodes, CancelRows(rows, xs[..k]), LeftBelow(g, {n}, xs, k, v), v)
  {
    var after := CancelRows(rows, xs[..k]);
    assert forall x :: x in xs[..k] || x in xs[k..] ==> x in xs;
    assert v in xs ==> v in xs[..k] || v in xs[k..];
    if LeftBelow(g, {n}, xs, k, v) {
      var u :| (u in {n} || u in xs[..k]) && Edge(u, v) in g.edges;
      LeftIsNotTaken(xs, k, v);
      assert u in after && after[u].Broken() && after[v] == nodes[v];
    }
    if Orphaned(g, nodes, v) && OpenIn(after, v) {
      var u :| u in nodes && Edge(u, v) in g.edges && nodes[u].Broken();
      assert u in after && after[u].Broken();
    }
    if Orphaned(g, after, v) && !Orphaned(g, nodes, v) {
      var u :| u in after && Edge(u, v) in g.edges && after[u].Broken();
      assert v != n && nodes[v].Blocked?;
      assert !nodes[u].Broken();
      assert u == n || u in xs[..k];
    }
  }

  lemma LeftIsNotTaken(xs: seq<NodeId>, k: nat, v: NodeId)
    requires Distinct(xs) && k <= |xs| && v in xs[k..]
    ensures v in xs && v !in xs[..k]
  {
    var i :| 0 <= i < |xs| - k && xs[k..][i] == v;
    assert xs[k + i] == v;
  }

  lemma CancelOrphans(c: Config, mem: Memory, d: Disk, xs: seq<NodeId>, k: nat, v: NodeId)
    requires Closed(c.g) && Safe(c, d) && Mirrors(c, mem, d) && c.cancelable
    requires ListsCanceled(xs, mem.model.nodes, CancelAll(mem.model).nodes) && k <= |xs|
    ensures Orphans(c.g, d.status, CancelRows(d.status, xs[..k]), LeftBelow(c.g, {}, xs, k, v), v)
  {
    hide Safe, Mirrors, Sound, Closed;
    CancelListsOpen(c, mem, d, xs);
    TerminalRows(c, mem, d);
    var nodes, after := d.status, CancelRows(d.status, xs[..k]);
    assert forall x :: x in xs[..k] || x in xs[k..] ==> x in xs;
    assert v in xs ==> v in xs[..k] || v in xs[k..];
    assert OpenIn(nodes, v) ==> v in xs;
    hide CancelAll, ListsCanceled;
    if LeftBelow(c.g, {}, xs, k, v) {
      var u: NodeId :| u in xs[..k] && Edge(u, v) in c.g.edges;
      LeftIsNotTaken(xs, k, v);
      BelowOpenIsBlocked(c, mem, d, u, v);
      assert u in after && after[u].Broken() && after[v] == nodes[v];
    }
    if Orphaned(c.g, nodes, v) && OpenIn(after, v) {
      var u :| u in nodes && Edge(u, v) in c.g.edges && nodes[u].Broken();
      assert u in after && after[u].Broken();
    }
    if Orphaned(c.g, after, v) && !Orphaned(c.g, nodes, v) {
      var u :| u in after && Edge(u, v) in c.g.edges && after[u].Broken();
      assert !nodes[u].Broken() && u in xs[..k];
    }
  }

  /** What is directly below an open node is blocked, if it is open. */
  lemma BelowOpenIsBlocked(c: Config, mem: Memory, d: Disk, u: NodeId, v: NodeId)
    requires Closed(c.g) && Safe(c, d) && Mirrors(c, mem, d)
    requires OpenIn(d.status, u) && OpenIn(d.status, v) && Edge(u, v) in c.g.edges
    ensures d.status[v].Blocked?
  {
    hide Mirrors;
    assert RowSafe(c, d, v) by { SafeKeys(c, d); }
    hide Safe;
  }

  /** Cut anywhere, an operation orphans exactly the nodes it tears off, and an
    orphan stays one as long as its row is open. */
  lemma PrefixTears(c: Config, mem: Memory, d: Disk, op: Op, calls: nat, v: NodeId)
    requires Closed(c.g) && Safe(c, d) && Mirrors(c, mem, d) && Enabled(c, mem, d, op)
    ensures Orphans(c.g, d.status, RowsAfter(c, mem, d, op, calls), Tears(c, mem, d, op, calls, v), v)
  {
    hide Safe, Mirrors, Closed, ListsCanceled, Break, CancelAll, CancelRows, Stored, Fated, HasSlot, LeftBelow, Orphans, Orphaned,
      Applies;
    SameOrphans(c.g, d.status, v);
    match op {
      case Dispatch(n, _, published, xs) =>
        LiveNotOrphaned(c, mem, d, n);
        ReadyShape(c, mem, d, n);
        RowOrphans(c.g, d.status, n, Dispatched, v);
        RowOrphans(c.g, d.status, n, Running, v);
        if !published && calls >= 5 {
          BreakStarted(c.g, mem.model, n, Failed);
          FailureOrphans(c, mem, d, n, Failed, xs, Stored(xs, calls - 5), v);
        }
      case Deliver(_, _, _) => DeliverTears(c, mem, d, op, calls, v);
      case Reap(a, _) =>
        FlightAgrees(c, mem, d, a.node);
        if Holds(mem, a.node) { MovingOrphans(c.g, d.status, a.node, Ready, v); }
      case Wake(n) =>
        DueIsParked(c, mem, d, n);
        MovingOrphans(c.g, d.status, n, Ready, v);
      case Cancel(_, xs) => CancelOrphans(c, mem, d, xs, Stored(xs, calls), v);
      case Finalize =>
    }
  }

  lemma MovingOrphans(g: Graph, nodes: Nodes, n: NodeId, s: NodeState, v: NodeId)
    requires n in nodes && nodes[n].Live() && !s.Broken() && !s.Blocked?
    ensures Orphans(g, nodes, nodes[n := s], false, v)
  {
    hide Orphans;
    RowOrphans(g, nodes, n, s, v);
  }

  lemma ReadyShape(c: Config, mem: Memory, d: Disk, n: NodeId)
    requires Closed(c.g) && Safe(c, d) && Mirrors(c, mem, d) && n in mem.model.nodes && mem.model.nodes[n].Ready?
    ensures n in d.status && (d.status[n].Blocked? || d.status[n].Ready?)
  {
    hide Safe, Mirrors, SpentUpTo, PredsDone;
    RowOf(c, mem, d, n);
  }

  lemma DeliverTears(c: Config, mem: Memory, d: Disk, op: Op, calls: nat, v: NodeId)
    requires Closed(c.g) && Safe(c, d) && Mirrors(c, mem, d) && Enabled(c, mem, d, op) && op.Deliver?
    ensures Orphans(c.g, d.status, RowsAfter(c, mem, d, op, calls), Tears(c, mem, d, op, calls, v), v)
  {
    hide Safe, Mirrors, Closed, ListsCanceled, Break, CancelRows, Stored, Fated, LeftBelow, Orphans;
    var a, reply, xs := op.attempt, op.reply, op.canceled;
    SameOrphans(c.g, d.status, v);
    if Applies(c, mem, d, a) {
      RunningRow(c, mem, d, a.node);
      var s, k := StateAfter(reply), Stored(xs, calls - 4);
      if reply.GiveUp? || reply.Reject? {
        FailureOrphans(c, mem, d, a.node, s, xs, k, v);
      } else {
        assert xs[..k] == [];
        NoCancel(d.status[a.node := s]);
        MovingOrphans(c.g, d.status, a.node, s, v);
      }
    }
  }

  /** Where the preconditions of unlocked rows hold, there is no orphan exactly if
    everything directly below a broken row is canceled. */
  lemma NoOrphanIffClosed(c: Config, d: Disk)
    requires Closed(c.g) && Safe(c, d)
    ensures (forall v :: !Orphaned(c.g, d.status, v)) <==> CancelClosed(c.g, d.status)
  {
    SafeKeys(c, d);
    if forall v :: !Orphaned(c.g, d.status, v) {
      forall e | e in c.g.edges && e.from in d.status && e.to in d.status && d.status[e.from].Broken()
        ensures d.status[e.to].Canceled?
      {
        assert Edge(e.from, e.to) == e;
        assert RowSafe(c, d, e.to);
        assert BrokenPred(c.g, d.status, e.to);
        assert !Orphaned(c.g, d.status, e.to);
        assert d.status[e.to].Unlocked() ==> HasSucceeded(d.status, e.from);
      }
    }
  }

  // ------------------------------------------------------------------------
  // Stranded nodes
  // ------------------------------------------------------------------------

  /** v is in flight and lost, or blocked under a broken node. */
  ghost predicate Stranded(c: Config, d: Disk, v: NodeId) {
    Lost(c, d, v) || Orphaned(c.g, d.status, v)
  }

  ghost predicate Strands(c: Config, mem: Memory, d: Disk, op: Op, calls: nat, v: NodeId) {
    Loses(c, mem, d, op, calls, v) || Tears(c, mem, d, op, calls, v)
  }

  /** Cut anywhere, an operation strands a node exactly in these windows: inside
    a dispatch before its lease is opened, inside a failure between the close of
    the lease and the row, in the middle of a reap or right after a claim if the
    attempt has nothing left to be recovered by, and after a failure or part of
    a cancellation while the cancellation of the node below is not stored. A
    stranded node stays stranded as long as its row is open. */
  lemma StrandedIff(c: Config, mem: Memory, d: Disk, op: Op, calls: nat, v: NodeId)
    requires Closed(c.g) && Safe(c, d) && Mirrors(c, mem, d) && Enabled(c, mem, d, op)
    requires calls <= |Writes(c, mem, d, op)|
    ensures var e := Prefix(c, mem, d, op, calls);
      && (Stranded(c, e, v) <==> (Stranded(c, d, v) || Strands(c, mem, d, op, calls, v)) && OpenRow(e, v))
      && (Strands(c, mem, d, op, calls, v) ==> OpenRow(e, v))
  {
    hide Safe, Mirrors, Closed, Enabled, Writes, Loses, Tears, RowsAfter, Prefix, Lost, Orphaned;
    PrefixLoses(c, mem, d, op, calls, v);
    PrefixTears(c, mem, d, op, calls, v);
    PrefixRows(c, mem, d, op, calls);
  }

  /** An operation that is not cut short strands nothing. */
  lemma NoneStrandedAtEnd(c: Config, mem: Memory, d: Disk, op: Op, v: NodeId)
    ensures !Strands(c, mem, d, op, |Writes(c, mem, d, op)|, v)
  {
    hide Applies, CancelWrites, LedgerKey, Recoverable;
    match op {
      case Dispatch(_, _, _, xs) =>
        CancelWritesLength(xs);
        assert xs[|xs|..] == [];
      case Deliver(_, _, xs) =>
        CancelWritesLength(xs);
        assert xs[|xs|..] == [];
      case Cancel(_, xs) =>
        CancelWritesLength(xs);
        assert xs[|xs|..] == [];
      case _ =>
    }
  }
}
