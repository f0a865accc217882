/** How a resumed loop rebuilds its bookkeeping one row at a time
  (engine/core/src/distributed_run_loop.cpp). */
module Bookkeeping {
  import opened Ids
  import opened StateMachines
  import opened Storage
  import opened DiskSafety
  import opened Protocol

  /** The rows of some nodes only. */
  ghost function Restricted(d: Disk, ns: set<NodeId>): Disk {
    d.(status := map n | n in d.status && n in ns :: d.status[n])
  }

  lemma RestrictedGrows(d: Disk, ns: set<NodeId>, id: NodeId)
    requires id in d.status && id !in ns
    ensures Restricted(d, ns + {id}).status == Restricted(d, ns).status[id := d.status[id]]
    ensures id !in Restricted(d, ns).status
  {
  }

  lemma WholeIsRestricted(d: Disk, ns: set<NodeId>)
    requires forall n :: n in ns <==> n in d.status
    ensures Restricted(d, ns) == d
  {
    assert Restricted(d, ns).status == d.status;
  }

  lemma NothingRecovered(c: Config, d: Disk)
    ensures var e := Restricted(d, {});
      AttemptNumbers(e) == map[] && Timers(e) == map[] && SlotsUsed(c, e.status) == map[] && InFlight(e.status) == {}
  {
    assert Restricted(d, {}).status == map[];
  }

  lemma MoreAttempts(d: Disk, ns: set<NodeId>, id: NodeId)
    requires id in d.status && id !in ns
    ensures AttemptNumbers(Restricted(d, ns + {id})) == AttemptNumbers(Restricted(d, ns))[id := AttemptCount(d, id)]
  {
    RestrictedGrows(d, ns, id);
    var e, e' := Restricted(d, ns), Restricted(d, ns + {id});
    forall n ensures AttemptCount(e', n) == AttemptCount(d, n) && AttemptCount(e, n) == AttemptCount(d, n) { }
    hide Restricted, AttemptCount;
    assert AttemptNumbers(e').Keys == AttemptNumbers(e).Keys + {id};
  }

  lemma MoreTimers(d: Disk, ns: set<NodeId>, id: NodeId)
    requires id in d.status && id !in ns
    ensures Timers(Restricted(d, ns + {id})) ==
            if d.status[id].RetryWait? && id in d.until && d.until[id] > 0
            then Timers(Restricted(d, ns))[id := d.until[id]]
            else Timers(Restricted(d, ns))
  {
    RestrictedGrows(d, ns, id);
    var e, e' := Restricted(d, ns), Restricted(d, ns + {id});
    assert e'.until == e.until == d.until;
    hide Restricted;
  }

  lemma MoreInFlight(nodes: Nodes, id: NodeId, s: NodeState)
    requires id !in nodes
    ensures InFlight(nodes[id := s]) == if s.InFlight() then InFlight(nodes) + {id} else InFlight(nodes)
  {
  }

  lemma MoreSlots(c: Config, nodes: Nodes, id: NodeId, s: NodeState)
    requires id !in nodes
    ensures var used, key := SlotsUsed(c, nodes), c.policy(id).key;
      SlotsUsed(c, nodes[id := s]) ==
      if s.InFlight() && key != "" then used[key := (if key in used then used[key] else 0) + 1] else used
  {
    hide InFlightWith, SlotsUsed;
    var nodes' := nodes[id := s];
    SlotKeys(c, nodes, id, s);
    NoUnnamedSlot(c, nodes');
    forall k | k in SlotsUsed(c, nodes')
      ensures SlotsUsed(c, nodes')[k] == (if k in SlotsUsed(c, nodes) then SlotsUsed(c, nodes)[k] else 0)
                                         + if s.InFlight() && k == c.policy(id).key then 1 else 0 {
      SlotCount(c, nodes, k);
      SlotCount(c, nodes', k);
      OneMoreInFlight(c, nodes, id, s, k);
    }
  }

  lemma NoUnnamedSlot(c: Config, nodes: Nodes)
    ensures "" !in SlotsUsed(c, nodes)
  {
  }

  lemma SlotCount(c: Config, nodes: Nodes, k: string)
    requires k != ""
    ensures |InFlightWith(c, nodes, k)| == if k in SlotsUsed(c, nodes) then SlotsUsed(c, nodes)[k] else 0
  {
    if k !in SlotsUsed(c, nodes) {
      assert InFlightWith(c, nodes, k) == {};
    }
  }

  lemma OneMoreInFlight(c: Config, nodes: Nodes, id: NodeId, s: NodeState, k: string)
    requires id !in nodes
    ensures |InFlightWith(c, nodes[id := s], k)| ==
            |InFlightWith(c, nodes, k)| + if s.InFlight() && k == c.policy(id).key then 1 else 0
  {
    if s.InFlight() && k == c.policy(id).key {
      assert InFlightWith(c, nodes[id := s], k) == InFlightWith(c, nodes, k) + {id};
    } else {
      assert InFlightWith(c, nodes[id := s], k) == InFlightWith(c, nodes, k);
    }
  }

  lemma SlotKeys(c: Config, nodes: Nodes, id: NodeId, s: NodeState)
    requires id !in nodes
    ensures SlotsUsed(c, nodes[id := s]).Keys ==
            SlotsUsed(c, nodes).Keys + if s.InFlight() && c.policy(id).key != "" then {c.policy(id).key} else {}
  {
    hide InFlightWith;
    var nodes', key := nodes[id := s], c.policy(id).key;
    forall k | k in SlotsUsed(c, nodes).Keys ensures k in SlotsUsed(c, nodes').Keys {
      var n :| n in nodes && nodes[n].InFlight() && c.policy(n).key == k && k != "";
      assert n in nodes' && nodes'[n].InFlight();
    }
    forall k | k in SlotsUsed(c, nodes').Keys
      ensures k in SlotsUsed(c, nodes).Keys || (s.InFlight() && k == key)
    {
      var n :| n in nodes' && nodes'[n].InFlight() && c.policy(n).key == k && k != "";
      if n != id { assert n in nodes && nodes[n].InFlight(); }
    }
    if s.InFlight() && key != "" { assert id in nodes' && nodes'[id].InFlight(); }
  }
}
