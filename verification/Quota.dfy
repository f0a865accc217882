/** The tenant quota gate: admission of runs, and task slots granted to the
  least-served organization (engine/core/src/quota.cpp). */
module Quotas {
  import opened Ids
  import opened Sorting
  import opened ExecutionPolicies

  type Org = string

  datatype QuotaConfig = QuotaConfig(
    runsPerOrg: int,
    runsGlobal: int,
    tasksPerOrg: int,
    classCapacity: map<ResourceClass, int>,
    fair: bool,
    weights: map<Org, int>,
    demandTimeout: int)

  const DEFAULT_DEMAND_TIMEOUT := 5000

  /** The fields of a gate. demand holds when each organization last asked. */
  datatype Gate = Gate(
    cfg: QuotaConfig,
    runs: map<Org, int>,
    totalRuns: int,
    tasks: map<Org, int>,
    classes: map<ResourceClass, int>,
    served: map<ResourceClass, map<Org, int>>,
    demand: map<ResourceClass, map<Org, int>>)

  function Count<K>(m: map<K, int>, k: K): int {
    if k in m then m[k] else 0
  }

  function Weight(cfg: QuotaConfig, org: Org): (w: int)
    ensures w >= 1
  {
    if org in cfg.weights && cfg.weights[org] >= 1 then cfg.weights[org] else 1
  }

  function Timeout(cfg: QuotaConfig): int {
    if cfg.demandTimeout > 0 then cfg.demandTimeout else DEFAULT_DEMAND_TIMEOUT
  }

  function Asking(m: map<ResourceClass, map<Org, int>>, k: ResourceClass): map<Org, int> {
    if k in m then m[k] else map[]
  }

  function Served(g: Gate, k: ResourceClass, org: Org): int {
    Count(Asking(g.served, k), org)
  }

  function Fresh(cfg: QuotaConfig, demand: map<Org, int>, now: int): map<Org, int> {
    map o | o in demand && now - demand[o] <= Timeout(cfg) :: demand[o]
  }

  predicate Capped(cfg: QuotaConfig, k: ResourceClass) {
    k in cfg.classCapacity && cfg.classCapacity[k] > 0
  }

  predicate OrgFull(g: Gate, org: Org) {
    g.cfg.tasksPerOrg > 0 && Count(g.tasks, org) >= g.cfg.tasksPerOrg
  }

  predicate ClassFull(g: Gate, k: ResourceClass) {
    Capped(g.cfg, k) && Count(g.classes, k) >= g.cfg.classCapacity[k]
  }

  // ------------------------------------------------------------------------
  // Whose turn it is
  // ------------------------------------------------------------------------

  /** a's served/weight is below b's; ties go to the smaller id. */
  predicate Before(cfg: QuotaConfig, served: map<Org, int>, a: Org, b: Org) {
    var x, y := Count(served, a) * Weight(cfg, b), Count(served, b) * Weight(cfg, a);
    x < y || (x == y && Less(a, b))
  }

  lemma {:induction false} CrossTransitive(a: int, wa: int, b: int, wb: int, c: int, wc: int)
    requires wa >= 1 && wb >= 1 && wc >= 1 && a * wb <= b * wa && b * wc <= c * wb
    ensures a * wc <= c * wa
    ensures a * wb < b * wa || b * wc < c * wb ==> a * wc < c * wa
  {
    ScaleOrder(a * wb, b * wa, wc);
    ScaleOrder(b * wc, c * wb, wa);
    assert a * wb * wc == wb * (a * wc) && b * wa * wc == b * wc * wa && c * wb * wa == wb * (c * wa);
    if a * wc > c * wa { ScaleOrder(c * wa, a * wc, wb); }
    if a * wc == c * wa { assert wb * (a * wc) == wb * (c * wa); }
  }

  lemma ScaleOrder(x: int, y: int, w: int)
    requires x <= y && w >= 1
    ensures x * w <= y * w && (x < y ==> x * w < y * w)
  {
  }

  lemma BeforeTransitive(cfg: QuotaConfig, served: map<Org, int>, a: Org, b: Org, c: Org)
    requires Before(cfg, served, a, b) && Before(cfg, served, b, c)
    ensures Before(cfg, served, a, c)
  {
    CrossTransitive(Count(served, a), Weight(cfg, a), Count(served, b), Weight(cfg, b), Count(served, c), Weight(cfg, c));
    if Count(served, a) * Weight(cfg, c) == Count(served, c) * Weight(cfg, a) { LessTransitive(a, b, c); }
  }

  lemma BeforeAsymmetric(cfg: QuotaConfig, served: map<Org, int>, a: Org, b: Org)
    requires Before(cfg, served, a, b)
    ensures a != b && !Before(cfg, served, b, a)
  {
    if Less(a, b) { LessAsymmetric(a, b); }
  }

  /** No other named organization among those asking comes before org. The
    empty id is never preferred. */
  ghost predicate MyTurn(cfg: QuotaConfig, served: map<Org, int>, asking: map<Org, int>, org: Org) {
    forall o :: o in asking && o != "" && o != org ==> org != "" && Before(cfg, served, org, o)
  }

  // ------------------------------------------------------------------------
  // What the operations do
  // ------------------------------------------------------------------------

  /** A fair gate arbitrates classes of finite capacity only. */
  predicate Arbitrated(cfg: QuotaConfig, k: ResourceClass) {
    cfg.fair && Capped(cfg, k)
  }

  function Register(g: Gate, org: Org, k: ResourceClass, now: int): Gate {
    g.(demand := g.demand[k := Asking(g.demand, k)[org := now]])
  }

  /** The demand that the selection sees, stale entries dropped. */
  function Swept(g: Gate, org: Org, k: ResourceClass, now: int): Gate {
    var r := Register(g, org, k, now);
    r.(demand := r.demand[k := Fresh(g.cfg, r.demand[k], now)])
  }

  ghost predicate Granted(g: Gate, org: Org, k: ResourceClass, now: int) {
    && !OrgFull(g, org) && !ClassFull(g, k)
    && (Arbitrated(g.cfg, k) ==> MyTurn(g.cfg, Asking(g.served, k), Swept(g, org, k, now).demand[k], org))
  }

  function Grant(g: Gate, org: Org, k: ResourceClass): Gate {
    var h := g.(tasks := g.tasks[org := Count(g.tasks, org) + 1], classes := g.classes[k := Count(g.classes, k) + 1]);
    if g.cfg.fair then
      h.(served := g.served[k := Asking(g.served, k)[org := Served(g, k, org) + 1]],
         demand := g.demand[k := Asking(g.demand, k) - {org}])
    else h
  }

  /** An arbitrated class remembers who asked, granted or not. */
  function Asked(g: Gate, org: Org, k: ResourceClass, now: int): Gate {
    if OrgFull(g, org) || !Arbitrated(g.cfg, k) then g
    else if ClassFull(g, k) then Register(g, org, k, now)
    else Swept(g, org, k, now)
  }

  ghost function Acquire(g: Gate, org: Org, k: ResourceClass, now: int): Gate {
    if Granted(g, org, k, now) then Grant(Asked(g, org, k, now), org, k) else Asked(g, org, k, now)
  }

  function Reacquire(g: Gate, org: Org, k: ResourceClass): Gate {
    g.(tasks := g.tasks[org := Count(g.tasks, org) + 1], classes := g.classes[k := Count(g.classes, k) + 1])
  }

  function Decrement<K>(m: map<K, int>, k: K): map<K, int> {
    if Count(m, k) > 0 then m[k := m[k] - 1] else m
  }

  function ReleaseSlot(g: Gate, org: Org, k: ResourceClass): Gate {
    g.(tasks := Decrement(g.tasks, org), classes := Decrement(g.classes, k))
  }

  class TenantQuotaGate {
    const cfg: QuotaConfig
    var runs: map<Org, int>
    var totalRuns: int
    var tasks: map<Org, int>
    var classes: map<ResourceClass, int>
    var served: map<ResourceClass, map<Org, int>>
    var demand: map<ResourceClass, map<Org, int>>

    ghost function Value(): Gate
      reads this
    {
      Gate(cfg, runs, totalRuns, tasks, classes, served, demand)
    }

    constructor (cfg: QuotaConfig)
      ensures Value() == Gate(cfg, map[], 0, map[], map[], map[], map[])
    {
      this.cfg := cfg;
      runs, totalRuns, tasks, classes, served, demand := map[], 0, map[], map[], map[], map[];
    }

    method AdmitRun(org: Org) returns (admitted: bool)
      modifies this
      ensures admitted <==> !(cfg.runsPerOrg > 0 && Count(old(runs), org) >= cfg.runsPerOrg) &&
                            !(cfg.runsGlobal > 0 && old(totalRuns) >= cfg.runsGlobal)
      ensures var g := old(Value());
        Value() == if admitted then g.(runs := g.runs[org := Count(g.runs, org) + 1], totalRuns := g.totalRuns + 1) else g
    {
      var mine := if org in runs then runs[org] else 0;
      if cfg.runsPerOrg > 0 && mine >= cfg.runsPerOrg { return false; }
      if cfg.runsGlobal > 0 && totalRuns >= cfg.runsGlobal { return false; }
      runs := runs[org := mine + 1];
      totalRuns := totalRuns + 1;
      admitted := true;
    }

    method ReadmitRun(org: Org)
      modifies this
      ensures var g := old(Value());
        Value() == g.(runs := g.runs[org := Count(g.runs, org) + 1], totalRuns := g.totalRuns + 1)
    {
      runs := runs[org := Count(runs, org) + 1];
      totalRuns := totalRuns + 1;
    }

    method ReleaseRun(org: Org)
      modifies this
      ensures var g := old(Value());
        Value() == if Count(g.runs, org) > 0
                   then g.(runs := Decrement(g.runs, org), totalRuns := if g.totalRuns > 0 then g.totalRuns - 1 else g.totalRuns)
                   else g
    {
      if org in runs && runs[org] > 0 {
        runs := runs[org := runs[org] - 1];
        if totalRuns > 0 { totalRuns := totalRuns - 1; }
      }
    }

    method AcquireTask(org: Org, k: ResourceClass, now: int) returns (granted: bool)
      modifies this
      ensures granted <==> Granted(old(Value()), org, k, now)
      ensures Value() == Acquire(old(Value()), org, k, now)
    {
      hide MyTurn, IsRecipient, Grant, Fresh;
      if cfg.tasksPerOrg > 0 && Count(tasks, org) >= cfg.tasksPerOrg { return false; }
      var capped := k in cfg.classCapacity && cfg.classCapacity[k] > 0;
      if cfg.fair && capped {
        demand := demand[k := Asking(demand, k)[org := now]];
        if Count(classes, k) >= cfg.classCapacity[k] { return false; }
        var recipient := FairRecipient(k, now);
        AskerIsFresh(cfg, Asking(old(demand), k), org, now);
        RecipientDecides(cfg, Asking(served, k), demand[k], org, recipient);
        if recipient != "" && recipient != org { return false; }
      } else if capped && Count(classes, k) >= cfg.classCapacity[k] {
        return false;
      }
      CountGrant(org, k);
      granted := true;
    }

    method CountGrant(org: Org, k: ResourceClass)
      modifies this
      ensures Value() == Grant(old(Value()), org, k)
    {
      tasks := tasks[org := Count(tasks, org) + 1];
      classes := classes[k := Count(classes, k) + 1];
      if cfg.fair {
        var mine := Asking(served, k);
        served := served[k := mine[org := Count(mine, org) + 1]];
        demand := demand[k := Asking(demand, k) - {org}];
      }
    }

    /** Drops stale demand, then scans what is left in id order. */
    method FairRecipient(k: ResourceClass, now: int) returns (best: Org)
      requires k in demand
      modifies this`demand
      ensures demand == old(demand)[k := Fresh(cfg, old(demand)[k], now)]
      ensures IsRecipient(cfg, Asking(served, k), demand[k].Keys, best)
    {
      demand := demand[k := Fresh(cfg, demand[k], now)];
      ghost var asking := demand;
      var orgs := SortedKeys(demand[k].Keys);
      best := "";
      for i := 0 to |orgs|
        invariant demand == asking && IsRecipient(cfg, Asking(served, k), Elements(orgs[..i]), best)
      {
        var org := orgs[i];
        var mine := if k in served && org in served[k] then served[k][org] else 0;
        var its := if k in served && best in served[k] then served[k][best] else 0;
        ghost var before := best;
        if best == "" || mine * Weight(cfg, best) < its * Weight(cfg, org) { best := org; }
        RecipientStep(cfg, Asking(served, k), orgs, i, before, best);
      }
      assert orgs[..|orgs|] == orgs && Elements(orgs) == demand[k].Keys;
    }

    method ReleaseTask(org: Org, k: ResourceClass)
      modifies this
      ensures Value() == ReleaseSlot(old(Value()), org, k)
    {
      if org in tasks && tasks[org] > 0 { tasks := tasks[org := tasks[org] - 1]; }
      if k in classes && classes[k] > 0 { classes := classes[k := classes[k] - 1]; }
    }

    method ReacquireTask(org: Org, k: ResourceClass)
      modifies this
      ensures Value() == Reacquire(old(Value()), org, k)
    {
      tasks := tasks[org := Count(tasks, org) + 1];
      classes := classes[k := Count(classes, k) + 1];
    }
  }

  ghost predicate IsRecipient(cfg: QuotaConfig, served: map<Org, int>, asking: set<Org>, best: Org) {
    && (best != "" ==> best in asking)
    && forall o :: o in asking && o != "" && o != best ==> best != "" && Before(cfg, served, best, o)
  }

  lemma RecipientStep(cfg: QuotaConfig, served: map<Org, int>, orgs: seq<Org>, i: nat, before: Org, best: Org)
    requires i < |orgs| && StrictlySorted(Less, orgs) && IsRecipient(cfg, served, Elements(orgs[..i]), before)
    requires var mine, its := Count(served, orgs[i]) * Weight(cfg, before), Count(served, before) * Weight(cfg, orgs[i]);
      best == if before == "" || mine < its then orgs[i] else before
    ensures IsRecipient(cfg, served, Elements(orgs[..i + 1]), best)
  {
    var org := orgs[i];
    assert orgs[..i + 1] == orgs[..i] + [org];
    assert Elements(orgs[..i + 1]) == Elements(orgs[..i]) + {org};
    if before != "" {
      assert before in orgs[..i];
      var j :| 0 <= j < i && orgs[j] == before;
      assert Less(orgs[j], orgs[i]);
      if best == org {
        assert Before(cfg, served, org, before);
        forall o | o in orgs[..i] && o != "" ensures Before(cfg, served, org, o) {
          if o != before { BeforeTransitive(cfg, served, org, before, o); }
        }
      }
    }
  }

  lemma AskerIsFresh(cfg: QuotaConfig, demand: map<Org, int>, org: Org, now: int)
    ensures org in Fresh(cfg, demand[org := now], now)
  {
  }

  lemma RecipientDecides(cfg: QuotaConfig, served: map<Org, int>, asking: map<Org, int>, org: Org, best: Org)
    requires org in asking && IsRecipient(cfg, served, asking.Keys, best)
    ensures best == "" || best == org <==> MyTurn(cfg, served, asking, org)
  {
    if best != "" && best != org && org != "" && MyTurn(cfg, served, asking, org) {
      BeforeAsymmetric(cfg, served, best, org);
    }
  }
}
