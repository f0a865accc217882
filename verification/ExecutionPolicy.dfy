/** Which resource a node needs (engine/core/src/execution_policy.cpp). */
module ExecutionPolicies {
  import opened Ids
  import opened Decimals
  import opened Dags

  datatype ResourceClass = Internal | Browser | ExternalIo

  datatype ResourcePolicy = ResourcePolicy(klass: ResourceClass, key: string, capacity: int)

  const UNBOUNDED := 0x10_0000

  function ClassIndex(k: ResourceClass): nat {
    match k
    case Internal => 0
    case Browser => 1
    case ExternalIo => 2
  }

  function CapacityKey(k: ResourceClass, key: string): string {
    Decimal(ClassIndex(k)) + ":" + key
  }

  predicate IsBrowserType(t: string) {
    t == "open-url" || t == "act" || t == "extract" || t == "observe" || t == "agent"
  }

  class ExecutionPolicy {
    const run: string
    var nodeAffinity: map<NodeId, string>
    var typeAffinity: map<string, string>
    var capacities: map<string, int>

    constructor (run: string)
      ensures this.run == run && nodeAffinity == map[] && typeAffinity == map[] && capacities == map[]
    {
      this.run := run;
      nodeAffinity, typeAffinity, capacities := map[], map[], map[];
    }

    function CapacityFor(k: ResourceClass, key: string): int
      reads this
    {
      if CapacityKey(k, key) in capacities then capacities[CapacityKey(k, key)]
      else if k.Browser? then 1
      else UNBOUNDED
    }

    function PolicyFor(spec: NodeSpec): ResourcePolicy
      reads this
    {
      if spec.id in nodeAffinity then Browsing(nodeAffinity[spec.id])
      else if spec.typ == "start" then ResourcePolicy(Internal, "", UNBOUNDED)
      else if spec.typ == "send-email" then ResourcePolicy(ExternalIo, "email", CapacityFor(ExternalIo, "email"))
      else if spec.typ in typeAffinity then Browsing(typeAffinity[spec.typ])
      else if IsBrowserType(spec.typ) then Browsing(run)
      else ResourcePolicy(Internal, "", UNBOUNDED)
    }

    function Browsing(key: string): ResourcePolicy
      reads this
    {
      ResourcePolicy(Browser, key, CapacityFor(Browser, key))
    }

    method SetNodeAffinity(id: NodeId, key: string)
      modifies this
      ensures nodeAffinity == old(nodeAffinity)[id := key]
      ensures typeAffinity == old(typeAffinity) && capacities == old(capacities)
    {
      nodeAffinity := nodeAffinity[id := key];
    }

    method SetTypeAffinity(t: string, key: string)
      modifies this
      ensures typeAffinity == old(typeAffinity)[t := key]
      ensures nodeAffinity == old(nodeAffinity) && capacities == old(capacities)
    {
      typeAffinity := typeAffinity[t := key];
    }

    /** Overrides one class and key only. */
    method SetCapacity(k: ResourceClass, key: string, cap: int)
      modifies this
      ensures nodeAffinity == old(nodeAffinity) && typeAffinity == old(typeAffinity)
      ensures forall k', key' :: CapacityFor(k', key') ==
                                 if k' == k && key' == key then cap else old(CapacityFor(k', key'))
    {
      label before:
      capacities := capacities[CapacityKey(k, key) := cap];
      forall k', key' ensures CapacityKey(k', key') == CapacityKey(k, key) <==> k' == k && key' == key {
        CapacityKeyInjective(k, key, k', key');
      }
    }

    /** Without overrides a node on the run's own browser session has capacity 1,
      and so has every other node on it, unless the run is called email. */
    lemma DefaultBrowserSession(x: NodeSpec, y: NodeSpec)
      requires nodeAffinity == map[] && typeAffinity == map[] && capacities == map[]
      requires IsBrowserType(x.typ)
      ensures PolicyFor(x) == ResourcePolicy(Browser, run, 1)
      ensures PolicyFor(y).key == run != "" ==>
                (PolicyFor(y).capacity == 1 <==> !(run == "email" && y.typ == "send-email"))
    {
    }
  }

  lemma CapacityKeyInjective(k: ResourceClass, key: string, k': ResourceClass, key': string)
    ensures CapacityKey(k', key') == CapacityKey(k, key) <==> k' == k && key' == key
  {
    var d, d' := Decimal(ClassIndex(k)), Decimal(ClassIndex(k'));
    assert |d| == 1 && |d'| == 1;
    if CapacityKey(k', key') == CapacityKey(k, key) {
      assert d == CapacityKey(k, key)[..1] && d' == CapacityKey(k', key')[..1];
      DecimalInjective(ClassIndex(k), ClassIndex(k'));
      assert key == CapacityKey(k, key)[2..] && key' == CapacityKey(k', key')[2..];
    }
  }
}
