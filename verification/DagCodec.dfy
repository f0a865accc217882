/** The canonical JSON form of a DAG, from which a resumed run restores its
  topology (engine/core/src/dag.cpp). */
module DagCodec {
  import opened Ids
  import opened Graphs
  import opened Sorting
  import opened Decimals
  import opened Dags
  import opened Json
  import opened JsonRoundTrip
  import JsonParser

  predicate SpecLess(a: NodeSpec, b: NodeSpec) {
    Less(a.id, b.id)
  }

  function KindName(k: NodeKind): string {
    if k.Trigger? then "trigger" else "action"
  }

  function KindFrom(s: string): Option<NodeKind> {
    if s == "trigger" then Some(Trigger) else if s == "action" then Some(Action) else None
  }

  // ------------------------------------------------------------------------
  // Writing
  // ------------------------------------------------------------------------

  function NodeDoc(n: NodeSpec): Value {
    Object([Member("id", String(n.id)), Member("kind", String(KindName(n.kind))), Member("type", String(n.typ))])
  }

  function EdgeDoc(e: Edge): Value {
    Object([Member("from", String(e.from)), Member("to", String(e.to))])
  }

  function NodeDocs(nodes: seq<NodeSpec>): seq<Value> {
    seq(|nodes|, i requires 0 <= i < |nodes| => NodeDoc(nodes[i]))
  }

  function EdgeDocs(edges: seq<Edge>): seq<Value> {
    seq(|edges|, i requires 0 <= i < |edges| => EdgeDoc(edges[i]))
  }

  lemma SpecsSortable(d: Dag)
    requires d.Valid()
    ensures StrictOrder(SpecLess) && Distinct(d.specs) && Comparable(SpecLess, d.specs)
  {
    OrdersAreStrict();
    forall i, j | 0 <= i < j < |d.specs| ensures d.specs[i] != d.specs[j] {
      assert d.specs[i].id == d.nodeOrder[i] && d.specs[j].id == d.nodeOrder[j];
    }
    forall x, y | x in d.specs && y in d.specs && x != y ensures SpecLess(x, y) || SpecLess(y, x) {
      var i :| 0 <= i < |d.specs| && d.specs[i] == x;
      var j :| 0 <= j < |d.specs| && d.specs[j] == y;
      assert x.id == d.nodeOrder[i] && y.id == d.nodeOrder[j];
      LessTotal(x.id, y.id);
    }
  }

  /** The nodes by id. */
  function SortedSpecs(d: Dag): (r: seq<NodeSpec>)
    requires d.Valid()
    ensures StrictlySorted(SpecLess, r) && |r| == |d.specs| && forall x :: x in r <==> x in d.specs
  {
    SpecsSortable(d);
    Sort(SpecLess, d.specs)
  }

  function ToJson(d: Dag): Value
    requires d.Valid()
  {
    Object([Member("edges", Array(EdgeDocs(d.edges))), Member("nodes", Array(NodeDocs(SortedSpecs(d))))])
  }

  function ToJsonString(d: Dag, show: Printer): string
    requires d.Valid()
  {
    Serialize(ToJson(d), show)
  }

  // ------------------------------------------------------------------------
  // Reading
  // ------------------------------------------------------------------------

  function FindIn(members: seq<Member>, key: string): Option<Value> {
    if members == [] then None
    else if members[0].key == key then Some(members[0].value)
    else FindIn(members[1..], key)
  }

  /** The member of an object; nothing else has members. */
  function Find(v: Value, key: string): Option<Value> {
    if v.Object? then FindIn(v.members, key) else None
  }

  function StringOf(v: Option<Value>): Option<string> {
    if v.Some? && v.value.String? then Some(v.value.s) else None
  }

  /** A kind or a type that is absent or no string keeps its default; an unknown
    kind is an error. */
  function DecodeNode(item: Value): Option<NodeSpec> {
    match StringOf(Find(item, "id"))
    case None => None
    case Some(id) =>
      var typ := match StringOf(Find(item, "type")) case Some(t) => t case None => "";
      match StringOf(Find(item, "kind"))
      case None => Some(NodeSpec(id, Action, typ))
      case Some(name) =>
        match KindFrom(name)
        case Some(kind) => Some(NodeSpec(id, kind, typ))
        case None => None
  }

  function DecodeEdge(item: Value): Option<Edge> {
    var from, to := StringOf(Find(item, "from")), StringOf(Find(item, "to"));
    if from.Some? && to.Some? then Some(Edge(from.value, to.value)) else None
  }

  function ItemsOf(doc: Value, key: string): Option<seq<Value>> {
    match Find(doc, key)
    case Some(v) => if v.Array? then Some(v.items) else None
    case None => None
  }

  ghost predicate AllDecode<T(!new)>(items: seq<Value>, decode: Value -> Option<T>) {
    forall i :: 0 <= i < |items| ==> decode(items[i]).Some?
  }

  ghost predicate Decoded<T(!new)>(items: seq<Value>, decode: Value -> Option<T>, out: seq<T>) {
    |out| == |items| && forall i :: 0 <= i < |items| ==> decode(items[i]) == Some(out[i])
  }

  ghost predicate Malformed(doc: Value) {
    || ItemsOf(doc, "nodes").None? || ItemsOf(doc, "edges").None?
    || !AllDecode(ItemsOf(doc, "nodes").value, DecodeNode)
    || !AllDecode(ItemsOf(doc, "edges").value, DecodeEdge)
  }

  ghost predicate DecodesTo(doc: Value, nodes: seq<NodeSpec>, edges: seq<Edge>) {
    && !Malformed(doc)
    && Decoded(ItemsOf(doc, "nodes").value, DecodeNode, nodes)
    && Decoded(ItemsOf(doc, "edges").value, DecodeEdge, edges)
  }

  /** What a document says is built, or rejected as malformed. */
  ghost predicate BuiltFrom(r: BuildResult, nodes: seq<NodeSpec>, edges: seq<Edge>) {
    && (r.dag.Some? <==> WellFormed(nodes, edges) && Acyclic(InputGraph(nodes, edges)))
    && (r.dag.Some? <==> r.errors == [])
    && (r.dag.Some? ==> r.dag.value.Valid() && r.dag.value.specs == nodes && r.dag.value.G() == InputGraph(nodes, edges))
  }

  method FromJson(doc: Value) returns (r: BuildResult)
    ensures Malformed(doc) ==> r == BuildResult([GraphError(MalformedDocument, "")], None)
    ensures forall nodes, edges :: DecodesTo(doc, nodes, edges) ==> BuiltFrom(r, nodes, edges)
  {
    var malformed := BuildResult([GraphError(MalformedDocument, "")], None);
    var nodeItems, edgeItems := ItemsOf(doc, "nodes"), ItemsOf(doc, "edges");
    if nodeItems.None? || edgeItems.None? { return malformed; }
    var nodes: seq<NodeSpec> := [];
    for i := 0 to |nodeItems.value|
      invariant |nodes| == i && forall j :: 0 <= j < i ==> DecodeNode(nodeItems.value[j]) == Some(nodes[j])
    {
      var spec := DecodeNode(nodeItems.value[i]);
      if spec.None? { return malformed; }
      nodes := nodes + [spec.value];
    }
    var edges: seq<Edge> := [];
    for i := 0 to |edgeItems.value|
      invariant |edges| == i && forall j :: 0 <= j < i ==> DecodeEdge(edgeItems.value[j]) == Some(edges[j])
    {
      var edge := DecodeEdge(edgeItems.value[i]);
      if edge.None? { return malformed; }
      edges := edges + [edge.value];
    }
    r := Build(nodes, edges);
    forall ns, es | DecodesTo(doc, ns, es)
      ensures BuiltFrom(r, ns, es)
    {
      assert ns == nodes && es == edges;
    }
  }

  // ------------------------------------------------------------------------
  // Round trip
  // ------------------------------------------------------------------------

  lemma FindThree(a: Member, b: Member, c: Member, key: string)
    ensures FindIn([a, b, c], key) ==
            if a.key == key then Some(a.value) else if b.key == key then Some(b.value)
            else if c.key == key then Some(c.value) else None
  {
    assert [a, b, c][1..] == [b, c] && [b, c][1..] == [c] && [c][1..] == [];
    assert FindIn([c], key) == if c.key == key then Some(c.value) else None;
    assert FindIn([b, c], key) == if b.key == key then Some(b.value) else FindIn([c], key);
  }

  lemma FindTwo(a: Member, b: Member, key: string)
    ensures FindIn([a, b], key) == if a.key == key then Some(a.value) else if b.key == key then Some(b.value) else None
  {
    assert [a, b][1..] == [b] && [b][1..] == [];
    assert FindIn([b], key) == if b.key == key then Some(b.value) else None;
  }

  lemma NodeReads(n: NodeSpec)
    ensures DecodeNode(NodeDoc(n)) == Some(n)
  {
    var a, b, c := Member("id", String(n.id)), Member("kind", String(KindName(n.kind))), Member("type", String(n.typ));
    KeysInOrder();
    LessAsymmetric("kind", "type");
    FindThree(a, b, c, "id");
    FindThree(a, b, c, "kind");
    FindThree(a, b, c, "type");
    assert "trigger" != "action";
  }

  lemma EdgeReads(e: Edge)
    ensures DecodeEdge(EdgeDoc(e)) == Some(e)
  {
    FindTwo(Member("from", String(e.from)), Member("to", String(e.to)), "from");
    FindTwo(Member("from", String(e.from)), Member("to", String(e.to)), "to");
  }

  lemma KeysInOrder()
    ensures Less("id", "kind") && Less("id", "type") && Less("kind", "type") && Less("from", "to") && Less("edges", "nodes")
  {
  }

  lemma ToJsonIsPlain(d: Dag)
    requires d.Valid()
    ensures Plain(ToJson(d))
  {
    KeysInOrder();
    forall n: NodeSpec ensures Plain(NodeDoc(n)) { }
    forall e: Edge ensures Plain(EdgeDoc(e)) { }
    hide NodeDoc, EdgeDoc;
  }

  /** The document decodes to the sorted nodes and the edges. */
  lemma DocumentReads(d: Dag)
    requires d.Valid()
    ensures DecodesTo(ToJson(d), SortedSpecs(d), d.edges)
  {
    var doc, specs := ToJson(d), SortedSpecs(d);
    KeysInOrder();
    LessAsymmetric("edges", "nodes");
    FindTwo(doc.members[0], doc.members[1], "edges");
    FindTwo(doc.members[0], doc.members[1], "nodes");
    assert ItemsOf(doc, "edges") == Some(EdgeDocs(d.edges)) && ItemsOf(doc, "nodes") == Some(NodeDocs(specs));
    forall i | 0 <= i < |specs| ensures DecodeNode(NodeDocs(specs)[i]) == Some(specs[i]) { NodeReads(specs[i]); }
    forall i | 0 <= i < |d.edges| ensures DecodeEdge(EdgeDocs(d.edges)[i]) == Some(d.edges[i]) { EdgeReads(d.edges[i]); }
  }

  lemma SortedIdsDistinct(d: Dag)
    requires d.Valid()
    ensures Distinct(IdsOf(SortedSpecs(d)))
  {
    var specs, ids := SortedSpecs(d), IdsOf(SortedSpecs(d));
    hide Dag.Valid;
    forall i, j | 0 <= i < j < |ids| ensures ids[i] != ids[j] {
      assert SpecLess(specs[i], specs[j]);
      LessAsymmetric(ids[i], ids[j]);
    }
  }

  lemma SameIds(d: Dag)
    requires d.Shaped() && d.Valid()
    ensures Elements(IdsOf(SortedSpecs(d))) == Elements(d.nodeOrder)
  {
    var specs, ids := SortedSpecs(d), IdsOf(SortedSpecs(d));
    hide Dag.Valid;
    forall x | x in ids ensures x in d.nodeOrder {
      var i :| 0 <= i < |ids| && ids[i] == x;
      assert specs[i] in d.specs;
      var j :| 0 <= j < |d.specs| && d.specs[j] == specs[i];
      assert d.nodeOrder[j] == x;
    }
    forall x | x in d.nodeOrder ensures x in ids {
      var j :| 0 <= j < |d.nodeOrder| && d.nodeOrder[j] == x;
      assert d.specs[j] in specs;
      var i :| 0 <= i < |specs| && specs[i] == d.specs[j];
      assert ids[i] == x;
    }
  }

  lemma SortedSpecsBuild(d: Dag)
    requires d.Valid()
    ensures var specs := SortedSpecs(d);
      WellFormed(specs, d.edges) && InputGraph(specs, d.edges) == d.G() && Acyclic(d.G())
  {
    OrdersAreStrict();
    SortedIsDistinct(EdgeLess, d.edges);
    SortedIdsDistinct(d);
    SameIds(d);
    TopoImpliesAcyclic(d.G(), d.topoOrder);
    NoSelfLoop(d);
    NoEmptyId(d);
    hide SortedSpecs, Acyclic, IsTopo, Greedy, IsAdjacency, StrictlySorted, Distinct;
  }

  lemma NoSelfLoop(d: Dag)
    requires d.Valid()
    ensures forall e :: e in d.edges ==> e.from != e.to && e.from in d.nodeOrder && e.to in d.nodeOrder
  {
    TopoImpliesAcyclic(d.G(), d.topoOrder);
    forall e | e in d.edges ensures e.from != e.to && e.from in d.nodeOrder && e.to in d.nodeOrder {
      assert e in d.G().edges;
      EdgeIsBelow(d.G(), e.from, e.to);
    }
  }

  lemma NoEmptyId(d: Dag)
    requires d.Valid()
    ensures "" !in IdsOf(SortedSpecs(d))
  {
    SameIds(d);
    ListedInElements(IdsOf(SortedSpecs(d)));
  }

  lemma ListedInElements(ids: seq<NodeId>)
    ensures forall x :: x in ids ==> x in Elements(ids)
  {
  }

  /** The DAG that the document of d restores: the same nodes, edges, neighbour
    lists and execution order. Only the order in which the nodes were listed is
    replaced by id order. */
  ghost predicate SameTopology(d: Dag, e: Dag)
    requires d.Valid() && e.Valid()
  {
    && e.G() == d.G() && e.edges == d.edges && e.topoOrder == d.topoOrder
    && (forall x :: x in e.specs <==> x in d.specs)
    && (forall id :: e.Successors(id) == d.Successors(id) && e.Predecessors(id) == d.Predecessors(id))
  }

  lemma RestoredTopology(d: Dag, r: BuildResult)
    requires d.Valid() && BuiltFrom(r, SortedSpecs(d), d.edges)
    ensures r.dag.Some? && SameTopology(d, r.dag.value)
  {
    SortedSpecsBuild(d);
    TopoOrderCanonical(d, r.dag.value);
  }

  /** Writes d and reads it back, as a resumed run does. */
  method Reload(d: Dag, read: Reader, show: Printer) returns (r: BuildResult)
    requires d.Valid() && ReadsIntegers(read)
    ensures r.errors == [] && r.dag.Some? && r.dag.value.Valid() && SameTopology(d, r.dag.value)
  {
    hide Dag.Valid, Parse, Serialize, Plain, Malformed, SameTopology, ReadsIntegers, StrictlySorted;
    var w := new JsonParser.Writer(show);
    w.Write(ToJson(d));
    assert w.out == Serialize(ToJson(d), show);
    var p := new JsonParser.Parser(w.out, read);
    ToJsonIsPlain(d);
    RoundTrip(ToJson(d), read, show);
    var doc := p.Run();
    r := FromJson(doc.value);
    DocumentReads(d);
    RestoredTopology(d, r);
  }

  /** Two DAGs print the same text exactly if they have the same nodes and the
    same edges, however they were listed. */
  lemma CanonicalText(a: Dag, b: Dag, read: Reader, show: Printer)
    requires a.Valid() && b.Valid() && ReadsIntegers(read)
    ensures ToJsonString(a, show) == ToJsonString(b, show) <==>
            Elements(a.specs) == Elements(b.specs) && Elements(a.edges) == Elements(b.edges)
  {
    OrdersAreStrict();
    SpecsSortable(a);
    if Elements(a.specs) == Elements(b.specs) && Elements(a.edges) == Elements(b.edges) {
      forall x ensures x in a.edges <==> x in b.edges { assert x in Elements(a.edges) <==> x in Elements(b.edges); }
      forall x ensures x in a.specs <==> x in b.specs { assert x in Elements(a.specs) <==> x in Elements(b.specs); }
      SortedUnique(EdgeLess, a.edges, b.edges);
      SortedUnique(SpecLess, SortedSpecs(a), SortedSpecs(b));
    }
    if ToJsonString(a, show) == ToJsonString(b, show) {
      ToJsonIsPlain(a);
      ToJsonIsPlain(b);
      SerializeInjective(ToJson(a), ToJson(b), read, show);
      SameDocument(a, b);
    }
  }

  lemma SameDocument(a: Dag, b: Dag)
    requires a.Valid() && b.Valid() && ToJson(a) == ToJson(b)
    ensures Elements(a.specs) == Elements(b.specs) && Elements(a.edges) == Elements(b.edges)
  {
    DocumentReads(a);
    DocumentReads(b);
    var s, t := SortedSpecs(a), SortedSpecs(b);
    assert s == t by { forall i | 0 <= i < |s| ensures s[i] == t[i] { } }
    assert a.edges == b.edges by { forall i | 0 <= i < |a.edges| ensures a.edges[i] == b.edges[i] { } }
  }
}
