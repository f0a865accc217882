/** The mathematics of directed graphs that the workflow DAG is checked
  against: paths, cycles, topological orders and the lexicographically least
  one. Nothing here is executable.
*/
module Graphs {
  import opened Ids

  datatype Edge = Edge(from: NodeId, to: NodeId)
  datatype Graph = Graph(nodes: set<NodeId>, edges: set<Edge>)

  ghost predicate Closed(g: Graph) {
    forall e :: e in g.edges ==> e.from in g.nodes && e.to in g.nodes
  }

  ghost predicate IsPath(g: Graph, p: seq<NodeId>) {
    p != [] && forall i :: 0 <= i < |p| - 1 ==> Edge(p[i], p[i + 1]) in g.edges
  }

  ghost predicate PathBetween(g: Graph, p: seq<NodeId>, a: NodeId, b: NodeId) {
    IsPath(g, p) && p[0] == a && p[|p| - 1] == b
  }

  /** b is a or a descendant of a. */
  ghost predicate Reaches(g: Graph, a: NodeId, b: NodeId) {
    exists p :: PathBetween(g, p, a, b)
  }

  /** b is a strict descendant of a. */
  ghost predicate Below(g: Graph, a: NodeId, b: NodeId) {
    exists p :: |p| > 1 && PathBetween(g, p, a, b)
  }

  ghost predicate Acyclic(g: Graph) {
    forall a :: !Below(g, a, a)
  }

  /** v lies on a cycle or downstream of one. */
  ghost predicate Tangled(g: Graph, v: NodeId) {
    exists c :: Below(g, c, c) && Reaches(g, c, v)
  }

  lemma ReachesSelf(g: Graph, a: NodeId)
    ensures Reaches(g, a, a)
  {
    assert PathBetween(g, [a], a, a);
  }

  lemma EdgeIsBelow(g: Graph, a: NodeId, b: NodeId)
    requires Edge(a, b) in g.edges
    ensures Below(g, a, b)
  {
    assert PathBetween(g, [a, b], a, b);
  }

  lemma BelowReaches(g: Graph, a: NodeId, b: NodeId)
    requires Below(g, a, b)
    ensures Reaches(g, a, b)
  {
  }

  lemma ReachesSplits(g: Graph, a: NodeId, b: NodeId)
    requires Reaches(g, a, b)
    ensures a == b || Below(g, a, b)
  {
    var p :| PathBetween(g, p, a, b);
    assert |p| > 1 ==> Below(g, a, b);
  }

  lemma ReachesTransitive(g: Graph, a: NodeId, b: NodeId, c: NodeId)
    requires Reaches(g, a, b) && Reaches(g, b, c)
    ensures Reaches(g, a, c)
    ensures Below(g, a, b) || Below(g, b, c) ==> Below(g, a, c)
  {
    var p :| PathBetween(g, p, a, b) && (Below(g, a, b) ==> |p| > 1);
    var q :| PathBetween(g, q, b, c) && (Below(g, b, c) ==> |q| > 1);
    var r := p + q[1..];
    assert forall i :: |p| - 1 <= i < |r| ==> r[i] == q[i - |p| + 1];
    assert PathBetween(g, r, a, c);
  }

  /** The last step of a path to a strict descendant. */
  lemma BelowLastStep(g: Graph, a: NodeId, b: NodeId) returns (u: NodeId)
    requires Below(g, a, b)
    ensures Reaches(g, a, u) && Edge(u, b) in g.edges
  {
    var p :| |p| > 1 && PathBetween(g, p, a, b);
    u := p[|p| - 2];
    assert PathBetween(g, p[..|p| - 1], a, u);
  }

  /** The first step of a path to a strict descendant. */
  lemma BelowFirstStep(g: Graph, a: NodeId, b: NodeId) returns (u: NodeId)
    requires Below(g, a, b)
    ensures Edge(a, u) in g.edges && Reaches(g, u, b)
  {
    var p :| |p| > 1 && PathBetween(g, p, a, b);
    u := p[1];
    assert PathBetween(g, p[1..], u, b);
  }

  // ------------------------------------------------------------------------
  // Backward walks find cycles
  // ------------------------------------------------------------------------

  ghost predicate HasPredIn(g: Graph, s: set<NodeId>, x: NodeId) {
    exists u :: u in s && Edge(u, x) in g.edges
  }

  /** If every member of s has a predecessor in s, one can walk backwards
    from any member for any number of steps. */
  lemma {:induction false} BackwardWalk(g: Graph, s: set<NodeId>, v: NodeId, n: nat) returns (w: seq<NodeId>)
    requires v in s
    requires forall x :: x in s ==> HasPredIn(g, s, x)
    ensures |w| == n + 1 && w[n] == v && IsPath(g, w)
    ensures forall x :: x in w ==> x in s
    decreases n
  {
    if n == 0 {
      w := [v];
    } else {
      var u :| u in s && Edge(u, v) in g.edges;
      var w' := BackwardWalk(g, s, u, n - 1);
      w := w' + [v];
    }
  }

  /** Such a set lies entirely on or downstream of cycles. */
  lemma BackwardClosedIsTangled(g: Graph, s: set<NodeId>, v: NodeId)
    requires v in s
    requires forall x :: x in s ==> HasPredIn(g, s, x)
    ensures Tangled(g, v)
  {
    var w := BackwardWalk(g, s, v, |s|);
    Pigeonhole(w, s);
    var i, j :| 0 <= i < j < |w| && w[i] == w[j];
    var cycle, tail := w[i..j + 1], w[i..];
    assert |cycle| > 1 && PathBetween(g, cycle, w[i], w[i]);
    assert PathBetween(g, tail, w[i], v);
    assert Below(g, w[i], w[i]) && Reaches(g, w[i], v);
  }

  // ------------------------------------------------------------------------
  // Topological orders
  // ------------------------------------------------------------------------

  /** Every node of t comes after all its predecessors. */
  ghost predicate PredsFirst(g: Graph, t: seq<NodeId>) {
    forall i, e :: 0 <= i < |t| && e in g.edges && e.to == t[i] ==> e.from in t[..i]
  }

  ghost predicate IsTopo(g: Graph, t: seq<NodeId>) {
    Distinct(t) && Elements(t) == g.nodes && PredsFirst(g, t)
  }

  /** v could come next after the nodes in done. */
  ghost predicate Free(g: Graph, done: seq<NodeId>, v: NodeId) {
    v in g.nodes && v !in done && forall e :: e in g.edges && e.to == v ==> e.from in done
  }

  /** Each entry of t is the least node that could come next. */
  ghost predicate Greedy(g: Graph, t: seq<NodeId>) {
    forall i, v :: 0 <= i < |t| && Free(g, t[..i], v) ==> v == t[i] || Less(t[i], v)
  }

  /** a comes before b in dictionary order, or they are equal. */
  ghost predicate LexAtMost(a: seq<NodeId>, b: seq<NodeId>) {
    a == b || exists i :: 0 <= i < |a| && i < |b| && a[..i] == b[..i] && Less(a[i], b[i])
  }

  function IndexIn(t: seq<NodeId>, v: NodeId): (i: nat)
    ensures v in t ==> i < |t| && t[i] == v
    ensures v !in t ==> i == |t|
    ensures v !in t[..i]
  {
    if t == [] then 0
    else if t[0] == v then 0
    else
      var rest := IndexIn(t[1..], v);
      assert t[..rest + 1] == [t[0]] + t[1..][..rest];
      rest + 1
  }

  lemma TopoEdgeForward(g: Graph, t: seq<NodeId>, e: Edge)
    requires PredsFirst(g, t) && Distinct(t) && e in g.edges && e.to in t
    ensures e.from in t && IndexIn(t, e.from) < IndexIn(t, e.to)
  {
    var i := IndexIn(t, e.to);
    assert e.from in t[..i];
    var k :| 0 <= k < i && t[k] == e.from;
    assert IndexIn(t, e.from) == k;
  }

  lemma {:induction false} TopoPathForward(g: Graph, t: seq<NodeId>, p: seq<NodeId>)
    requires PredsFirst(g, t) && Distinct(t) && IsPath(g, p) && p[|p| - 1] in t
    ensures p[0] in t
    ensures |p| > 1 ==> IndexIn(t, p[0]) < IndexIn(t, p[|p| - 1])
    decreases |p|
  {
    if |p| > 1 {
      var front := p[..|p| - 1];
      TopoEdgeForward(g, t, Edge(p[|p| - 2], p[|p| - 1]));
      TopoPathForward(g, t, front);
    }
  }

  lemma TopoBelowForward(g: Graph, t: seq<NodeId>, a: NodeId, b: NodeId)
    requires PredsFirst(g, t) && Distinct(t) && b in t && Below(g, a, b)
    ensures a in t && IndexIn(t, a) < IndexIn(t, b)
  {
    var p :| |p| > 1 && PathBetween(g, p, a, b);
    TopoPathForward(g, t, p);
  }

  /** Nothing on or downstream of a cycle can be put in such an order. */
  lemma TangledNeverPlaced(g: Graph, t: seq<NodeId>, v: NodeId)
    requires PredsFirst(g, t) && Distinct(t) && Tangled(g, v)
    ensures v !in t
  {
    if v in t {
      var c :| Below(g, c, c) && Reaches(g, c, v);
      var p :| PathBetween(g, p, c, v);
      TopoPathForward(g, t, p);
      TopoBelowForward(g, t, c, c);
    }
  }

  /** A graph with a topological order has no cycle, and conversely when all
    nodes are tangle-free a cycle is impossible. */
  lemma TopoImpliesAcyclic(g: Graph, t: seq<NodeId>)
    requires Closed(g) && IsTopo(g, t)
    ensures Acyclic(g)
  {
    forall a ensures !Below(g, a, a) {
      if Below(g, a, a) {
        assert a in g.nodes by { var u := BelowLastStep(g, a, a); assert Edge(u, a).to in g.nodes; }
        assert a in Elements(t);
        TopoBelowForward(g, t, a, a);
      }
    }
  }

  /** The greedy order precedes every other topological order. */
  lemma GreedyIsLexLeast(g: Graph, t: seq<NodeId>, other: seq<NodeId>)
    requires IsTopo(g, t) && Greedy(g, t) && IsTopo(g, other)
    ensures LexAtMost(t, other)
  {
    DistinctSize(t);
    DistinctSize(other);
    if t != other {
      var i := FirstDifference(t, other);
      assert other[i] in Elements(other);
      assert Free(g, t[..i], other[i]);
    }
  }

  lemma {:induction false} FirstDifference(a: seq<NodeId>, b: seq<NodeId>) returns (i: nat)
    requires |a| == |b| && a != b
    ensures i < |a| && a[..i] == b[..i] && a[i] != b[i]
  {
    if a[0] != b[0] {
      i := 0;
    } else {
      assert a == [a[0]] + a[1..] && b == [b[0]] + b[1..];
      var k := FirstDifference(a[1..], b[1..]);
      i := k + 1;
      assert a[..i] == [a[0]] + a[1..][..k] && b[..i] == [b[0]] + b[1..][..k];
    }
  }

  /** The order is a function of the graph alone. */
  lemma GreedyIsUnique(g: Graph, t: seq<NodeId>, t': seq<NodeId>)
    requires IsTopo(g, t) && Greedy(g, t) && IsTopo(g, t') && Greedy(g, t')
    ensures t == t'
  {
    DistinctSize(t);
    DistinctSize(t');
    if t != t' {
      var i := FirstDifference(t, t');
      assert t[i] in Elements(t) && t'[i] in Elements(t');
      assert Free(g, t[..i], t'[i]) && Free(g, t[..i], t[i]);
      LessAsymmetric(t[i], t'[i]);
    }
  }
}
