/** The edges of the import graph that lie on a cycle (scripts/check_architecture.py). */
module ImportCycles {
  import opened Common

  type Node = string
  type Graph = map<Node, set<Node>>
  datatype Edge = Edge(source: Node, target: Node)

  function Next(g: Graph, n: Node): set<Node> { if n in g then g[n] else {} }

  // ---------------------------------------------------------------- paths and cycles

  /** A walk along edges, of one node or more. */
  ghost predicate Path(g: Graph, p: seq<Node>) {
    p != [] && forall i :: 0 <= i < |p| - 1 ==> p[i + 1] in Next(g, p[i])
  }

  ghost predicate PathFrom(g: Graph, p: seq<Node>, a: Node, b: Node) { Path(g, p) && p[0] == a && p[|p| - 1] == b }

  ghost predicate Reachable(g: Graph, a: Node, b: Node) { exists p :: PathFrom(g, p, a, b) }

  ghost predicate NoRepeats(p: seq<Node>) { forall i, j :: 0 <= i < j < |p| ==> p[i] != p[j] }

  /** A directed cycle, written without repeating its first node at the end. */
  ghost predicate Cycle(g: Graph, c: seq<Node>) { Path(g, c) && NoRepeats(c) && c[0] in Next(g, c[|c| - 1]) }

  /** The edge is one of the edges of a directed cycle. */
  ghost predicate OnCycle(g: Graph, e: Edge) {
    exists c :: Cycle(g, c) && c[|c| - 1] == e.source && c[0] == e.target
  }

  /** Any walk can be shortened to one that visits no node twice. */
  lemma {:induction false} Shorten(g: Graph, p: seq<Node>, a: Node, b: Node) returns (q: seq<Node>)
    requires PathFrom(g, p, a, b)
    ensures PathFrom(g, q, a, b) && NoRepeats(q)
    decreases |p|
  {
    if NoRepeats(p) {
      q := p;
    } else {
      var i, j :| 0 <= i < j < |p| && p[i] == p[j];
      var cut := p[..i] + p[j..];
      forall k | 0 <= k < |cut| - 1 ensures cut[k + 1] in Next(g, cut[k]) {
        if k < i {
          assert p[k + 1] in Next(g, p[k]);
        } else {
          assert p[k - i + j + 1] in Next(g, p[k - i + j]);
        }
      }
      q := Shorten(g, cut, a, b);
    }
  }

  /** An edge lies on a cycle exactly if its source can be reached back from its target. */
  lemma CycleMeansBack(g: Graph, e: Edge)
    requires e.target in Next(g, e.source)
    ensures OnCycle(g, e) <==> Reachable(g, e.target, e.source)
  {
    if OnCycle(g, e) {
      var c :| Cycle(g, c) && c[|c| - 1] == e.source && c[0] == e.target;
      assert PathFrom(g, c, e.target, e.source);
    }
    if Reachable(g, e.target, e.source) {
      var p :| PathFrom(g, p, e.target, e.source);
      var q := Shorten(g, p, e.target, e.source);
      assert Cycle(g, q);
    }
  }

  lemma PathExtends(g: Graph, a: Node, b: Node, c: Node)
    requires Reachable(g, a, b) && c in Next(g, b)
    ensures Reachable(g, a, c)
  {
    var p :| PathFrom(g, p, a, b);
    assert PathFrom(g, p + [c], a, c);
  }

  // ---------------------------------------------------------------- the worklist

  function Nodes(g: Graph): set<Node> { g.Keys + set a, b | a in g && b in g[a] :: b }

  /** The nodes of a set in some order. */
  method ListOf(nodes: set<Node>) returns (list: seq<Node>)
    ensures forall n :: n in list <==> n in nodes
  {
    var rest := nodes;
    list := [];
    while rest != {}
      invariant rest <= nodes
      invariant forall n :: n in list <==> n in nodes - rest
      decreases rest
    {
      var n :| n in rest;
      list, rest := list + [n], rest - {n};
    }
  }

  lemma {:induction false} ClosedStays(g: Graph, seen: set<Node>, p: seq<Node>, i: nat)
    requires Path(g, p) && p[0] in seen && i < |p|
    requires forall n :: n in seen ==> Next(g, n) <= seen
    ensures p[i] in seen
  {
    if i > 0 { ClosedStays(g, seen, p, i - 1); }
  }

  lemma NotReached(g: Graph, seen: set<Node>, start: Node, target: Node)
    requires start in seen && target !in seen && forall n :: n in seen ==> Next(g, n) <= seen
    ensures !Reachable(g, start, target)
  {
    if p :| PathFrom(g, p, start, target) { ClosedStays(g, seen, p, |p| - 1); }
  }

  /** The search so far: all that is listed or seen is reachable, and every way on from a seen node is listed. */
  ghost predicate Working(g: Graph, start: Node, target: Node, todo: seq<Node>, seen: set<Node>) {
    target !in seen && (start in seen || start in todo)
    && (forall n :: n in seen || n in todo ==> Reachable(g, start, n))
    && (forall n, m :: n in seen && m in Next(g, n) ==> m in seen || m in todo)
  }

  /** The same, with `node` taken from the list but not yet handled. */
  ghost predicate Holding(g: Graph, start: Node, target: Node, todo: seq<Node>, seen: set<Node>, node: Node) {
    target !in seen && (start in seen || start in todo || start == node)
    && (forall n :: n in seen || n in todo || n == node ==> Reachable(g, start, n))
    && (forall n, m :: n in seen && m in Next(g, n) ==> m in seen || m in todo || m == node)
  }

  lemma Pop(g: Graph, start: Node, target: Node, todo: seq<Node>, seen: set<Node>)
    requires todo != [] && Working(g, start, target, todo, seen)
    ensures Holding(g, start, target, todo[..|todo| - 1], seen, todo[|todo| - 1])
  {
    assert todo == todo[..|todo| - 1] + [todo[|todo| - 1]];
  }

  lemma VisitNode(g: Graph, start: Node, target: Node, todo: seq<Node>, seen: set<Node>, node: Node, more: seq<Node>)
    requires Holding(g, start, target, todo, seen, node) && node != target
    requires forall n :: n in more <==> n in Next(g, node)
    ensures Working(g, start, target, todo + more, seen + {node})
  {
    forall m | m in more ensures Reachable(g, start, m) { PathExtends(g, start, node, m); }
  }

  lemma Shrinks(g: Graph, all: set<Node>, todo: seq<Node>, seen: set<Node>, node: Node, more: seq<Node>)
    requires Nodes(g) <= all && seen <= all && node in all && node !in seen && forall n <- todo :: n in all
    requires forall n :: n in more <==> n in Next(g, node)
    ensures seen + {node} <= all && (forall n <- todo + more :: n in all) && |all - (seen + {node})| < |all - seen|
  {
    assert all - seen == (all - (seen + {node})) + {node};
    assert forall n <- Next(g, node) :: n in Nodes(g);
  }

  /** Whether a walk leads from start to target; it ends on every finite graph, cyclic or not. */
  method Reaches(g: Graph, start: Node, target: Node) returns (found: bool)
    ensures found <==> Reachable(g, start, target)
  {
    assert PathFrom(g, [start], start, start);
    var todo, seen := [start], {};
    ghost var all := Nodes(g) + {start};
    while todo != []
      invariant seen <= all && forall n <- todo :: n in all
      invariant Working(g, start, target, todo, seen)
      decreases |all - seen|, |todo|
    {
      var node := todo[|todo| - 1];
      Pop(g, start, target, todo, seen);
      todo := todo[..|todo| - 1];
      if node == target { return true; }
      if node !in seen {
        var more := ListOf(Next(g, node));
        VisitNode(g, start, target, todo, seen, node, more);
        Shrinks(g, all, todo, seen, node, more);
        seen, todo := seen + {node}, todo + more;
      }
    }
    NotReached(g, seen, start, target);
    found := false;
  }

  // ---------------------------------------------------------------- order

  predicate Before(x: Edge, y: Edge) {
    Less(x.source, y.source) || (x.source == y.source && Less(x.target, y.target))
  }

  lemma BeforeIsOrder(x: Edge, y: Edge, z: Edge)
    ensures !Before(x, x) && (x == y || Before(x, y) || Before(y, x)) && (Before(x, y) && Before(y, z) ==> Before(x, z))
  {
    LessIsOrder(x.source, y.source, z.source);
    LessIsOrder(x.target, y.target, z.target);
  }

  /** In strictly ascending order, so without repetition. */
  ghost predicate Ascending(edges: seq<Edge>) { forall i, j :: 0 <= i < j < |edges| ==> Before(edges[i], edges[j]) }

  method Insert(edges: seq<Edge>, e: Edge) returns (r: seq<Edge>)
    requires Ascending(edges) && e !in edges
    ensures Ascending(r) && forall x :: x in r <==> x in edges || x == e
  {
    var k := 0;
    while k < |edges| && Before(edges[k], e)
      invariant 0 <= k <= |edges|
      invariant forall i :: 0 <= i < k ==> Before(edges[i], e)
    {
      k := k + 1;
    }
    r := edges[..k] + [e] + edges[k..];
    forall i | k <= i < |edges| ensures Before(e, edges[i]) {
      BeforeIsOrder(edges[k], e, e);
      BeforeIsOrder(e, edges[k], edges[i]);
    }
    InsertedAscending(edges, k, e);
    Inserted(edges, k, e);
  }

  lemma InsertedAscending(edges: seq<Edge>, k: nat, e: Edge)
    requires Ascending(edges) && k <= |edges|
    requires (forall i :: 0 <= i < k ==> Before(edges[i], e)) && forall i :: k <= i < |edges| ==> Before(e, edges[i])
    ensures Ascending(edges[..k] + [e] + edges[k..])
  {
    var r := edges[..k] + [e] + edges[k..];
    forall i, j | 0 <= i < j < |r| ensures Before(r[i], r[j]) {
      assert r[i] == if i < k then edges[i] else if i == k then e else edges[i - 1];
      assert r[j] == if j < k then edges[j] else if j == k then e else edges[j - 1];
    }
  }

  function Edges(g: Graph): set<Edge> { set a, b | a in g && b in g[a] :: Edge(a, b) }

  /** Exactly the edges that lie on a directed cycle, in order and once each. */
  method CycleEdges(g: Graph) returns (edges: seq<Edge>)
    ensures Ascending(edges)
    ensures forall e :: e in edges <==> e in Edges(g) && OnCycle(g, e)
  {
    edges := [];
    var rest := Edges(g);
    while rest != {}
      invariant rest <= Edges(g) && Ascending(edges)
      invariant forall e :: e in edges <==> e in Edges(g) - rest && OnCycle(g, e)
      decreases rest
    {
      var e :| e in rest;
      CycleMeansBack(g, e);
      var back := Reaches(g, e.target, e.source);
      if back { edges := Insert(edges, e); }
      rest := rest - {e};
    }
  }

  /** The endpoints of a reported edge reach each other. */
  lemma CyclesAreMutual(g: Graph, e: Edge)
    requires e in Edges(g)
    ensures OnCycle(g, e) <==> Reachable(g, e.source, e.target) && Reachable(g, e.target, e.source)
  {
    CycleMeansBack(g, e);
    assert PathFrom(g, [e.source, e.target], e.source, e.target);
  }
}
