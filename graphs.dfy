/** The part of a networkx `Graph` the layout pipeline relies on: nodes in
    insertion order with an attribute dict each, undirected edges without
    duplicates, `add_edge`, `degree` and `subgraph`. */
module Graphs {
  import opened Common

  type NodeId = int

  /** An undirected edge: the set of its endpoints (one element for a self-loop). */
  type Edge = set<NodeId>

  datatype Graph = Graph(nodes: seq<NodeId>, attrs: map<NodeId, Row>, edges: set<Edge>)

  predicate Distinct(ns: seq<NodeId>)
  {
    forall i, j :: 0 <= i < j < |ns| ==> ns[i] != ns[j]
  }

  function NodeSet(g: Graph): set<NodeId>
  {
    set n | n in g.nodes
  }

  /** What networkx keeps true of every graph. */
  ghost predicate Valid(g: Graph)
  {
    && Distinct(g.nodes)
    && g.attrs.Keys == NodeSet(g)
    && forall e :: e in g.edges ==> 1 <= |e| <= 2 && e <= NodeSet(g)
  }

  /** A list without repeats has as many elements as its set. */
  lemma {:induction false} DistinctCard(ns: seq<NodeId>)
    requires Distinct(ns)
    ensures |set n | n in ns| == |ns|
  {
    if ns != [] {
      var t := ns[..|ns| - 1];
      assert Distinct(t);
      DistinctCard(t);
      assert (set n | n in ns) == (set n | n in t) + {ns[|ns| - 1]} by {
        assert ns == t + [ns[|ns| - 1]];
      }
      assert ns[|ns| - 1] !in (set n | n in t);
    }
  }

  /** A graph without node labels has no nodes. */
  lemma NoNodes(g: Graph)
    ensures g.nodes == [] <==> NodeSet(g) == {}
  {
    if g.nodes != [] {
      assert g.nodes[0] in NodeSet(g);
    }
  }

  /** `G.number_of_edges()`. */
  function NumberOfEdges(g: Graph): nat
  {
    |g.edges|
  }

  /** `G.degree(n) == 0`: no edge, self-loops included, touches `n`. */
  predicate Isolated(g: Graph, n: NodeId)
  {
    forall e | e in g.edges :: n !in e
  }

  /** The entries of `ns` that lie in `keep`, in their order. */
  function Filter(ns: seq<NodeId>, keep: set<NodeId>): (r: seq<NodeId>)
    ensures forall n :: n in r <==> n in ns && n in keep
    ensures |r| <= |ns|
    ensures Distinct(ns) ==> Distinct(r)
  {
    if ns == [] then []
    else
      var rest := Filter(ns[1..], keep);
      assert forall n :: n in ns <==> n == ns[0] || n in ns[1..];
      if ns[0] in keep then [ns[0]] + rest else rest
  }

  /** `G.subgraph(keep)`: the nodes of `g` in `keep`, in `g`'s order, their
      attributes, and the edges of `g` between them. */
  function Subgraph(g: Graph, keep: set<NodeId>): Graph
  {
    Graph(Filter(g.nodes, keep), map n | n in g.attrs && n in keep :: g.attrs[n], set e | e in g.edges && e <= keep)
  }

  /** A subgraph is a graph on the kept nodes with the edges among them. */
  lemma SubgraphFacts(g: Graph, keep: set<NodeId>)
    ensures Valid(g) ==> Valid(Subgraph(g, keep))
    ensures NodeSet(Subgraph(g, keep)) == NodeSet(g) * keep
    ensures forall e :: e in Subgraph(g, keep).edges <==> e in g.edges && e <= keep
  {
    var h := Subgraph(g, keep);
    assert forall n :: n in h.nodes <==> n in g.nodes && n in keep;
  }

  /** Adds `n` with an empty attribute dict unless it is already a node, as
      `add_edge` does for an endpoint it has not seen. */
  function EnsureNode(g: Graph, n: NodeId): Graph
  {
    if n in g.nodes then g else Graph(g.nodes + [n], g.attrs[n := map[]], g.edges)
  }

  /** Adding a node makes `n` a node. */
  lemma EnsureNodeSet(g: Graph, n: NodeId)
    ensures NodeSet(EnsureNode(g, n)) == NodeSet(g) + {n}
  {
    if n !in g.nodes {
      var h := EnsureNode(g, n);
      assert forall m :: m in h.nodes <==> m in g.nodes || m == n;
    }
  }

  /** Adding a node keeps a graph valid, keeps its nodes in front and their
      attributes. */
  lemma EnsureNodeFacts(g: Graph, n: NodeId)
    requires Valid(g)
    ensures var h := EnsureNode(g, n);
      && Valid(h) && h.edges == g.edges && NodeSet(h) == NodeSet(g) + {n}
      && |g.nodes| <= |h.nodes| && h.nodes[..|g.nodes|] == g.nodes
      && forall m :: m in g.attrs ==> m in h.attrs && h.attrs[m] == g.attrs[m]
  {
    EnsureNodeSet(g, n);
    if n !in g.nodes {
      var h := EnsureNode(g, n);
      assert h.nodes[..|g.nodes|] == g.nodes;
    }
  }

  /** `G.add_edge(u, v)`: adds the unseen endpoints, `u` first, then the
      unordered edge; an edge already present is not added twice. */
  function AddEdge(g: Graph, u: NodeId, v: NodeId): (h: Graph)
    ensures h.edges == g.edges + {{u, v}}
  {
    var g1 := EnsureNode(EnsureNode(g, u), v);
    g1.(edges := g1.edges + {{u, v}})
  }

  /** Adding an edge keeps a graph valid. */
  lemma AddEdgeValid(g: Graph, u: NodeId, v: NodeId)
    requires Valid(g)
    ensures Valid(AddEdge(g, u, v))
  {
    var g0 := EnsureNode(g, u);
    var g1 := EnsureNode(g0, v);
    assert Valid(g1) && {u, v} <= NodeSet(g1) by {
      EnsureNodeFacts(g, u);
      EnsureNodeFacts(g0, v);
    }
    PairCard(u, v);
    WithEdgeValid(g1, {u, v});
    assert AddEdge(g, u, v) == g1.(edges := g1.edges + {{u, v}});
  }

  /** Adding an edge makes its endpoints nodes. */
  lemma AddEdgeNodeSet(g: Graph, u: NodeId, v: NodeId)
    ensures NodeSet(AddEdge(g, u, v)) == NodeSet(g) + {u, v}
  {
    var g0 := EnsureNode(g, u);
    var g1 := EnsureNode(g0, v);
    EnsureNodeSet(g, u);
    EnsureNodeSet(g0, v);
    SameNodes(AddEdge(g, u, v), g1);
  }

  lemma SameNodes(g: Graph, h: Graph)
    requires g.nodes == h.nodes
    ensures NodeSet(g) == NodeSet(h)
  {
  }

  /** Adding an edge puts its new endpoints after the nodes already there
      and keeps their attributes. */
  lemma AddEdgeKeeps(g: Graph, u: NodeId, v: NodeId)
    requires Valid(g)
    ensures var h := AddEdge(g, u, v);
      && |g.nodes| <= |h.nodes| && h.nodes[..|g.nodes|] == g.nodes
      && forall n :: n in g.attrs ==> n in h.attrs && h.attrs[n] == g.attrs[n]
  {
    var g0 := EnsureNode(g, u);
    var g1 := EnsureNode(g0, v);
    EnsureNodeFacts(g, u);
    EnsureNodeFacts(g0, v);
    PrefixOfPrefix(g.nodes, g0.nodes, g1.nodes);
    assert AddEdge(g, u, v) == g1.(edges := g1.edges + {{u, v}});
  }

  lemma PrefixOfPrefix(a: seq<NodeId>, b: seq<NodeId>, c: seq<NodeId>)
    requires |a| <= |b| <= |c| && b[..|a|] == a && c[..|b|] == b
    ensures c[..|a|] == a
  {
    assert c[..|a|] == c[..|b|][..|a|];
  }

  /** An edge has one endpoint (a self-loop) or two. */
  lemma PairCard(u: NodeId, v: NodeId)
    ensures 1 <= |{u, v}| <= 2
  {
    if u == v { assert {u, v} == {u}; } else { assert |{u, v}| == |{u}| + 1; }
  }

  lemma WithEdgeValid(g: Graph, ed: Edge)
    requires Valid(g) && 1 <= |ed| <= 2 && ed <= NodeSet(g)
    ensures Valid(g.(edges := g.edges + {ed}))
  {
  }
}
