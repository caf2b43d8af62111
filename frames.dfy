/** The node and link tables of a network as pandas DataFrames with the
    default index 0 .. n-1, the column operations the project applies to
    them, and `CyExProject.gen_graph`, which builds the graph from them. */
module Frames {
  import opened Common
  import opened Graphs

  /** A DataFrame: its column labels and its rows, row i holding index i. */
  datatype DataFrame = DataFrame(columns: set<string>, rows: seq<Row>)

  /** Every row has a cell in every column; a missing value is `Null` (NaN). */
  predicate Tabular(f: DataFrame)
  {
    forall i :: 0 <= i < |f.rows| ==> f.rows[i].Keys == f.columns
  }

  type Frame = f: DataFrame | Tabular(f) witness DataFrame({}, [])

  /** `df[c]` as a list. */
  function Cells(f: Frame, c: string): (col: seq<Value>)
    requires c in f.columns
    ensures |col| == |f.rows| && forall i :: 0 <= i < |f.rows| ==> col[i] == f.rows[i][c]
  {
    seq(|f.rows|, i requires 0 <= i < |f.rows| => f.rows[i][c])
  }

  /** `df[c] = pd.Series(vals)`: a Series is aligned on the index, so row i
      gets `vals[i]`, the rows past the end of `vals` get NaN and values past
      the last row are dropped; no other column changes. */
  function SetSeries(f: Frame, c: string, vals: seq<Value>): (r: Frame)
    ensures r.columns == f.columns + {c} && |r.rows| == |f.rows|
    ensures forall i :: 0 <= i < |f.rows| ==> r.rows[i][c] == if i < |vals| then vals[i] else Null
    ensures forall i, k :: 0 <= i < |f.rows| && k in f.columns && k != c ==> r.rows[i][k] == f.rows[i][k]
  {
    DataFrame(f.columns + {c}, seq(|f.rows|, i requires 0 <= i < |f.rows| => f.rows[i][c := if i < |vals| then vals[i] else Null]))
  }

  /** `df[c] = a_list`: pandas wants exactly one value per row. */
  function SetList(f: Frame, c: string, vals: seq<Value>): (r: Result<Frame>)
    ensures r.Ok? <==> |vals| == |f.rows|
    ensures r.Ok? ==> r.value.columns == f.columns + {c} && |r.value.rows| == |f.rows|
    ensures r.Ok? ==> forall i :: 0 <= i < |f.rows| ==> r.value.rows[i][c] == vals[i]
    ensures r.Ok? ==> forall i, k :: 0 <= i < |f.rows| && k in f.columns && k != c ==> r.value.rows[i][k] == f.rows[i][k]
  {
    if |vals| != |f.rows| then Err(ValueError("Length of values does not match length of index"))
    else Ok(SetSeries(f, c, vals))
  }

  /** `df.drop(columns=[c])` for a column that is present. */
  function DropColumn(f: Frame, c: string): (r: Frame)
    ensures r.columns == f.columns - {c} && |r.rows| == |f.rows|
    ensures forall i, k :: 0 <= i < |f.rows| && k in r.columns ==> r.rows[i][k] == f.rows[i][k]
  {
    DataFrame(f.columns - {c}, seq(|f.rows|, i requires 0 <= i < |f.rows| => f.rows[i] - {c}))
  }

  // ----- gen_graph ---------------------------------------------------------------

  /** The column names of a link's endpoints. */
  const Start := "s"
  const End := "e"

  /** `node.dropna()`: the row without its missing values. */
  function DropNa(row: Row): Row
  {
    map k | k in row && row[k] != Null :: row[k]
  }

  /** The node a link endpoint names: an int, or a float with an integral
      value (an endpoint column with a missing value holds floats), which
      Python hashes and compares as that int. */
  function EndpointId(v: Value): Option<NodeId>
  {
    match v
    case Int(i) => Some(i)
    case Float(r) => if r.Floor as real == r then Some(r.Floor) else None
    case _ => None
  }

  /** The link table has both endpoint columns. */
  predicate HasEndpoints(links: Frame)
  {
    Start in links.columns && End in links.columns
  }

  /** Every link names its endpoints by node ids. */
  predicate IntegralLinks(links: Frame)
    requires HasEndpoints(links)
  {
    forall i :: 0 <= i < |links.rows| ==> EndpointId(links.rows[i][Start]).Some? && EndpointId(links.rows[i][End]).Some?
  }

  /** `links[[s, e]].values.tolist()`. */
  function LinkPairs(links: Frame): (ps: seq<(NodeId, NodeId)>)
    requires HasEndpoints(links) && IntegralLinks(links)
    ensures |ps| == |links.rows|
  {
    seq(|links.rows|, i requires 0 <= i < |links.rows| =>
      (EndpointId(links.rows[i][Start]).value, EndpointId(links.rows[i][End]).value))
  }

  function Range(n: nat): (r: seq<NodeId>)
    ensures |r| == n && forall i :: 0 <= i < n ==> r[i] == i
  {
    seq(n, i requires 0 <= i < n => i)
  }

  /** `G.add_nodes_from((idx, node.dropna()) for idx, node in nodes.iterrows())`
      on an empty graph. */
  function NodeTable(nodes: Frame): Graph
  {
    Graph(Range(|nodes.rows|), map i | 0 <= i < |nodes.rows| :: DropNa(nodes.rows[i]), {})
  }

  /** `G.add_edges_from(ps)`: one `add_edge` per pair, in order. */
  function AddEdges(g: Graph, ps: seq<(NodeId, NodeId)>): Graph
    decreases |ps|
  {
    if ps == [] then g
    else
      var h := AddEdges(g, ps[..|ps| - 1]);
      AddEdge(h, ps[|ps| - 1].0, ps[|ps| - 1].1)
  }

  /** `CyExProject.gen_graph(nodes, links)`; a link table without an
      endpoint column fails at `links[[s, e]]`. */
  function GenGraph(nodes: Frame, links: Frame): (r: Result<Graph>)
    requires HasEndpoints(links) ==> IntegralLinks(links)
    ensures r.Ok? <==> Start in links.columns && End in links.columns
    ensures r.Err? ==> r.error == KeyError(if Start !in links.columns then Start else End)
  {
    if Start !in links.columns then Err(KeyError(Start))
    else if End !in links.columns then Err(KeyError(End))
    else Ok(AddEdges(NodeTable(nodes), LinkPairs(links)))
  }

  /** The undirected edges the pairs name. */
  function PairEdges(ps: seq<(NodeId, NodeId)>): set<Edge>
  {
    set k | 0 <= k < |ps| :: {ps[k].0, ps[k].1}
  }

  /** The endpoints of the pairs. */
  function PairNodes(ps: seq<(NodeId, NodeId)>): set<NodeId>
  {
    (set k | 0 <= k < |ps| :: ps[k].0) + (set k | 0 <= k < |ps| :: ps[k].1)
  }

  lemma PairEdgesSnoc(ps: seq<(NodeId, NodeId)>)
    requires ps != []
    ensures PairEdges(ps) == PairEdges(ps[..|ps| - 1]) + {{ps[|ps| - 1].0, ps[|ps| - 1].1}}
  {
    var t := ps[..|ps| - 1];
    assert forall k :: 0 <= k < |t| ==> t[k] == ps[k];
  }

  lemma PairNodesSnoc(ps: seq<(NodeId, NodeId)>)
    requires ps != []
    ensures PairNodes(ps) == PairNodes(ps[..|ps| - 1]) + {ps[|ps| - 1].0, ps[|ps| - 1].1}
  {
    var t := ps[..|ps| - 1];
    assert forall k :: 0 <= k < |t| ==> t[k] == ps[k];
  }

  /** Adding the edges of `ps` adds exactly those edges. */
  lemma {:induction false} AddEdgesEdges(g: Graph, ps: seq<(NodeId, NodeId)>)
    ensures AddEdges(g, ps).edges == g.edges + PairEdges(ps)
    decreases |ps|
  {
    if ps != [] {
      AddEdgesEdges(g, ps[..|ps| - 1]);
      PairEdgesSnoc(ps);
    }
  }

  /** Adding the edges of `ps` adds exactly their endpoints as nodes. */
  lemma {:induction false} AddEdgesNodeSet(g: Graph, ps: seq<(NodeId, NodeId)>)
    ensures NodeSet(AddEdges(g, ps)) == NodeSet(g) + PairNodes(ps)
    decreases |ps|
  {
    if ps != [] {
      var t := ps[..|ps| - 1];
      AddEdgesNodeSet(g, t);
      AddEdgeNodeSet(AddEdges(g, t), ps[|ps| - 1].0, ps[|ps| - 1].1);
      PairNodesSnoc(ps);
    }
  }

  /** Adding edges keeps a graph valid, and keeps its nodes in front with
      their attributes. */
  lemma {:induction false} AddEdgesKeeps(g: Graph, ps: seq<(NodeId, NodeId)>)
    requires Valid(g)
    ensures var h := AddEdges(g, ps);
      && Valid(h) && |g.nodes| <= |h.nodes| && h.nodes[..|g.nodes|] == g.nodes
      && forall n :: n in g.attrs ==> n in h.attrs && h.attrs[n] == g.attrs[n]
    decreases |ps|
  {
    if ps != [] {
      var t := ps[..|ps| - 1];
      var h0 := AddEdges(g, t);
      AddEdgesKeeps(g, t);
      AddEdgeValid(h0, ps[|ps| - 1].0, ps[|ps| - 1].1);
      AddEdgeKeeps(h0, ps[|ps| - 1].0, ps[|ps| - 1].1);
      PrefixOfPrefix(g.nodes, h0.nodes, AddEdges(g, ps).nodes);
    }
  }

  /** A node that only a link names gets an empty attribute dict. */
  lemma {:induction false} AddEdgesNewAttrs(g: Graph, ps: seq<(NodeId, NodeId)>)
    ensures var h := AddEdges(g, ps);
      forall n :: n in h.attrs && n !in g.attrs ==> h.attrs[n] == map[]
    decreases |ps|
  {
    if ps != [] {
      var t := ps[..|ps| - 1];
      AddEdgesNewAttrs(g, t);
      AddEdgeNewAttrs(AddEdges(g, t), ps[|ps| - 1].0, ps[|ps| - 1].1);
    }
  }

  lemma AddEdgeNewAttrs(g: Graph, u: NodeId, v: NodeId)
    ensures var h := AddEdge(g, u, v);
      forall n :: n in h.attrs && n !in g.attrs ==> h.attrs[n] == map[]
  {
    var g0 := EnsureNode(g, u);
    assert forall n :: n in g0.attrs && n !in g.attrs ==> g0.attrs[n] == map[];
  }

  /** The ids of an n-row table. */
  function Indices(n: nat): set<NodeId>
  {
    set i | i in Range(n)
  }

  lemma IndicesRange(n: nat)
    ensures forall m :: m in Indices(n) <==> 0 <= m < n
  {
    forall m | 0 <= m < n ensures m in Indices(n) {
      assert Range(n)[m] == m;
    }
  }

  /** The table's nodes, in index order, form a valid graph without edges. */
  lemma NodeTableValid(nodes: Frame)
    ensures Valid(NodeTable(nodes)) && NodeSet(NodeTable(nodes)) == Indices(|nodes.rows|)
  {
    var g := NodeTable(nodes);
    forall n ensures n in g.attrs <==> n in Range(|nodes.rows|) {
      if 0 <= n < |nodes.rows| {
        assert Range(|nodes.rows|)[n] == n;
      }
    }
  }

  /** `gen_graph` builds a valid graph: node i for row i, in index order,
      with the row's non-missing cells as attributes. */
  lemma GenGraphNodes(nodes: Frame, links: Frame)
    requires HasEndpoints(links) && IntegralLinks(links)
    ensures GenGraph(nodes, links).Ok?
    ensures var g := GenGraph(nodes, links).value;
      && Valid(g) && |nodes.rows| <= |g.nodes|
      && forall i :: 0 <= i < |nodes.rows| ==> g.nodes[i] == i && g.attrs[i] == DropNa(nodes.rows[i])
  {
    var g0 := NodeTable(nodes);
    var ps := LinkPairs(links);
    assert Valid(g0) by { NodeTableValid(nodes); }
    AddEdgesKeeps(g0, ps);
    var g := AddEdges(g0, ps);
    forall i | 0 <= i < |nodes.rows| ensures g.nodes[i] == i {
      assert g.nodes[..|g0.nodes|][i] == g0.nodes[i];
    }
  }

  /** The endpoints the node table lacks come with no attributes. */
  lemma GenGraphLinkOnlyNodes(nodes: Frame, links: Frame)
    requires HasEndpoints(links) && IntegralLinks(links)
    ensures GenGraph(nodes, links).Ok?
    ensures var g := GenGraph(nodes, links).value;
      forall m :: m in g.attrs && m !in Range(|nodes.rows|) ==> g.attrs[m] == map[]
  {
    NodeTableValid(nodes);
    assert forall m :: m in NodeTable(nodes).attrs ==> m in NodeTable(nodes).nodes;
    AddEdgesNewAttrs(NodeTable(nodes), LinkPairs(links));
  }

  /** The nodes of `gen_graph`'s graph are the table's ids and the link endpoints. */
  lemma GenGraphNodeSet(nodes: Frame, links: Frame)
    requires HasEndpoints(links) && IntegralLinks(links)
    ensures GenGraph(nodes, links).Ok?
    ensures NodeSet(GenGraph(nodes, links).value) == Indices(|nodes.rows|) + PairNodes(LinkPairs(links))
  {
    NodeTableValid(nodes);
    AddEdgesNodeSet(NodeTable(nodes), LinkPairs(links));
  }

  /** One undirected edge per link, nothing else. */
  lemma GenGraphEdges(nodes: Frame, links: Frame)
    requires HasEndpoints(links) && IntegralLinks(links)
    ensures GenGraph(nodes, links).Ok?
    ensures GenGraph(nodes, links).value.edges == PairEdges(LinkPairs(links))
    ensures NumberOfEdges(GenGraph(nodes, links).value) <= |links.rows|
  {
    AddEdgesEdges(NodeTable(nodes), LinkPairs(links));
    PairEdgesCard(LinkPairs(links));
  }

  /** Repeated links collapse: there are at most as many edges as links. */
  lemma {:induction false} PairEdgesCard(ps: seq<(NodeId, NodeId)>)
    ensures |PairEdges(ps)| <= |ps|
    decreases |ps|
  {
    if ps != [] {
      PairEdgesCard(ps[..|ps| - 1]);
      PairEdgesSnoc(ps);
    }
  }

  /** A link repeated in reverse adds no edge. */
  lemma ReversedLinkCollapses(ps: seq<(NodeId, NodeId)>, u: NodeId, v: NodeId)
    requires (u, v) in ps
    ensures PairEdges(ps + [(v, u)]) == PairEdges(ps)
  {
    PairEdgesSnoc(ps + [(v, u)]);
    assert (ps + [(v, u)])[..|ps|] == ps;
    var k :| 0 <= k < |ps| && ps[k] == (u, v);
    assert {ps[k].0, ps[k].1} == {v, u};
  }
}
