/** What `Layout`'s methods guarantee, stated on the value-level model of
    src/layout.py. */
module LayoutProperties {
  import opened Common
  import opened Graphs
  import opened PosDicts
  import opened Normalize
  import opened Foreign
  import opened SphereSampling
  import opened LayoutParams
  import opened Layouts

  // ----- the degree-0 partition ----------------------------------------------

  /** The isolated and the linked nodes split the graph: disjoint, together
      all of it; every edge stays with the linked subgraph, none with the
      isolated one. */
  lemma LinkPartition(g: Graph)
    requires Valid(g)
    ensures NodeSet(NoLinks(g)) == IsolatedSet(g)
    ensures NodeSet(NoLinks(g)) !! NodeSet(HasLinks(g))
    ensures NodeSet(NoLinks(g)) + NodeSet(HasLinks(g)) == NodeSet(g)
    ensures HasLinks(g).edges == g.edges
    ensures NoLinks(g).edges == {}
    ensures Valid(NoLinks(g)) && Valid(HasLinks(g))
  {
    PartitionNodes(g);
    PartitionEdges(g);
  }

  lemma PartitionEdges(g: Graph)
    requires Valid(g)
    ensures HasLinks(g).edges == g.edges
    ensures NoLinks(g).edges == {}
    ensures Valid(NoLinks(g)) && Valid(HasLinks(g))
  {
    HasLinksEdges(g);
    NoLinksEdges(g);
    SubgraphFacts(g, IsolatedSet(g));
    SubgraphFacts(g, NodeSet(g) - NodeSet(NoLinks(g)));
  }

  lemma HasLinksEdges(g: Graph)
    requires Valid(g)
    ensures HasLinks(g).edges == g.edges
  {
    PartitionNodes(g);
    EdgesAvoidIsolated(g);
    SubgraphFacts(g, NodeSet(g) - NodeSet(NoLinks(g)));
  }

  lemma NoLinksEdges(g: Graph)
    requires Valid(g)
    ensures NoLinks(g).edges == {}
  {
    EdgesAvoidIsolated(g);
    SubgraphFacts(g, IsolatedSet(g));
  }

  lemma PartitionNodes(g: Graph)
    ensures NodeSet(NoLinks(g)) == IsolatedSet(g)
    ensures NodeSet(HasLinks(g)) == NodeSet(g) - IsolatedSet(g)
  {
    var iso := IsolatedSet(g);
    SubgraphFacts(g, iso);
    SubgraphFacts(g, NodeSet(g) - NodeSet(NoLinks(g)));
    assert iso <= NodeSet(g);
  }

  /** Every edge lies among the linked nodes. */
  lemma EdgesAvoidIsolated(g: Graph)
    requires Valid(g)
    ensures forall e :: e in g.edges ==> e <= NodeSet(g) - IsolatedSet(g) && !(e <= IsolatedSet(g))
  {
    var iso := IsolatedSet(g);
    forall e | e in g.edges ensures e <= NodeSet(g) - iso && !(e <= iso) {
      forall n | n in e ensures n !in iso {
        assert !Isolated(g, n);
      }
      assert e != {};
      var n :| n in e;
      assert n !in iso;
    }
  }

  /** Taking every node of a graph gives the graph back. */
  lemma SubgraphAll(g: Graph)
    requires Valid(g)
    ensures Subgraph(g, NodeSet(g)) == g
  {
    FilterAll(g.nodes, NodeSet(g));
    assert (map n | n in g.attrs && n in NodeSet(g) :: g.attrs[n]) == g.attrs;
    assert (set e | e in g.edges && e <= NodeSet(g)) == g.edges;
  }

  lemma {:induction false} FilterAll(ns: seq<NodeId>, keep: set<NodeId>)
    requires forall i :: 0 <= i < |ns| ==> ns[i] in keep
    ensures Filter(ns, keep) == ns
  {
    if ns != [] {
      var t := ns[1..];
      assert forall i :: 0 <= i < |t| ==> t[i] == ns[i + 1];
      FilterAll(t, keep);
      assert ns[0] in keep;
      assert Filter(ns, keep) == [ns[0]] + Filter(t, keep);
      assert ns == [ns[0]] + t;
    }
  }

  // ----- link_based_layout ------------------------------------------------------

  /** The positions of the linked nodes: a dict of 3-vectors covering at
      least the linked subgraph and at most the graph. */
  lemma LinkedPosKeys(s: LayoutState, algo: LinkAlgo, params: map<string, Param>, e: Engines)
    requires s.graph.Some? && Valid(s.graph.value) && Conforms(e)
    ensures var g := s.graph.value;
      var r := LinkedPos(s, HasLinks(g), algo, params, e);
      && r.Ok? && IsDict(r.value) && AllWidth(Values(r.value), 3)
      && NodeSet(HasLinks(g)) <= KeySet(r.value) <= NodeSet(g)
      && (IsolatedSet(g) != {} || KeySet(r.value) == NodeSet(g))
  {
    var g := s.graph.value;
    var h := HasLinks(g);
    LinkPartition(g);
    if !s.randomLayout {
      ZipPoints(h.nodes, e.embed(algo, h, params));
    } else if |h.nodes| == 0 {
      ZipPoints(g.nodes, e.random(g));
      assert NodeSet(h) == {};
    } else {
      ZipPoints(h.nodes, e.random(h));
    }
  }

  /** The points of a conforming engine, zipped with the distinct nodes they
      were computed for. */
  lemma ZipPoints(ks: seq<NodeId>, pts: seq<Point>)
    requires Distinct(ks) && |pts| == |ks| && forall x :: x in pts ==> |x| == 3
    ensures IsDict(Zip(ks, pts)) && AllWidth(Values(Zip(ks, pts)), 3)
    ensures KeySet(Zip(ks, pts)) == set n | n in ks
  {
    ZipIsDict(ks, pts);
    ZipKeys(ks, pts);
    var vs := Values(Zip(ks, pts));
    forall j | 0 <= j < |vs| ensures |vs[j]| == 3 {
      assert vs[j] == pts[j];
    }
  }

  /** With well-behaved libraries `link_based_layout` completes and leaves
      exactly one position per node of the graph; nothing but `pos` changes. */
  lemma LinkBasedCovers(s: LayoutState, algo: LinkAlgo, params: map<string, Param>, e: Engines)
    requires s.graph.Some? && Valid(s.graph.value) && Conforms(e)
    ensures var r := LinkBasedStep(s, algo, params, e);
      && r.outcome == Pass && r.state == s.(pos := r.state.pos)
      && IsDict(r.state.pos) && KeySet(r.state.pos) == NodeSet(s.graph.value)
      && |r.state.pos| == |s.graph.value.nodes|
  {
    var g := s.graph.value;
    var pos := LinkBasedStep(s, algo, params, e).state.pos;
    if |NoLinks(g).nodes| > 0 {
      LinkBasedWithSphere(s, algo, params, e);
    } else {
      LinkBasedWithoutSphere(s, algo, params, e);
    }
    DictSize(pos);
    DistinctCard(g.nodes);
  }

  lemma LinkBasedWithSphere(s: LayoutState, algo: LinkAlgo, params: map<string, Param>, e: Engines)
    requires s.graph.Some? && Valid(s.graph.value) && Conforms(e) && |NoLinks(s.graph.value).nodes| > 0
    ensures var r := LinkBasedStep(s, algo, params, e);
      && r.outcome == Pass && r.state == s.(pos := r.state.pos)
      && IsDict(r.state.pos) && KeySet(r.state.pos) == NodeSet(s.graph.value)
  {
    var g := s.graph.value;
    SphereParts(s, algo, params, e);
    LinkBasedUnfold(s, algo, params, e);
    var layout := LinkedPos(s, HasLinks(g), algo, params, e).value;
    var sph := SphereLayout(NoLinks(g), Values(layout), e).value;
    MergeCovers(layout, sph, NodeSet(HasLinks(g)), NodeSet(NoLinks(g)), NodeSet(g));
  }

  /** The two halves `link_based_layout` merges when there are isolated nodes. */
  lemma SphereParts(s: LayoutState, algo: LinkAlgo, params: map<string, Param>, e: Engines)
    requires s.graph.Some? && Valid(s.graph.value) && Conforms(e)
    ensures var g := s.graph.value;
      var r := LinkedPos(s, HasLinks(g), algo, params, e);
      && r.Ok? && SphereLayout(NoLinks(g), Values(r.value), e).Ok?
      && var sph := SphereLayout(NoLinks(g), Values(r.value), e).value;
      && IsDict(r.value) && IsDict(sph)
      && NodeSet(HasLinks(g)) <= KeySet(r.value) <= NodeSet(g)
      && KeySet(sph) == NodeSet(NoLinks(g)) && Keys(sph) == NoLinks(g).nodes
      && NodeSet(HasLinks(g)) + NodeSet(NoLinks(g)) == NodeSet(g)
      && NodeSet(HasLinks(g)) !! NodeSet(NoLinks(g))
  {
    var g := s.graph.value;
    var noL := NoLinks(g);
    PartitionNodes(g);
    PartitionEdges(g);
    LinkedPosKeys(s, algo, params, e);
    var layout := LinkedPos(s, HasLinks(g), algo, params, e).value;
    SphereLayoutSucceeds(noL, Values(layout), e);
    SphereLayoutKeys(noL, Values(layout), e);
  }

  /** `link_based_layout` once the embedding has succeeded. */
  lemma LinkBasedUnfold(s: LayoutState, algo: LinkAlgo, params: map<string, Param>, e: Engines)
    requires s.graph.Some? && LinkedPos(s, HasLinks(s.graph.value), algo, params, e).Ok?
    ensures var g := s.graph.value;
      var layout := LinkedPos(s, HasLinks(g), algo, params, e).value;
      var r := LinkBasedStep(s, algo, params, e);
      && (|NoLinks(g).nodes| == 0 ==> r == Step(s.(pos := layout), Pass))
      && (|NoLinks(g).nodes| > 0 && SphereLayout(NoLinks(g), Values(layout), e).Ok? ==>
            r == Step(s.(pos := Update(layout, SphereLayout(NoLinks(g), Values(layout), e).value)), Pass))
  {
  }

  /** Merging the sphere positions of the isolated nodes into a layout of
      the linked ones covers the graph. */
  lemma MergeCovers(layout: PosDict, sph: PosDict, linked: set<NodeId>, isolated: set<NodeId>, all: set<NodeId>)
    requires IsDict(layout) && IsDict(sph)
    requires linked <= KeySet(layout) <= all && KeySet(sph) == isolated
    requires linked + isolated == all
    ensures IsDict(Update(layout, sph)) && KeySet(Update(layout, sph)) == all
  {
    UpdateKeys(layout, sph);
  }

  lemma LinkBasedWithoutSphere(s: LayoutState, algo: LinkAlgo, params: map<string, Param>, e: Engines)
    requires s.graph.Some? && Valid(s.graph.value) && Conforms(e) && |NoLinks(s.graph.value).nodes| == 0
    ensures var r := LinkBasedStep(s, algo, params, e);
      && r.outcome == Pass && r.state == s.(pos := r.state.pos)
      && IsDict(r.state.pos) && KeySet(r.state.pos) == NodeSet(s.graph.value)
  {
    var g := s.graph.value;
    LinkPartition(g);
    LinkedPosKeys(s, algo, params, e);
    var layout := LinkedPos(s, HasLinks(g), algo, params, e).value;
    assert NodeSet(NoLinks(g)) == {};
    assert LinkBasedStep(s, algo, params, e) == Step(s.(pos := layout), Pass);
  }

  /** Without the random layout the algorithm runs on the linked subgraph
      alone: its output, node by node, comes first, followed by the isolated
      nodes' sphere points. */
  lemma LinkBasedEmbedsLinked(s: LayoutState, algo: LinkAlgo, params: map<string, Param>, e: Engines)
    requires s.graph.Some? && Valid(s.graph.value) && Conforms(e) && !s.randomLayout
    ensures var g := s.graph.value;
      var h := HasLinks(g);
      var pos := LinkBasedStep(s, algo, params, e).state.pos;
      && |h.nodes| <= |pos|
      && pos[..|h.nodes|] == Zip(h.nodes, e.embed(algo, h, params))
      && Keys(pos[|h.nodes|..]) == NoLinks(g).nodes
  {
    var g := s.graph.value;
    var h := HasLinks(g);
    var layout := Zip(h.nodes, e.embed(algo, h, params));
    assert |e.embed(algo, h, params)| == |h.nodes|;
    ZipKeys(h.nodes, e.embed(algo, h, params));
    if |NoLinks(g).nodes| > 0 {
      EmbedsLinkedWithSphere(s, algo, params, e);
    } else {
      assert LinkBasedStep(s, algo, params, e).state.pos == layout;
    }
  }

  lemma EmbedsLinkedWithSphere(s: LayoutState, algo: LinkAlgo, params: map<string, Param>, e: Engines)
    requires s.graph.Some? && Valid(s.graph.value) && Conforms(e) && !s.randomLayout
    requires |NoLinks(s.graph.value).nodes| > 0
    ensures var g := s.graph.value;
      var h := HasLinks(g);
      var pos := LinkBasedStep(s, algo, params, e).state.pos;
      && |h.nodes| <= |pos|
      && pos == Zip(h.nodes, e.embed(algo, h, params)) + pos[|h.nodes|..]
      && Keys(pos[|h.nodes|..]) == NoLinks(g).nodes
  {
    var g := s.graph.value;
    var h := HasLinks(g);
    SphereParts(s, algo, params, e);
    LinkBasedUnfold(s, algo, params, e);
    var layout := Zip(h.nodes, e.embed(algo, h, params));
    assert |e.embed(algo, h, params)| == |h.nodes|;
    var sph := SphereLayout(NoLinks(g), Values(layout), e).value;
    UpdateDisjoint(layout, sph);
    var pos := LinkBasedStep(s, algo, params, e).state.pos;
    assert pos == layout + sph;
    assert pos[|h.nodes|..] == sph;
  }

  /** The sphere positions of nodes the layout lacks go after it. */
  lemma SphereAppended(layout: PosDict, noL: Graph, e: Engines)
    requires Valid(noL) && Conforms(e) && AllWidth(Values(layout), 3)
    requires KeySet(layout) !! NodeSet(noL)
    ensures SphereLayout(noL, Values(layout), e).Ok?
    ensures var sph := SphereLayout(noL, Values(layout), e).value;
      Update(layout, sph) == layout + sph && Keys(sph) == noL.nodes
  {
    SphereLayoutSucceeds(noL, Values(layout), e);
    SphereLayoutKeys(noL, Values(layout), e);
    var sph := SphereLayout(noL, Values(layout), e).value;
    UpdateDisjoint(layout, sph);
  }

  /** A graph without isolated nodes gets exactly the algorithm's output for
      the whole graph (no library contract needed: no sphere is sampled). */
  lemma LinkBasedNoIsolated(s: LayoutState, algo: LinkAlgo, params: map<string, Param>, e: Engines)
    requires s.graph.Some? && Valid(s.graph.value) && !s.randomLayout
    requires IsolatedSet(s.graph.value) == {}
    ensures var g := s.graph.value;
      LinkBasedStep(s, algo, params, e) == Step(s.(pos := Zip(g.nodes, e.embed(algo, g, params))), Pass)
  {
    var g := s.graph.value;
    LinkPartition(g);
    assert NodeSet(NoLinks(g)) == {};
    NoNodes(NoLinks(g));
    SubgraphAll(g);
    assert NodeSet(g) - NodeSet(NoLinks(g)) == NodeSet(g);
    assert HasLinks(g) == g;
  }
}
