/** What `calculate_layout` and `create_cartoGRAPH_layout` of src/layout.py
    do with an algorithm name, and what the functional variants and the
    random layout leave in `pos`. */
module DispatchProperties {
  import opened Common
  import opened Graphs
  import opened PosDicts
  import opened Normalize
  import opened Foreign
  import opened SphereSampling
  import opened LayoutParams
  import opened Layouts
  import opened LayoutProperties

  // ----- the dispatch on the name -------------------------------------------

  /** A string none of whose characters is the first of `marker` does not
      contain `marker`. */
  lemma FirstCharLacks(a: string, marker: string)
    requires |marker| > 0 && forall i :: 0 <= i < |a| ==> a[i] != marker[0]
    ensures !Contains(a, marker)
  {
    forall i | 0 <= i && i + |marker| <= |a| ensures !OccursAt(a, marker, i) {
      assert a[i..i + |marker|][0] == a[i];
    }
  }

  /** The exact networkx names do not contain the cartoGRAPH marker, so
      each reaches its own layout. */
  lemma ExactNamesReachNetworkx(s: LayoutState, e: Engines)
    ensures s.algo == SpringName ==> CalculateStep(s, e) == SpringStep(s, e)
    ensures s.algo == KamadaKawaiName ==> CalculateStep(s, e) == KamadaKawaiStep(s, e)
  {
    FirstCharLacks(SpringName, CartoGraphName);
    FirstCharLacks(KamadaKawaiName, CartoGraphName);
  }

  /** A name that is neither a cartoGRAPH name nor one of the two exact
      networkx names changes nothing and raises nothing. */
  lemma UnknownNameIsNoOp(s: LayoutState, e: Engines)
    requires !Contains(s.algo, CartoGraphName) && s.algo != SpringName && s.algo != KamadaKawaiName
    ensures CalculateStep(s, e) == Step(s, Pass)
  {
  }

  /** On a fresh layout, whose `pos` is empty, the `normalize_pos` that
      follows such a name over at least one axis finds no positions:
      `pos[:, 0]` of the one-dimensional empty array raises IndexError. */
  lemma UnknownNameThenNormalizeFails(s: LayoutState, e: Engines)
    requires !Contains(s.algo, CartoGraphName) && s.algo != SpringName && s.algo != KamadaKawaiName
    requires s.pos == [] && s.dim > 0
    ensures NormalizeStep(CalculateStep(s, e).state).outcome.Fail?
    ensures NormalizeStep(CalculateStep(s, e).state).outcome.error.IndexError?
  {
    UnknownNameIsNoOp(s, e);
    assert Values(SortByKey([])) == [];
  }

  /** A cartoGRAPH name of neither the tsne nor the umap family that asks
      for the topographic or geodesic layout raises NotImplementedError. */
  lemma ReservedNamesNotImplemented(s: LayoutState, e: Engines)
    requires Contains(s.algo, CartoGraphName)
    requires !Contains(s.algo, "tsne") && !Contains(s.algo, "umap")
    requires Contains(s.algo, "topographic") || Contains(s.algo, "geodesic")
    requires Contains(s.algo, "functional") ==> s.featureMatrix.Some? && s.graph.Some?
    ensures CalculateStep(s, e).outcome.Fail? && CalculateStep(s, e).outcome.error.NotImplementedError?
  {
  }

  /** A tsne or umap name without a known variant, or a cartoGRAPH name of
      no family, ends at line 294 with `function` unbound, and `pos` is not
      touched. */
  lemma UnknownVariantUnbound(s: LayoutState, e: Engines)
    requires Contains(s.algo, CartoGraphName) && !Contains(s.algo, "functional")
    requires !Contains(s.algo, "local") && !Contains(s.algo, "global") && !Contains(s.algo, "importance")
    requires !Contains(s.algo, "topographic") && !Contains(s.algo, "geodesic")
    ensures CalculateStep(s, e) == Step(s, Fail(UnboundLocalError("function")))
  {
  }

  /** A `Layout` fresh from the constructor has no `feature_matrix` (the
      matrix given as `fm` is stored as `fm`), so every functional cartoGRAPH
      name raises AttributeError, whatever `fm` holds. */
  lemma FreshFunctionalFails(name: string, algo: string, vars: Variables, g: Option<Graph>, fm: Option<FeatureMatrix>, dim: nat, e: Engines)
    requires Contains(algo, CartoGraphName) && Contains(algo, "functional")
    ensures var s := Initial(name, algo, vars, g, fm, dim);
      CalculateStep(s, e) == Step(s, Fail(AttributeError("'NoneType' object has no attribute 'any'")))
  {
  }

  // ----- the functional variants ---------------------------------------------

  /** Every node label names one row of the feature matrix. */
  predicate UniqueLabels(fm: FeatureMatrix)
  {
    forall i, j :: 0 <= i < j < |fm| ==> fm[i].0 != fm[j].0
  }

  /** The rows with features and those without have disjoint labels, which
      together are all the labels. */
  lemma FeatureLabels(fm: FeatureMatrix)
    requires UniqueLabels(fm)
    ensures Labels(WithFeatures(fm)) !! NoFeatureLabels(fm)
    ensures Labels(WithFeatures(fm)) + NoFeatureLabels(fm) == Labels(fm)
  {
    var wf := WithFeatures(fm);
    forall n | n in Labels(wf) ensures n !in NoFeatureLabels(fm) {
      var x :| x in wf && x.0 == n;
      var i :| 0 <= i < |fm| && fm[i] == x;
      forall j | 0 <= j < |fm| && !HasFeature(fm[j]) ensures fm[j].0 != n {
        assert i != j;
      }
    }
    forall n | n in Labels(fm) ensures n in Labels(wf) + NoFeatureLabels(fm) {
      var x :| x in fm && x.0 == n;
      if HasFeature(x) { assert x in wf; }
    }
  }

  /** The feature graph and the sphere graph split the nodes of `g` that
      have a row: disjoint, valid graphs that together hold all those nodes. */
  lemma FeatureSplitNodes(g: Graph, fm: FeatureMatrix)
    requires Valid(g) && UniqueLabels(fm)
    ensures var sp := FeatureSplit(g, fm);
      && Valid(sp.featureGraph) && Valid(sp.sphereGraph)
      && NodeSet(sp.featureGraph) !! NodeSet(sp.sphereGraph)
      && NodeSet(sp.featureGraph) + NodeSet(sp.sphereGraph) == NodeSet(g) * Labels(fm)
  {
    FeatureLabels(fm);
    SubgraphFacts(g, Labels(WithFeatures(fm)));
    SubgraphFacts(g, NoFeatureLabels(fm));
  }

  /** Without the random layout a functional variant positions the feature
      graph's nodes by the embedding, in order, followed by the sphere
      graph's nodes: one entry per node of the two, nothing else changed. */
  lemma FunctionalUnion(s: LayoutState, split: Split, algo: FunctionalAlgo, params: map<string, Param>, e: Engines)
    requires s.featureMatrix.Some? && !s.randomLayout && Conforms(e)
    requires Valid(split.featureGraph) && Valid(split.sphereGraph)
    requires NodeSet(split.featureGraph) !! NodeSet(split.sphereGraph)
    ensures var r := FunctionalStep(s, split, algo, params, e);
      var fg := split.featureGraph;
      var functional := Zip(fg.nodes, e.embedFeatures(algo, fg, s.featureMatrix.value, params));
      && r.outcome == Pass && r.state == s.(pos := r.state.pos)
      && IsDict(r.state.pos)
      && KeySet(r.state.pos) == NodeSet(fg) + NodeSet(split.sphereGraph)
      && |functional| <= |r.state.pos| && r.state.pos[..|functional|] == functional
      && Keys(r.state.pos[|functional|..]) == split.sphereGraph.nodes
  {
    var fg := split.featureGraph;
    var sg := split.sphereGraph;
    var pts := e.embedFeatures(algo, fg, s.featureMatrix.value, params);
    var functional := Zip(fg.nodes, pts);
    ZipPoints(fg.nodes, pts);
    SphereAppended(functional, sg, e);
    var sph := SphereLayout(sg, Values(functional), e).value;
    SphereLayoutKeys(sg, Values(functional), e);
    ConcatDict(functional, sph);
    assert (functional + sph)[..|functional|] == functional;
    assert (functional + sph)[|functional|..] == sph;
  }

  /** Two dicts with disjoint keys concatenate into a dict with both key sets. */
  lemma ConcatDict(d: PosDict, e: PosDict)
    requires IsDict(d) && IsDict(e) && KeySet(d) !! KeySet(e)
    ensures IsDict(d + e) && KeySet(d + e) == KeySet(d) + KeySet(e)
  {
    UpdateKeys(d, e);
    UpdateDisjoint(d, e);
  }

  /** A functional tsne or umap name with a feature matrix and a graph runs
      the functional step on the filtered matrix and the feature split. */
  lemma FunctionalDispatch(s: LayoutState, e: Engines)
    requires Contains(s.algo, CartoGraphName) && Contains(s.algo, "functional")
    requires Contains(s.algo, "tsne") || Contains(s.algo, "umap")
    requires !Contains(s.algo, "local") && !Contains(s.algo, "global") && !Contains(s.algo, "importance")
    requires s.graph.Some? && s.featureMatrix.Some?
    ensures var fm := s.featureMatrix.value;
      var tsne := Contains(s.algo, "tsne");
      CalculateStep(s, e) == FunctionalStep(s.(featureMatrix := Some(WithFeatures(fm))), FeatureSplit(s.graph.value, fm),
        if tsne then FunctionalTsne else FunctionalUmap,
        if tsne then TsneVariables(s.variables) else UmapVariables(s.variables), e)
  {
  }

  /** A functional tsne or umap name, with a feature matrix that has one row
      per node of the graph, positions every node exactly once. */
  lemma FunctionalCoversGraph(s: LayoutState, e: Engines)
    requires Contains(s.algo, CartoGraphName) && Contains(s.algo, "functional")
    requires Contains(s.algo, "tsne") || Contains(s.algo, "umap")
    requires !Contains(s.algo, "local") && !Contains(s.algo, "global") && !Contains(s.algo, "importance")
    requires s.graph.Some? && Valid(s.graph.value) && s.featureMatrix.Some? && !s.randomLayout && Conforms(e)
    requires UniqueLabels(s.featureMatrix.value) && Labels(s.featureMatrix.value) == NodeSet(s.graph.value)
    ensures var r := CalculateStep(s, e);
      r.outcome == Pass && IsDict(r.state.pos) && KeySet(r.state.pos) == NodeSet(s.graph.value)
  {
    var g := s.graph.value;
    var fm := s.featureMatrix.value;
    var s1 := s.(featureMatrix := Some(WithFeatures(fm)));
    var sp := FeatureSplit(g, fm);
    FeatureSplitNodes(g, fm);
    var tsne := Contains(s.algo, "tsne");
    var algo := if tsne then FunctionalTsne else FunctionalUmap;
    var params := if tsne then TsneVariables(s.variables) else UmapVariables(s.variables);
    FunctionalDispatch(s, e);
    FunctionalUnion(s1, sp, algo, params, e);
  }

  // ----- the random layout ------------------------------------------------------

  /** With the random layout, kamada-kawai places the whole graph at random,
      isolated nodes included, and samples no sphere. */
  lemma KamadaKawaiRandomAll(s: LayoutState, e: Engines)
    requires s.randomLayout && s.graph.Some? && Valid(s.graph.value) && Conforms(e)
    ensures var g := s.graph.value;
      var r := KamadaKawaiStep(s, e);
      && r == Step(s.(pos := Zip(g.nodes, e.random(g))), Pass)
      && IsDict(r.state.pos) && KeySet(r.state.pos) == NodeSet(g)
  {
    var g := s.graph.value;
    ZipPoints(g.nodes, e.random(g));
  }

  /** With the random layout and no links at all, the empty linked subgraph
      makes `create_random_layout` fall back to the whole graph, and the
      sphere points of the (all isolated) nodes then replace every one of
      those random positions. */
  lemma RandomEmptySubgraphFallsBack(s: LayoutState, algo: LinkAlgo, params: map<string, Param>, e: Engines)
    requires s.randomLayout && s.graph.Some? && Valid(s.graph.value) && Conforms(e)
    requires s.graph.value.edges == {} && |s.graph.value.nodes| > 0
    ensures var g := s.graph.value;
      var rnd := Zip(g.nodes, e.random(g));
      && SphereLayout(g, Values(rnd), e).Ok?
      && LinkBasedStep(s, algo, params, e) == Step(s.(pos := SphereLayout(g, Values(rnd), e).value), Pass)
  {
    var g := s.graph.value;
    AllIsolated(g);
    var rnd := Zip(g.nodes, e.random(g));
    ZipPoints(g.nodes, e.random(g));
    ZipKeys(g.nodes, e.random(g));
    SphereLayoutSucceeds(g, Values(rnd), e);
    SphereLayoutKeys(g, Values(rnd), e);
    var sph := SphereLayout(g, Values(rnd), e).value;
    UpdateSameKeys(rnd, sph);
    assert RandomPos(Some(HasLinks(g)), s, e) == Ok(rnd);
  }

  /** A graph without edges is its own isolated part, and its linked part is empty. */
  lemma AllIsolated(g: Graph)
    requires Valid(g) && g.edges == {}
    ensures NoLinks(g) == g && HasLinks(g).nodes == []
  {
    assert IsolatedSet(g) == NodeSet(g);
    SubgraphAll(g);
    SubgraphFacts(g, NodeSet(g) - NodeSet(NoLinks(g)));
    NoNodes(HasLinks(g));
  }
}
