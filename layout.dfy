/** The `Layout` class of src/layout.py: one named layout of a graph, the
    dispatch from its algorithm name to an embedding, the split of the graph
    into the nodes an algorithm places and the nodes put on a sphere, and the
    normalisation of the result. */
module Layouts {
  import opened Common
  import opened Graphs
  import opened PosDicts
  import opened Normalize
  import opened Foreign
  import opened SphereSampling
  import opened LayoutParams

  /** `LA.cartoGRAPH`, `LA.spring` and `LA.kamada_kawai`. */
  const CartoGraphName := "cartoGRAPH"
  const SpringName := "spring"
  const KamadaKawaiName := "kamada_kawai"

  /** Everything a `Layout` holds. The first six fields are set by the
      constructor and never change; the last three are what its methods
      assign. */
  datatype LayoutState = LayoutState(
    name: string,
    algo: string,
    variables: Variables,
    graph: Option<Graph>,
    dim: nat,
    fm: Option<FeatureMatrix>,
    randomLayout: bool,
    pos: PosDict,
    featureMatrix: Option<FeatureMatrix>)

  /** The state a method leaves and whether it completed or raised. */
  datatype Step = Step(state: LayoutState, outcome: Outcome)

  // ----- the graph, split for the embeddings ---------------------------------

  /** The nodes of degree 0. */
  function IsolatedSet(g: Graph): set<NodeId>
  {
    set n | n in g.nodes && Isolated(g, n)
  }

  /** `no_links`: the subgraph on the degree-0 nodes. */
  function NoLinks(g: Graph): Graph
  {
    Subgraph(g, IsolatedSet(g))
  }

  /** `has_links`: the subgraph on every other node. */
  function HasLinks(g: Graph): Graph
  {
    Subgraph(g, NodeSet(g) - NodeSet(NoLinks(g)))
  }

  /** `feature_matrix.any(axis=1)` for one row. */
  predicate HasFeature(row: FeatureRow)
  {
    exists k :: 0 <= k < |row.1| && row.1[k] != 0.0
  }

  /** `feature_matrix[features]`: the rows with a non-zero feature, in order. */
  function WithFeatures(fm: FeatureMatrix): (r: FeatureMatrix)
    ensures forall x :: x in r <==> x in fm && HasFeature(x)
  {
    if fm == [] then []
    else
      var rest := WithFeatures(fm[1..]);
      assert forall x :: x in fm <==> x == fm[0] || x in fm[1..];
      if HasFeature(fm[0]) then [fm[0]] + rest else rest
  }

  /** The index labels of a feature matrix. */
  function Labels(fm: FeatureMatrix): set<NodeId>
  {
    set x | x in fm :: x.0
  }

  /** `feature_matrix[~features].index`. */
  function NoFeatureLabels(fm: FeatureMatrix): set<NodeId>
  {
    set x | x in fm && !HasFeature(x) :: x.0
  }

  // ----- the methods, on values ----------------------------------------------

  /** `nx.random_layout(graph, dim=3)` after `if not graph: graph = self.graph`:
      a missing or empty graph falls back to the layout's own graph, and a
      missing one of those fails in networkx. */
  function RandomPos(arg: Option<Graph>, s: LayoutState, e: Engines): Result<PosDict>
  {
    var target := if arg.None? || |arg.value.nodes| == 0 then s.graph else arg;
    match target
    case None => Err(TypeError("'NoneType' object is not iterable"))
    case Some(t) => Ok(Zip(t.nodes, e.random(t)))
  }

  /** `create_random_layout(graph)`: also stores the result in `pos`. */
  function RandomStep(arg: Option<Graph>, s: LayoutState, e: Engines): Step
  {
    match RandomPos(arg, s, e)
    case Ok(p) => Step(s.(pos := p), Pass)
    case Err(err) => Step(s, Fail(err))
  }

  /** Lines 324-327: the random layout of the linked subgraph when asked for
      (stored in `pos` as well), the algorithm's output otherwise. */
  function LinkedPos(s: LayoutState, hasLinks: Graph, algo: LinkAlgo, params: map<string, Param>, e: Engines): Result<PosDict>
  {
    if s.randomLayout then RandomPos(Some(hasLinks), s, e)
    else Ok(Zip(hasLinks.nodes, e.embed(algo, hasLinks, params)))
  }

  /** `link_based_layout(algorithm, params)`: the algorithm (or the random
      layout) runs on the linked nodes only; then, if there are isolated
      nodes, they are sampled on a sphere around the result and merged in. */
  function LinkBasedStep(s: LayoutState, algo: LinkAlgo, params: map<string, Param>, e: Engines): (r: Step)
    ensures r.state == s.(pos := r.state.pos)
    ensures s.graph.None? ==> r.outcome.Fail? && r.outcome.error.AttributeError?
  {
    match s.graph
    case None => Step(s, Fail(AttributeError("'NoneType' object has no attribute 'degree'")))
    case Some(g) =>
      match LinkedPos(s, HasLinks(g), algo, params, e)
      case Err(err) => Step(s, Fail(err))
      case Ok(layout) =>
        var s1 := if s.randomLayout then s.(pos := layout) else s;
        if |NoLinks(g).nodes| > 0 then
          match SphereLayout(NoLinks(g), Values(layout), e)
          case Err(err) => Step(s1, Fail(err))
          case Ok(sph) => Step(s.(pos := Update(layout, sph)), Pass)
        else Step(s.(pos := layout), Pass)
  }

  /** `create_spring_layout`: the random layout first when asked for, which
      the link-based layout then replaces. */
  function SpringStep(s: LayoutState, e: Engines): Step
  {
    var first := if s.randomLayout then RandomStep(None, s, e) else Step(s, Pass);
    if first.outcome.Fail? then first
    else LinkBasedStep(first.state, Spring, SpringVariables(s.variables), e)
  }

  /** `create_kamada_kawai_layout`: the random layout instead, when asked for. */
  function KamadaKawaiStep(s: LayoutState, e: Engines): Step
  {
    if s.randomLayout then RandomStep(None, s, e)
    else LinkBasedStep(s, KamadaKawai, map[], e)
  }

  /** The subgraphs of the functional variants: the nodes whose feature row
      has a non-zero entry, and the nodes of the all-zero rows. */
  datatype Split = Split(featureGraph: Graph, sphereGraph: Graph)

  function FeatureSplit(g: Graph, fm: FeatureMatrix): Split
  {
    Split(Subgraph(g, Labels(WithFeatures(fm))), Subgraph(g, NoFeatureLabels(fm)))
  }

  /** Lines 233-241 and 258-267: the random layout of the feature graph when
      asked for (stored in `pos` as well), the functional embedding otherwise. */
  function FeaturePos(s: LayoutState, split: Split, fm: FeatureMatrix, algo: FunctionalAlgo, params: map<string, Param>, e: Engines): Result<PosDict>
  {
    if s.randomLayout then RandomPos(Some(split.featureGraph), s, e)
    else Ok(Zip(split.featureGraph.nodes, e.embedFeatures(algo, split.featureGraph, fm, params)))
  }

  /** Lines 230-245 and 255-271: embed the nodes with features, sample the
      others on a sphere around them, and merge. */
  function FunctionalStep(s: LayoutState, split: Split, algo: FunctionalAlgo, params: map<string, Param>, e: Engines): (r: Step)
    ensures r.state == s.(pos := r.state.pos)
    ensures s.featureMatrix.None? ==> r == Step(s, Pass)
  {
    match s.featureMatrix
    case None => Step(s, Pass)   // `return ValueError(...)` returns the exception object
    case Some(fm) =>
      match FeaturePos(s, split, fm, algo, params, e)
      case Err(err) => Step(s, Fail(err))
      case Ok(functional) =>
        var s1 := if s.randomLayout then s.(pos := functional) else s;
        match SphereLayout(split.sphereGraph, Values(functional), e)
        case Err(err) => Step(s1, Fail(err))
        case Ok(sph) => Step(s.(pos := Update(functional, sph)), Pass)
  }

  /** The family dispatch of `create_cartoGRAPH_layout` (lines 222-294),
      after the feature split; `split` is present exactly for a functional
      name. A tsne or umap name without a known variant, or a name of no
      family, reaches line 294 with `function` unbound. */
  function CartoGraphFamilyStep(s: LayoutState, split: Option<Split>, e: Engines): (r: Step)
    requires split.Some? <==> Contains(s.algo, "functional")
    ensures r.state == s.(pos := r.state.pos)
  {
    var a := s.algo;
    if Contains(a, "tsne") then
      var params := TsneVariables(s.variables);
      if Contains(a, "local") then LinkBasedStep(s, LocalTsne, params, e)
      else if Contains(a, "global") then LinkBasedStep(s, GlobalTsne, params, e)
      else if Contains(a, "importance") then LinkBasedStep(s, ImportanceTsne, params, e)
      else if Contains(a, "functional") then FunctionalStep(s, split.value, FunctionalTsne, params, e)
      else Step(s, Fail(UnboundLocalError("function")))
    else if Contains(a, "umap") then
      var params := UmapVariables(s.variables);
      if Contains(a, "local") then LinkBasedStep(s, LocalUmap, params, e)
      else if Contains(a, "global") then LinkBasedStep(s, GlobalUmap, params, e)
      else if Contains(a, "importance") then LinkBasedStep(s, ImportanceUmap, params, e)
      else if Contains(a, "functional") then FunctionalStep(s, split.value, FunctionalUmap, params, e)
      else Step(s, Fail(UnboundLocalError("function")))
    else if Contains(a, "topographic") then Step(s, Fail(NotImplementedError("Topographic layout not implemented yet!")))
    else if Contains(a, "geodesic") then Step(s, Fail(NotImplementedError("Geodesic layout not implemented yet!")))
    else Step(s, Fail(UnboundLocalError("function")))
  }

  /** `create_cartoGRAPH_layout`: for a functional name the feature matrix is
      first filtered to its rows with features (lines 211-220). */
  function CartoGraphStep(s: LayoutState, e: Engines): (r: Step)
    ensures r.state == s.(pos := r.state.pos, featureMatrix := r.state.featureMatrix)
    ensures !Contains(s.algo, "functional") ==> r.state.featureMatrix == s.featureMatrix
    ensures Contains(s.algo, "functional") && s.featureMatrix.None? ==> r.outcome.Fail? && r.outcome.error.AttributeError?
  {
    if !Contains(s.algo, "functional") then CartoGraphFamilyStep(s, None, e)
    else match s.featureMatrix
      case None => Step(s, Fail(AttributeError("'NoneType' object has no attribute 'any'")))
      case Some(fm) =>
        var s1 := s.(featureMatrix := Some(WithFeatures(fm)));
        match s.graph
        case None => Step(s1, Fail(AttributeError("'NoneType' object has no attribute 'subgraph'")))
        case Some(g) => CartoGraphFamilyStep(s1, Some(FeatureSplit(g, fm)), e)
  }

  /** `calculate_layout`: a name containing the cartoGRAPH marker goes to
      cartoGRAPHs; otherwise only the exact names of the two networkx
      layouts are recognised, and any other name does nothing. */
  function CalculateStep(s: LayoutState, e: Engines): (r: Step)
    ensures r.state == s.(pos := r.state.pos, featureMatrix := r.state.featureMatrix)
    ensures !Contains(s.algo, "functional") ==> r.state.featureMatrix == s.featureMatrix
  {
    if Contains(s.algo, CartoGraphName) then CartoGraphStep(s, e)
    else if s.algo == SpringName then SpringStep(s, e)
    else if s.algo == KamadaKawaiName then KamadaKawaiStep(s, e)
    else Step(s, Pass)
  }

  /** `Layout.normalize_pos`. */
  function NormalizeStep(s: LayoutState): Step
  {
    match Normalized(s.pos, s.dim)
    case Ok(p) => Step(s.(pos := p), Pass)
    case Err(err) => Step(s, Fail(err))
  }

  /** A `Layout` straight from the constructor: no positions, no random
      layout, and no `feature_matrix` (`fm` is stored under another name). */
  function Initial(name: string, algo: string, variables: Variables, graph: Option<Graph>, fm: Option<FeatureMatrix>, dim: nat): LayoutState
  {
    LayoutState(name, algo, variables, graph, dim, fm, false, [], None)
  }

  // ----- the class -------------------------------------------------------------

  /** A `Layout` object: its methods assign `pos`, `feature_matrix` and
      update nothing else. Each method is specified by the step function of
      the same name above. */
  class Layout {
    const name: string
    const algo: string
    const variables: Variables
    const graph: Option<Graph>
    const dim: nat
    const fm: Option<FeatureMatrix>
    var randomLayout: bool
    var pos: PosDict
    var featureMatrix: Option<FeatureMatrix>

    function State(): LayoutState
      reads this
    {
      LayoutState(name, algo, variables, graph, dim, fm, randomLayout, pos, featureMatrix)
    }

    constructor(name: string, algo: string, variables: Variables, graph: Option<Graph>, fm: Option<FeatureMatrix>, dim: nat)
      ensures State() == Initial(name, algo, variables, graph, fm, dim)
    {
      this.name := name;
      this.algo := algo;
      this.variables := variables;
      this.graph := graph;
      this.dim := dim;
      this.fm := fm;
      randomLayout := false;
      pos := [];
      featureMatrix := None;
    }

    /** `layout.random_layout = b`, an attribute the callers set. */
    method SetRandomLayout(b: bool)
      modifies this
      ensures State() == old(State()).(randomLayout := b)
    {
      randomLayout := b;
    }

    /** `len(layout)`: the number of positioned nodes. */
    function Size(): (n: nat)
      reads this
      ensures IsDict(pos) ==> n == |KeySet(pos)|
    {
      if IsDict(pos) then DictSize(pos); |pos| else |pos|
    }

    method CreateRandomLayout(arg: Option<Graph>, e: Engines) returns (out: Outcome)
      modifies this
      ensures Step(State(), out) == RandomStep(arg, old(State()), e)
    {
      var target := if arg.None? || |arg.value.nodes| == 0 then graph else arg;
      if target.None? {
        return Fail(TypeError("'NoneType' object is not iterable"));
      }
      pos := Zip(target.value.nodes, e.random(target.value));
      out := Pass;
    }

    /** `link_based_layout(algorithm, algo_variables)`; absent variables
        are an empty dict. */
    method LinkBasedLayout(algorithm: LinkAlgo, algoVariables: Option<map<string, Param>>, e: Engines) returns (out: Outcome)
      modifies this
      ensures Step(State(), out) == LinkBasedStep(old(State()), algorithm, if algoVariables.None? then map[] else algoVariables.value, e)
    {
      var params := if algoVariables.None? then map[] else algoVariables.value;
      if graph.None? {
        return Fail(AttributeError("'NoneType' object has no attribute 'degree'"));
      }
      var noLinks := NoLinks(graph.value);
      var hasLinks := HasLinks(graph.value);
      var layout: PosDict;
      if randomLayout {
        out := CreateRandomLayout(Some(hasLinks), e);
        if out.Fail? {
          return;
        }
        layout := pos;
      } else {
        layout := Zip(hasLinks.nodes, e.embed(algorithm, hasLinks, params));
      }
      if |noLinks.nodes| > 0 {
        var sph := SampleSphere(noLinks, Values(layout), e);
        if sph.Err? {
          return Fail(sph.error);
        }
        layout := Update(layout, sph.value);
      }
      pos := layout;
      out := Pass;
    }

    method CreateSpringLayout(e: Engines) returns (out: Outcome)
      modifies this
      ensures Step(State(), out) == SpringStep(old(State()), e)
    {
      if randomLayout {
        out := CreateRandomLayout(None, e);
        if out.Fail? {
          return;
        }
      }
      out := LinkBasedLayout(Spring, Some(SpringVariables(variables)), e);
    }

    method CreateKamadaKawaiLayout(e: Engines) returns (out: Outcome)
      modifies this
      ensures Step(State(), out) == KamadaKawaiStep(old(State()), e)
    {
      if randomLayout {
        out := CreateRandomLayout(None, e);
        return;
      }
      out := LinkBasedLayout(KamadaKawai, None, e);
    }

    /** The functional branch of `create_cartoGRAPH_layout`. */
    method FunctionalLayout(split: Split, algorithm: FunctionalAlgo, params: map<string, Param>, e: Engines) returns (out: Outcome)
      modifies this
      ensures Step(State(), out) == FunctionalStep(old(State()), split, algorithm, params, e)
    {
      if featureMatrix.None? {
        return Pass;
      }
      var functional: PosDict;
      if randomLayout {
        out := CreateRandomLayout(Some(split.featureGraph), e);
        if out.Fail? {
          return;
        }
        functional := pos;
      } else {
        functional := Zip(split.featureGraph.nodes, e.embedFeatures(algorithm, split.featureGraph, featureMatrix.value, params));
      }
      var sph := SampleSphere(split.sphereGraph, Values(functional), e);
      if sph.Err? {
        return Fail(sph.error);
      }
      pos := Update(functional, sph.value);
      out := Pass;
    }

    /** The variant dispatch of one family: `local`, `global` and
        `importance` run on links, `functional` on features. */
    method FamilyLayout(split: Option<Split>, local: LinkAlgo, global: LinkAlgo, importance: LinkAlgo,
                        functional: FunctionalAlgo, params: map<string, Param>, e: Engines) returns (out: Outcome)
      requires split.Some? <==> Contains(algo, "functional")
      modifies this
      ensures Step(State(), out) ==
        if Contains(algo, "local") then LinkBasedStep(old(State()), local, params, e)
        else if Contains(algo, "global") then LinkBasedStep(old(State()), global, params, e)
        else if Contains(algo, "importance") then LinkBasedStep(old(State()), importance, params, e)
        else if Contains(algo, "functional") then FunctionalStep(old(State()), split.value, functional, params, e)
        else Step(old(State()), Fail(UnboundLocalError("function")))
    {
      if Contains(algo, "local") {
        out := LinkBasedLayout(local, Some(params), e);
      } else if Contains(algo, "global") {
        out := LinkBasedLayout(global, Some(params), e);
      } else if Contains(algo, "importance") {
        out := LinkBasedLayout(importance, Some(params), e);
      } else if Contains(algo, "functional") {
        out := FunctionalLayout(split.value, functional, params, e);
      } else {
        out := Fail(UnboundLocalError("function"));
      }
    }

    method CreateCartoGraphLayout(e: Engines) returns (out: Outcome)
      modifies this
      ensures Step(State(), out) == CartoGraphStep(old(State()), e)
    {
      var split: Option<Split> := None;
      if Contains(algo, "functional") {
        if featureMatrix.None? {
          return Fail(AttributeError("'NoneType' object has no attribute 'any'"));
        }
        var m := featureMatrix.value;
        featureMatrix := Some(WithFeatures(m));
        if graph.None? {
          return Fail(AttributeError("'NoneType' object has no attribute 'subgraph'"));
        }
        split := Some(FeatureSplit(graph.value, m));
      }
      if Contains(algo, "tsne") {
        out := FamilyLayout(split, LocalTsne, GlobalTsne, ImportanceTsne, FunctionalTsne, TsneVariables(variables), e);
      } else if Contains(algo, "umap") {
        out := FamilyLayout(split, LocalUmap, GlobalUmap, ImportanceUmap, FunctionalUmap, UmapVariables(variables), e);
      } else if Contains(algo, "topographic") {
        out := Fail(NotImplementedError("Topographic layout not implemented yet!"));
      } else if Contains(algo, "geodesic") {
        out := Fail(NotImplementedError("Geodesic layout not implemented yet!"));
      } else {
        out := Fail(UnboundLocalError("function"));
      }
    }

    method CalculateLayout(e: Engines) returns (out: Outcome)
      modifies this
      ensures Step(State(), out) == CalculateStep(old(State()), e)
    {
      if Contains(algo, CartoGraphName) {
        out := CreateCartoGraphLayout(e);
      } else if algo == SpringName {
        out := CreateSpringLayout(e);
      } else if algo == KamadaKawaiName {
        out := CreateKamadaKawaiLayout(e);
      } else {
        out := Pass;
      }
    }

    method NormalizePos() returns (out: Outcome)
      modifies this
      ensures Step(State(), out) == NormalizeStep(old(State()))
    {
      var r := Normalize.NormalizePos(pos, dim);
      if r.Err? {
        return Fail(r.error);
      }
      pos := r.value;
      out := Pass;
    }
  }
}
