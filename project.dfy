/** The `CyExProject` object of src/cyEx_project.py: its network, its graph
    and its list of `Layout` objects, and the methods that add layouts,
    read and write node data, and run `calculate_layouts`. */
module Projects {
  import opened Common
  import opened Graphs
  import opened PosDicts
  import opened Foreign
  import opened LayoutParams
  import opened Layouts
  import opened Frames
  import opened CyExProjects

  // ----- the loop of calculate_layouts ---------------------------------------------

  /** One pass of the loop at lines 159-161: compute the layout, then
      normalise it; a failing computation raises before the normalisation. */
  function CalcOne(s: LayoutState, e: Engines): Step
  {
    var c := CalculateStep(s, e);
    if c.outcome.Fail? then c else NormalizeStep(c.state)
  }

  /** The states of all layouts and whether the loop raised. */
  datatype LayoutsStep = LayoutsStep(states: seq<LayoutState>, outcome: Outcome)

  /** The loop over the layouts in list order that runs `run` on each, after
      its first `n` passes: the first exception ends it, and the layouts from
      the failing one on keep their state. */
  function Progress(ss: seq<LayoutState>, n: nat, run: LayoutState -> Step): (r: LayoutsStep)
    requires n <= |ss|
    ensures |r.states| == |ss|
    decreases n
  {
    if n == 0 then LayoutsStep(ss, Pass)
    else
      var before := Progress(ss, n - 1, run);
      if before.outcome.Fail? then before
      else
        var c := run(ss[n - 1]);
        LayoutsStep(before.states[n - 1 := c.state], c.outcome)
  }

  /** The layouts from pass `n` on still hold their state. */
  lemma {:induction false} ProgressKeeps(ss: seq<LayoutState>, n: nat, run: LayoutState -> Step)
    requires n <= |ss|
    ensures forall k :: n <= k < |ss| ==> Progress(ss, n, run).states[k] == ss[k]
    decreases n
  {
    if n > 0 {
      ProgressKeeps(ss, n - 1, run);
    }
  }

  /** The pass of the loop of `calculate_layouts`, as a function value. */
  function Calc(e: Engines): LayoutState -> Step
  {
    s => CalcOne(s, e)
  }

  /** `run` is that pass: it agrees with `CalcOne` wherever `CalcOne` is
      mentioned (the trigger keeps the pass folded elsewhere). */
  ghost predicate IsPass(run: LayoutState -> Step, e: Engines)
  {
    forall s {:trigger CalcOne(s, e)} :: run(s) == CalcOne(s, e)
  }

  lemma CalcIsPass(e: Engines)
    ensures IsPass(Calc(e), e)
  {
  }

  /** The whole loop of `calculate_layouts`. */
  function CalcAll(ss: seq<LayoutState>, e: Engines): LayoutsStep
  {
    Progress(ss, |ss|, Calc(e))
  }

  /** The loop completes exactly when every pass completes, and then each
      layout holds the state its own pass gave it. */
  lemma {:induction false} ProgressPasses(ss: seq<LayoutState>, n: nat, run: LayoutState -> Step)
    requires n <= |ss|
    ensures Progress(ss, n, run).outcome == Pass <==> forall i :: 0 <= i < n ==> run(ss[i]).outcome == Pass
    ensures Progress(ss, n, run).outcome == Pass ==> forall i :: 0 <= i < n ==> Progress(ss, n, run).states[i] == run(ss[i]).state
    decreases n
  {
    if n > 0 {
      ProgressPasses(ss, n - 1, run);
    }
  }

  /** Once the loop has raised, later passes change nothing. */
  lemma {:induction false} ProgressStops(ss: seq<LayoutState>, m: nat, n: nat, run: LayoutState -> Step)
    requires m <= n <= |ss| && Progress(ss, m, run).outcome.Fail?
    ensures Progress(ss, n, run) == Progress(ss, m, run)
    decreases n
  {
    if m < n {
      ProgressStops(ss, m, n - 1, run);
    }
  }

  /** A loop that raises names the first failing layout `k`: the layouts
      before it completed, `k` raised with the loop's error, and the
      layouts after it are untouched. */
  lemma {:induction false} ProgressFails(ss: seq<LayoutState>, n: nat, run: LayoutState -> Step)
    requires n <= |ss| && Progress(ss, n, run).outcome.Fail?
    ensures exists k :: 0 <= k < n && FailsFirstAt(ss, n, run, k)
    decreases n
  {
    var before := Progress(ss, n - 1, run);
    if before.outcome.Fail? {
      ProgressFails(ss, n - 1, run);
      var k :| 0 <= k < n - 1 && FailsFirstAt(ss, n - 1, run, k);
      assert FailsFirstAt(ss, n, run, k);
    } else {
      ProgressPasses(ss, n - 1, run);
      ProgressKeeps(ss, n - 1, run);
      assert FailsFirstAt(ss, n, run, n - 1);
    }
  }

  /** Pass `k` of the first `n` is the first to raise, and the loop's result is what that says. */
  ghost predicate FailsFirstAt(ss: seq<LayoutState>, n: nat, run: LayoutState -> Step, k: nat)
    requires k < n <= |ss|
  {
    var r := Progress(ss, n, run);
    && (forall i :: 0 <= i < k ==> run(ss[i]).outcome == Pass && r.states[i] == run(ss[i]).state)
    && run(ss[k]).outcome.Fail?
    && r.outcome == run(ss[k]).outcome
    && r.states[k] == run(ss[k]).state
    && (forall i :: k < i < |ss| ==> r.states[i] == ss[i])
  }

  // ----- the project's state ---------------------------------------------------------

  /** What the project object holds, with each layout as its state. */
  datatype ProjectState = ProjectState(network: Network, graph: Option<Graph>, layouts: seq<LayoutState>)

  datatype ProjectStep = ProjectStep(state: ProjectState, outcome: Outcome)

  /** `calculate_layouts` after the loop, given what the loop computed and
      what each later stage computes: a stage runs only when the one before
      it completed. */
  function Pipeline(p: ProjectState, computed: LayoutsStep, cy: FrameStep, links: Result<Frame>): (r: ProjectStep)
    ensures r.state.layouts == computed.states && r.state.graph == p.graph && r.state.network.meta == p.network.meta
    ensures r.outcome.Pass? ==> computed.outcome.Pass? && cy.outcome.Pass? && links.Ok?
    ensures computed.outcome.Fail? ==> r.outcome == computed.outcome && r.state.network == p.network
  {
    var p1 := p.(layouts := computed.states);
    if computed.outcome.Fail? then ProjectStep(p1, computed.outcome)
    else TablesStep(p1, cy, links)
  }

  /** Lines 162-176: the Cytoscape columns, then the layout columns, then
      the links; what a stage wrote before it raised stays. */
  function TablesStep(p: ProjectState, cy: FrameStep, links: Result<Frame>): (r: ProjectStep)
    ensures r.state.layouts == p.layouts && r.state.graph == p.graph && r.state.network.meta == p.network.meta
    ensures r.outcome.Pass? <==> cy.outcome.Pass? && AddLayoutsColumns(cy.frame, p.layouts).outcome.Pass? && links.Ok?
    ensures r.outcome.Pass? ==> r.state.network.links == links.value
    ensures r.outcome.Fail? ==> r.state.network.links == p.network.links
  {
    var p2 := p.(network := p.network.(nodes := cy.frame));
    if cy.outcome.Fail? then ProjectStep(p2, cy.outcome)
    else
      var added := AddLayoutsColumns(cy.frame, p.layouts);
      var p3 := p2.(network := p2.network.(nodes := added.frame));
      if added.outcome.Fail? then ProjectStep(p3, added.outcome)
      else match links
        case Err(err) => ProjectStep(p3, Fail(err))
        case Ok(l) => ProjectStep(p3.(network := p3.network.(links := l)), Pass)
  }

  /** `calculate_layouts` (lines 157-176): the layouts, then the Cytoscape
      columns, then the layout columns, then the links. */
  function CalculateLayoutsStep(p: ProjectState, e: Engines): ProjectStep
  {
    Pipeline(p, CalcAll(p.layouts, e), HandleCyLayoutStep(p.network.nodes), LinksStep(p.network.links, p.graph))
  }

  /** The graph and the metadata never change; the run completes exactly when
      every stage does, and then holds the layouts' new states, the node
      table with their columns and the new link table. */
  lemma PipelineFacts(p: ProjectState, computed: LayoutsStep, cy: FrameStep, links: Result<Frame>)
    requires |computed.states| == |p.layouts|
    ensures var r := Pipeline(p, computed, cy, links);
      && r.state.graph == p.graph && r.state.network.meta == p.network.meta
      && r.state.layouts == computed.states
    ensures var r := Pipeline(p, computed, cy, links);
      var added := AddLayoutsColumns(cy.frame, computed.states);
      && (r.outcome == Pass <==> computed.outcome == Pass && cy.outcome == Pass && added.outcome == Pass && links.Ok?)
      && (r.outcome == Pass ==> r.state.network == Network(added.frame, links.value, p.network.meta))
    ensures computed.outcome.Fail? ==> Pipeline(p, computed, cy, links) == ProjectStep(p.(layouts := computed.states), computed.outcome)
  {
  }

  /** A run of `calculate_layouts` that completes has computed every layout in
      turn, added their columns to the Cytoscape-updated node table and
      replaced the link table; the graph and the metadata are kept. */
  lemma CalculateLayoutsPasses(p: ProjectState, e: Engines)
    ensures var r := CalculateLayoutsStep(p, e);
      r.state.graph == p.graph && r.state.network.meta == p.network.meta && |r.state.layouts| == |p.layouts|
    ensures var r := CalculateLayoutsStep(p, e);
      r.outcome == Pass ==>
        && (forall i :: 0 <= i < |p.layouts| ==> CalcOne(p.layouts[i], e).outcome == Pass && r.state.layouts[i] == CalcOne(p.layouts[i], e).state)
        && HandleCyLayoutStep(p.network.nodes).outcome == Pass
        && r.state.network.nodes == AddLayoutsColumns(HandleCyLayoutStep(p.network.nodes).frame, r.state.layouts).frame
        && r.state.network.links == LinksStep(p.network.links, p.graph).value
  {
    CalcAllPasses(p, e, HandleCyLayoutStep(p.network.nodes), LinksStep(p.network.links, p.graph));
  }

  /** `CalculateLayoutsPasses` for any Cytoscape and link stages. */
  lemma CalcAllPasses(p: ProjectState, e: Engines, cy: FrameStep, links: Result<Frame>)
    ensures var r := Pipeline(p, CalcAll(p.layouts, e), cy, links);
      r.state.graph == p.graph && r.state.network.meta == p.network.meta && |r.state.layouts| == |p.layouts|
    ensures var r := Pipeline(p, CalcAll(p.layouts, e), cy, links);
      r.outcome == Pass ==>
        && (forall i :: 0 <= i < |p.layouts| ==> CalcOne(p.layouts[i], e).outcome == Pass && r.state.layouts[i] == CalcOne(p.layouts[i], e).state)
        && cy.outcome == Pass
        && r.state.network.nodes == AddLayoutsColumns(cy.frame, r.state.layouts).frame
        && r.state.network.links == links.value
  {
    var computed := CalcAll(p.layouts, e);
    PipelinePasses(p, computed, cy, links);
    ProgressPasses(p.layouts, |p.layouts|, Calc(e));
  }

  /** `PipelineFacts` for any stages, in the form `CalculateLayoutsPasses`
      uses. */
  lemma PipelinePasses(p: ProjectState, computed: LayoutsStep, cy: FrameStep, links: Result<Frame>)
    requires |computed.states| == |p.layouts|
    ensures var r := Pipeline(p, computed, cy, links);
      && r.state.graph == p.graph && r.state.network.meta == p.network.meta && |r.state.layouts| == |p.layouts|
      && (r.outcome == Pass ==>
        && computed.outcome == Pass && r.state.layouts == computed.states && cy.outcome == Pass
        && r.state.network.nodes == AddLayoutsColumns(cy.frame, r.state.layouts).frame
        && r.state.network.links == links.value)
  {
    PipelineFacts(p, computed, cy, links);
  }

  /** A project whose layouts raise leaves both tables as they were. */
  lemma FailingLayoutKeepsTables(p: ProjectState, e: Engines)
    requires CalcAll(p.layouts, e).outcome.Fail?
    ensures CalculateLayoutsStep(p, e).state.network == p.network
    ensures CalculateLayoutsStep(p, e).outcome == CalcAll(p.layouts, e).outcome
  {
    PipelineFacts(p, CalcAll(p.layouts, e), HandleCyLayoutStep(p.network.nodes), LinksStep(p.network.links, p.graph));
  }

  /** The states of a list of layout objects. */
  function StatesOf(ls: seq<Layout>): (ss: seq<LayoutState>)
    reads ls
    ensures |ss| == |ls|
  {
    seq(|ls|, i requires 0 <= i < |ls| reads ls => ls[i].State())
  }

  /** The outcome of the `gen_graph` call at line 77 of `add_layout`: it runs
      only without a graph, and its graph is discarded. */
  function AddLayoutOutcome(network: Network, graph: Option<Graph>): Outcome
    requires graph.None? && HasEndpoints(network.links) ==> IntegralLinks(network.links)
  {
    if graph.Some? then Pass
    else match GenGraph(network.nodes, network.links)
      case Err(err) => Fail(err)
      case Ok(_) => Pass
  }

  /** `add_layout` raises only when the project has no graph and the link
      table lacks an endpoint column. */
  lemma AddLayoutFails(network: Network, graph: Option<Graph>)
    requires graph.None? && HasEndpoints(network.links) ==> IntegralLinks(network.links)
    ensures AddLayoutOutcome(network, graph).Fail? <==> graph.None? && !HasEndpoints(network.links)
    ensures graph.None? && Start !in network.links.columns ==> AddLayoutOutcome(network, graph) == Fail(KeyError(Start))
  {
  }

  // ----- the class -------------------------------------------------------------------

  class CyExProject {
    const name: string
    const overwrite: bool
    var network: Network
    var graph: Option<Graph>
    var layouts: seq<Layout>
    /** The position of each layout object in `layouts`. */
    ghost var index: map<Layout, nat>

    /** The layout list holds each object once (each has one position), so
        that computing one layout leaves the others alone. */
    ghost predicate Valid()
      reads this
    {
      Indexed(layouts, index)
    }

    function State(): ProjectState
      reads this, layouts
    {
      ProjectState(network, graph, StatesOf(layouts))
    }

    /** The part of `__init__` (lines 18-41) after the graph is known. */
    constructor(name: string, network: Network, graph: Option<Graph>, overwrite: bool)
      ensures Valid() && this.name == name && this.overwrite == overwrite
      ensures this.network == network && this.graph == graph && layouts == []
    {
      this.name := name;
      this.overwrite := overwrite;
      this.network := network;
      this.graph := graph;
      layouts := [];
      index := map[];
    }

    /** `CyExProject(name, network, overwrite)` for a network of tables: the
        graph is built by `gen_graph`, whose KeyError escapes. */
    static method Create(name: string, network: Network, overwrite: bool) returns (r: Result<CyExProject>)
      requires HasEndpoints(network.links) ==> IntegralLinks(network.links)
      ensures r.Ok? <==> GenGraph(network.nodes, network.links).Ok?
      ensures r.Err? ==> r.error == GenGraph(network.nodes, network.links).error
      ensures r.Ok? ==> fresh(r.value) && r.value.Valid() && r.value.name == name && r.value.overwrite == overwrite
      ensures r.Ok? ==> r.value.State() == ProjectState(network, Some(GenGraph(network.nodes, network.links).value), [])
    {
      var g := GenGraph(network.nodes, network.links);
      if g.Err? {
        return Err(g.error);
      }
      var p := new CyExProject(name, network, Some(g.value), overwrite);
      r := Ok(p);
    }

    /** `add_layout(name, algo, variables, fm, dim)`: the new layout gets the
        project's graph, which stays None when the project had none. */
    method AddLayout(layoutName: string, algo: string, variables: Variables, fm: Option<FeatureMatrix>, dim: nat)
      returns (out: Outcome)
      requires Valid()
      requires graph.None? && HasEndpoints(network.links) ==> IntegralLinks(network.links)
      modifies this
      ensures Valid() && network == old(network) && graph == old(graph)
      ensures out == AddLayoutOutcome(old(network), old(graph))
      ensures out.Fail? ==> layouts == old(layouts)
      ensures out.Pass? ==>
        && |layouts| == |old(layouts)| + 1 && layouts[..|old(layouts)|] == old(layouts)
        && fresh(layouts[|old(layouts)|])
        && layouts[|old(layouts)|].State() == Initial(layoutName, algo, variables, graph, fm, dim)
    {
      if graph.None? {
        var discarded := GenGraph(network.nodes, network.links);
        if discarded.Err? {
          return Fail(discarded.error);
        }
      }
      var l := new Layout(layoutName, algo, variables, graph, fm, dim);
      index := index[l := |layouts|];
      layouts := layouts + [l];
      out := Pass;
    }

    /** `get_node_data(node)`. */
    method GetNodeData(node: NodeId) returns (r: Result<Value>)
      modifies this`graph
      ensures network == old(network) && layouts == old(layouts)
      ensures match GetNodeDataStep(old(graph), node)
        case Ok(step) => graph == Some(step.0) && r == Ok(step.1)
        case Err(err) => graph == old(graph) && r == Err(err)
    {
      if graph.None? {
        return Err(AttributeError("'NoneType' object has no attribute 'nodes'"));
      }
      var g := graph.value;
      if node !in g.attrs {
        return Err(KeyError("node"));
      }
      if DataKey !in g.attrs[node] {
        graph := Some(g.(attrs := g.attrs[node := g.attrs[node][DataKey := Dict(map[])]]));
      }
      r := Ok(graph.value.attrs[node][DataKey]);
    }

    /** `set_node_data(node, data)`. */
    method SetNodeData(node: NodeId, data: Value) returns (out: Outcome)
      modifies this`graph
      ensures network == old(network) && layouts == old(layouts)
      ensures match SetNodeDataStep(old(graph), node, data)
        case Ok(g) => graph == Some(g) && out == Pass
        case Err(err) => graph == old(graph) && out == Fail(err)
    {
      if graph.None? {
        return Fail(AttributeError("'NoneType' object has no attribute 'nodes'"));
      }
      var g := graph.value;
      if node !in g.attrs {
        return Fail(KeyError("node"));
      }
      graph := Some(g.(attrs := g.attrs[node := g.attrs[node][DataKey := data]]));
      out := Pass;
    }

    /** `add_layouts_to_network(layouts)`: the loop at lines 147-154 over the
        given layouts, or the project's own when none are given. */
    method AddLayoutsToNetwork(given: Option<seq<Layout>>) returns (out: Outcome)
      modifies this`network
      ensures graph == old(graph) && layouts == old(layouts)
      ensures var ls := if given.Some? then given.value else old(layouts);
        var step := AddLayoutsColumns(old(network.nodes), old(StatesOf(ls)));
        network == old(network).(nodes := step.frame) && out == step.outcome
    {
      var ls := if given.Some? then given.value else layouts;
      var step := WriteLayouts(network.nodes, ls);
      network := network.(nodes := step.frame);
      out := step.outcome;
    }

    /** `handle_cy_layout()`. */
    method HandleCyLayout() returns (out: Outcome)
      modifies this`network
      ensures graph == old(graph) && layouts == old(layouts)
      ensures network == old(network).(nodes := HandleCyLayoutStep(old(network.nodes)).frame)
      ensures out == HandleCyLayoutStep(old(network.nodes)).outcome
    {
      var step := HandleCyLayoutStep(network.nodes);
      network := network.(nodes := step.frame);
      out := step.outcome;
    }

    /** The links part of `calculate_layouts` (lines 170-176), with the drop
        loop at lines 173-175. */
    method HandleLinks() returns (out: Outcome)
      modifies this`network
      ensures graph == old(graph) && layouts == old(layouts)
      ensures match LinksStep(old(network.links), old(graph))
        case Ok(links) => network == old(network).(links := links) && out == Pass
        case Err(err) => network == old(network) && out == Fail(err)
    {
      var count := LinkCount(graph);
      if count.Err? {
        return Fail(count.error);
      }
      var colored := SetList(network.links, "all_col", seq(count.value, _ => LinkColour));
      if colored.Err? {
        return Fail(colored.error);
      }
      network := network.(links := colored.value);
      var links := network.links;
      var drops := DroppedLinkColumns;
      var j := 0;
      while j < |drops|
        invariant 0 <= j <= |drops|
        invariant links == DropIfPresent(colored.value, drops[..j])
      {
        assert drops[..j + 1][..j] == drops[..j];
        if drops[j] in links.columns {
          links := DropColumn(links, drops[j]);
        }
        j := j + 1;
      }
      assert drops[..j] == drops;
      network := network.(links := links);
      out := Pass;
    }

    /** Lines 162-176 of `calculate_layouts`, after the loop. */
    method UpdateTables() returns (out: Outcome)
      modifies this`network
      ensures ProjectStep(State(), out) == TablesStep(old(State()), HandleCyLayoutStep(old(network.nodes)), LinksStep(old(network.links), old(graph)))
    {
      out := HandleCyLayout();
      if out.Fail? {
        return;
      }
      out := AddLayoutsToNetwork(None);
      if out.Fail? {
        return;
      }
      out := HandleLinks();
    }

    /** `calculate_layouts()`. */
    method CalculateLayouts(e: Engines) returns (out: Outcome)
      requires Valid()
      modifies this`network, layouts
      ensures ProjectStep(State(), out) == CalculateLayoutsStep(old(State()), e)
    {
      CalcIsPass(e);
      out := ComputeLayouts(layouts, e, Calc(e), index);
      if out.Fail? {
        return;
      }
      out := UpdateTables();
    }
  }

  /** Each object of `ls` sits at the position `index` gives it. */
  ghost predicate Indexed(ls: seq<Layout>, index: map<Layout, nat>)
  {
    forall k :: 0 <= k < |ls| ==> ls[k] in index && index[ls[k]] == k
  }

  /** Lines 160-161 for `ls[i]`: that layout takes the pass `run` and the
      others keep their state. */
  method RunLayout(ls: seq<Layout>, i: nat, e: Engines, ghost run: LayoutState -> Step, ghost index: map<Layout, nat>)
    returns (out: Outcome)
    requires i < |ls| && Indexed(ls, index) && IsPass(run, e)
    modifies ls[i]
    ensures StatesOf(ls) == old(StatesOf(ls))[i := run(old(StatesOf(ls))[i]).state]
    ensures out == run(old(StatesOf(ls))[i]).outcome
  {
    ghost var before := StatesOf(ls);
    out := RunOne(ls[i], e);
    forall k | 0 <= k < |ls| && k != i
      ensures StatesOf(ls)[k] == before[k]
    {
      assert ls[k] != ls[i];
    }
    assert StatesOf(ls) == before[i := ls[i].State()];
  }

  /** The loop of `calculate_layouts` (lines 159-161) over the project's
      layouts: each takes the pass `run` (computed, then normalised), in list
      order, until one raises. */
  method ComputeLayouts(ls: seq<Layout>, e: Engines, ghost run: LayoutState -> Step, ghost index: map<Layout, nat>)
    returns (out: Outcome)
    requires Indexed(ls, index) && IsPass(run, e)
    modifies ls
    ensures StatesOf(ls) == Progress(old(StatesOf(ls)), |ls|, run).states
    ensures out == Progress(old(StatesOf(ls)), |ls|, run).outcome
  {
    ghost var s0 := StatesOf(ls);
    ghost var done := Progress(s0, 0, run);
    out := Pass;
    var i := 0;
    while i < |ls| && out.Pass?
      invariant 0 <= i <= |ls|
      invariant done == Progress(s0, i, run) && out == done.outcome
      invariant StatesOf(ls) == done.states
    {
      ProgressKeeps(s0, i, run);
      out := RunLayout(ls, i, e, run, index);
      done := Progress(s0, i + 1, run);
      i := i + 1;
    }
    if out.Fail? {
      ProgressStops(s0, i, |s0|, run);
    }
  }

  /** One pass of the loop of `calculate_layouts` on one layout object. */
  method RunOne(l: Layout, e: Engines) returns (out: Outcome)
    modifies l
    ensures Step(l.State(), out) == CalcOne(old(l.State()), e)
  {
    out := l.CalculateLayout(e);
    if out.Pass? {
      out := l.NormalizePos();
    }
  }

  /** The loop at lines 147-154 of `add_layouts_to_network` on the node
      table `nodes`: the table after the loop, and whether it raised. */
  method WriteLayouts(nodes: Frame, ls: seq<Layout>) returns (step: FrameStep)
    ensures step == AddLayoutsColumns(nodes, StatesOf(ls))
  {
    ghost var ss := StatesOf(ls);
    var current := nodes;
    var k := 0;
    while k < |ls|
      invariant 0 <= k <= |ls|
      invariant AddLayoutsColumns(nodes, ss[..k]) == FrameStep(current, Pass)
    {
      AddLayoutsNext(nodes, ss, k);
      var s := ls[k].State();
      assert s == ss[k];
      var written := LayoutColumns(current, s);
      if written.Err? {
        AddLayoutsStops(nodes, ss, k + 1);
        return FrameStep(current, Fail(written.error));
      }
      current := written.value;
      k := k + 1;
    }
    assert ss[..k] == ss;
    step := FrameStep(current, Pass);
  }

  /** One more layout of `add_layouts_to_network` after passes that completed. */
  lemma AddLayoutsNext(nodes: Frame, ss: seq<LayoutState>, k: nat)
    requires k < |ss| && AddLayoutsColumns(nodes, ss[..k]).outcome == Pass
    ensures var f := AddLayoutsColumns(nodes, ss[..k]).frame;
      AddLayoutsColumns(nodes, ss[..k + 1]) ==
        match LayoutColumns(f, ss[k])
        case Err(err) => FrameStep(f, Fail(err))
        case Ok(g) => FrameStep(g, Pass)
  {
    assert ss[..k + 1][..k] == ss[..k];
  }

  /** A failing layout ends `add_layouts_to_network`: the later layouts do not change the table. */
  lemma {:induction false} AddLayoutsStops(nodes: Frame, ss: seq<LayoutState>, k: nat)
    requires 0 < k <= |ss| && AddLayoutsColumns(nodes, ss[..k]).outcome.Fail?
    ensures AddLayoutsColumns(nodes, ss) == AddLayoutsColumns(nodes, ss[..k])
    decreases |ss|
  {
    if k < |ss| {
      var t := ss[..|ss| - 1];
      assert t[..k] == ss[..k];
      AddLayoutsStops(nodes, t, k);
    } else {
      assert ss[..k] == ss;
    }
  }
}
